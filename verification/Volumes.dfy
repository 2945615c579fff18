/**
 * One volume on the node: the paths that belong to it, the calls it may receive, and what the
 * caller knows about it. Its slice of the node is all a call for it looks at.
 */
module Volumes {
  import opened FileSystem
  import opened NodeSteps
  import opened Paths
  import opened Text

  /**
   * What the requests for one volume agree on. Their contexts need not be the same: they agree on
   * whether the volume is ephemeral and, where content is staged, on the bottle and its selectors.
   * An ephemeral volume has no staging path of its own.
   */
  datatype Volume = Volume(context: Context, staging: Option<Path>, targets: set<Path>, readOnly: set<Path>)

  /** A volume with its ID on a node; `shelter` is where Unpublish looks for ephemeral content. */
  datatype Owner = Owner(cfg: Config, id: string, shelter: Path, vol: Volume) {
    predicate Ephemeral() {
      IsEphemeral(vol.context)
    }

    function Staging(): Path {
      if Ephemeral() || vol.staging.None? then shelter else vol.staging.value
    }

    function Contents(): Bottle {
      BottleOf(cfg, Wanted(vol.context))
    }

    function Roots(): set<Path> {
      {Staging(), shelter} + vol.targets
    }

    predicate Mine(q: Path) {
      exists r :: r in Roots() && r <= q
    }

    predicate Above(q: Path) {
      exists r :: r in Roots() && q <= r
    }

    /** Everything under the volume's paths, and files that stand where a directory above them is needed. */
    predicate Relevant(q: Path, entry: Entry) {
      Mine(q) || (Above(q) && entry.File?)
    }

    function Slice(w: World): World {
      World(map q | q in w.tree && Relevant(q, w.tree[q]) :: w.tree[q],
            map t | t in w.mounts && t in vol.targets :: w.mounts[t])
    }

    /** All mounts on the volume's targets show its staging directory, and no other mount is in the way. */
    ghost predicate Tidy(w: World) {
      && (forall t :: t in w.mounts && t in vol.targets ==> w.mounts[t] != [] && AllOwn(w.mounts[t]))
      && (forall r, m :: r in Roots() && m in w.mounts && m <= r ==> m == r && m in vol.targets)
    }

    ghost predicate AllOwn(stack: seq<Mount>) {
      forall i :: 0 <= i < |stack| ==> stack[i].source == Staging()
    }

    /** No path of the volume lies under another, and the cache is elsewhere. */
    ghost predicate Layout() {
      shelter == EphemeralPath(cfg, id) && Spaced()
    }

    ghost predicate Spaced() {
      && (forall a, b :: a in Roots() && b in Roots() && a != b ==> Apart(a, b))
      && (forall a :: a in Roots() ==> Apart(a, cfg.cacheDir))
      && Staging() !in vol.targets && shelter !in vol.targets
      && (Ephemeral() <==> Staging() == shelter)
      && (Ephemeral() ==> forall t, u :: t in vol.targets && u in vol.targets ==> t == u)
      && (Wanted(vol.context) in cfg.catalog ==> BottleOK(Contents()))
    }

    ghost predicate Complete(tree: Tree) {
      && Staging() in tree
      && (forall r :: r in Contents() ==> Staging() + r in tree && tree[Staging() + r] == Contents()[r])
      && (forall q :: q in tree && Staging() <= q ==> q[|Staging()|..] in Contents())
    }

    /** The mount a target should carry. */
    function Right(target: Path): Mount {
      Mount(Staging(), Options(target in vol.readOnly))
    }

    /** The mount a target carries after a Publish that failed to apply the options. */
    function Unfinished(): Mount {
      Mount(Staging(), UNFINISHED)
    }

    /** The call's values are the volume's. */
    ghost predicate Fits(pc: Pc) {
      match pc
      case Resolving(s, wanted, next) => s == Staging() && wanted == Wanted(vol.context) && FitsNext(next)
      case Pulling(s, wanted, next) => s == Staging() && wanted == Wanted(vol.context) && FitsNext(next)
      case Notifying(s, next) => s == Staging() && FitsNext(next)
      case Checking(s, t, ro) => s == Staging() && t in vol.targets && (ro <==> t in vol.readOnly)
      case Making(s, t, ro) => s == Staging() && t in vol.targets && (ro <==> t in vol.readOnly)
      case Mounting(s, t, ro) => s == Staging() && t in vol.targets && (ro <==> t in vol.readOnly)
      case Probing(t, s) => s == shelter && t in vol.targets
      case Unmounting(t, s) => s == shelter && t in vol.targets
      case Clearing(t, s) => s == shelter && t in vol.targets
      case Statting(t, s) => s == shelter && t in vol.targets
      case Purging(t, s) => s == shelter && t in vol.targets
      case Unstaging(s) => s == Staging() && !Ephemeral()
      case Done(_) => true
    }

    ghost predicate FitsNext(next: Next) {
      match next
      case EndStage => !Ephemeral()
      case ThenMount(t, ro) => Ephemeral() && t in vol.targets && (ro <==> t in vol.readOnly)
    }

    /** A request about this volume: what it names agrees with what the volume is. */
    ghost predicate Suits(call: Call) {
      && (call.volumeId == id || call.volumeId == "")
      && match call
         case StageVolume(_, s, _, context, _) =>
           !Ephemeral() && Wanted(context) == Wanted(vol.context) && (s.Some? ==> s == vol.staging)
         case PublishVolume(_, t, s, _, context, _, ro) =>
           && (IsEphemeral(context) <==> Ephemeral()) && (Ephemeral() ==> Wanted(context) == Wanted(vol.context))
           && (t.Some? ==> t.value in vol.targets && (ro <==> t.value in vol.readOnly))
           && (!Ephemeral() && s.Some? ==> s == vol.staging)
         case UnpublishVolume(_, t) => t.Some? ==> t.value in vol.targets
         case UnstageVolume(_, s) => !Ephemeral() && (s.Some? ==> s == vol.staging)
    }
  }

  lemma BeginFits(o: Owner, call: Call)
    requires o.Suits(call)
    requires o.Layout()
    ensures o.Fits(Begin(o.cfg, call))
    ensures Begin(o.cfg, call).Done? ==> Begin(o.cfg, call).response != OK
  {
  }

  lemma NextFits(o: Owner, pc: Pc, v: Verdict)
    requires o.Fits(pc)
    ensures o.Fits(After(pc, v))
  {
  }

  /** One of the volume's paths denotes itself, or its staging directory if it is a mounted target. */
  lemma ResolveRoot(o: Owner, w: World, r: Path)
    requires o.Tidy(w) && r in o.Roots()
    ensures Resolve(w.mounts, r) == if r in w.mounts then o.Staging() else r
    ensures Resolve(w.mounts, r) in o.Roots()
    ensures r in w.mounts ==> r in o.vol.targets
  {
    forall j | 0 <= j < |r|
      ensures r[..j] !in w.mounts
    {
      var m := r[..j];
      assert m <= r && m != r;
    }
    assert r <= r;
    ResolveAt(w.mounts, r, |r|);
  }

  lemma SliceKeeps(o: Owner, w: World, r: Path, q: Path)
    requires r in o.Roots() && q in w.tree && (r <= q || (q <= r && w.tree[q].File?))
    ensures q in o.Slice(w).tree && o.Slice(w).tree[q] == w.tree[q]
  {
    if r <= q {
      assert o.Mine(q);
    } else {
      assert o.Above(q);
    }
  }

  /** The slice shows all there is at, below and in the way of one of the volume's paths. */
  lemma SliceSees(o: Owner, w: World, r: Path)
    requires r in o.Roots()
    ensures Below(o.Slice(w).tree, r) == Below(w.tree, r)
    ensures Blocked(o.Slice(w).tree, r) <==> Blocked(w.tree, r)
    ensures r in o.Slice(w).tree <==> r in w.tree
  {
    var s := o.Slice(w);
    forall q | q in w.tree && (r <= q || (q <= r && w.tree[q].File?))
      ensures q in s.tree && s.tree[q] == w.tree[q]
    {
      SliceKeeps(o, w, r, q);
    }
    assert r <= r;
    SliceWithin(o, w);
  }

  lemma SliceWithin(o: Owner, w: World)
    ensures forall q :: q in o.Slice(w).tree ==> q in w.tree && o.Slice(w).tree[q] == w.tree[q]
  {
  }

  lemma SliceTidy(o: Owner, w: World)
    requires o.Tidy(w)
    ensures o.Tidy(o.Slice(w))
  {
  }
}
