/** What every step of every conforming run of calls for one volume keeps true of the node. */
module Lifecycle {
  import opened FileSystem
  import opened Isolation
  import opened Node
  import opened NodeSteps
  import opened Paths
  import opened Volumes

  /**
   * The order the caller keeps to: one call at a time, Stage before Publish before Unpublish before
   * Unstage. It may make the staging directory of a persistent volume whenever no call is in flight.
   */
  ghost predicate Conforms(o: Owner, l: Ledger, e: Event) {
    match e
    case Start(call) => l.pc.None? && o.Suits(call) && InOrder(o, l, call)
    case Prepare(_) => l.pc.None? && !o.Ephemeral()
    case Step(_) => true
    case Crash => true
  }

  ghost predicate InOrder(o: Owner, l: Ledger, call: Call) {
    match call
    case StageVolume(_, _, _, _, _) => true
    case PublishVolume(_, _, _, _, _, _, _) => o.Ephemeral() || l.ready
    case UnpublishVolume(_, _) => true
    case UnstageVolume(_, _) => l.live == {}
  }

  /** The staging directory, if it is there, is a directory and holds nothing but bottle entries. */
  ghost predicate StagedPart(o: Owner, tree: Tree) {
    forall q :: q in tree && o.Staging() <= q ==>
      && o.Staging() in tree && tree[o.Staging()].Dir?
      && (q != o.Staging() ==> q[|o.Staging()|..] in o.Contents() && tree[q] == o.Contents()[q[|o.Staging()|..]])
  }

  /** Nothing is staged: no staging directory, or for a persistent volume an empty one. */
  ghost predicate Unstaged(o: Owner, tree: Tree) {
    forall q :: q in tree && o.Staging() <= q ==> !o.Ephemeral() && q == o.Staging()
  }

  ghost predicate NoneBelow(tree: Tree, r: Path) {
    forall q :: q in tree ==> !(r <= q)
  }

  /** What holds between the steps of a call. */
  ghost predicate Midway(o: Owner, w: World, l: Ledger, pc: Pc) {
    match pc
    case Resolving(_, _, next) => l.held && Aimed(l, next)
    case Pulling(_, wanted, next) => l.held && Aimed(l, next) && wanted in o.cfg.catalog
    case Notifying(_, next) => o.Complete(w.tree) && Aimed(l, next)
    case Checking(_, t, _) => t in l.live && o.Complete(w.tree)
    case Making(_, t, _) => t in l.live && o.Complete(w.tree) && t !in w.mounts
    case Mounting(_, t, _) => t in l.live && o.Complete(w.tree) && t !in w.mounts
    case Probing(t, _) => t !in l.shown
    case Unmounting(t, _) => t !in l.shown && t in w.mounts
    case Clearing(t, _) => t !in w.mounts
    case Statting(t, _) => t !in w.mounts && NoneBelow(w.tree, t)
    case Purging(t, _) => t !in w.mounts && NoneBelow(w.tree, t) && o.Ephemeral()
    case Unstaging(_) => l.live == {} && !l.ready
    case Done(_) => true
  }

  ghost predicate Aimed(l: Ledger, next: Next) {
    next.ThenMount? ==> next.target in l.live
  }

  /** What a mounted target carries: the mount asked for, or that mount without its options. */
  ghost function Carried(o: Owner, l: Ledger, t: Path): Mount {
    if t in l.bare then o.Unfinished() else o.Right(t)
  }

  /** A mounted target was asked for, is mounted once, and shows the complete bottle. */
  ghost predicate Backed(o: Owner, w: World, l: Ledger) {
    forall t :: t in w.mounts && t in o.vol.targets ==>
      t in l.live && w.mounts[t] == [Carried(o, l, t)] && o.Complete(w.tree)
  }

  /** A target answered as published is mounted, and a bare mount is one. */
  ghost predicate Standing(o: Owner, w: World, l: Ledger) {
    l.shown + l.bare <= o.vol.targets && forall t :: t in l.shown || t in l.bare ==> t in w.mounts
  }

  ghost predicate Steady(o: Owner, w: World, l: Ledger) {
    && Backed(o, w, l) && Standing(o, w, l)
    && StagedPart(o, w.tree)
    && (!l.held ==> Unstaged(o, w.tree))
    && (forall t :: t in o.vol.targets && t !in l.live ==> NoneBelow(w.tree, t))
    && (!o.Ephemeral() ==> NoneBelow(w.tree, o.shelter))
    && (l.ready ==> !o.Ephemeral() && o.Complete(w.tree))
  }

  ghost predicate Safe(o: Owner, w: World, l: Ledger) {
    Steady(o, w, l) && (l.pc.Some? ==> Midway(o, w, l, l.pc.value))
  }

  /** Among the volume's paths, the only directory made on the way to one of them is that path itself. */
  lemma DirsAmongOwn(o: Owner, r: Path, q: Path)
    requires o.Layout() && r in o.Roots() && o.Mine(q) && (q <= r || q <= o.cfg.cacheDir)
    ensures q == r
  {
    CachePaths(o, q);
    var a :| a in o.Roots() && a <= q;
    PrefixTransitive(a, q, r);
    assert a == r || Apart(a, r);
  }

  /** What a pull into the staging directory does to the volume's own paths. */
  ghost predicate Pulled(o: Owner, e: Effect, ok: bool) {
    && e.kill == {} && e.mnt == map[]
    && (ok ==> o.Staging() in e.dirs)
    && forall q :: o.Mine(q) ==>
        && (q in e.put ==> o.Staging() <= q && q[|o.Staging()|..] in o.Contents()
                           && e.put[q] == o.Contents()[q[|o.Staging()|..]] && o.Staging() in e.dirs)
        && (ok && o.Staging() <= q && q[|o.Staging()|..] in o.Contents() ==> q in e.put)
        && (q in e.dirs ==> q == o.Staging())
  }

  lemma PullIsPulled(o: Owner, w: World, c: Choice)
    requires o.Layout() && o.Tidy(w)
    ensures var (e, ok) := Pull(w, o.Staging(), o.cfg.cacheDir, o.Contents(), c); Pulled(o, e, ok)
  {
    var (e, ok) := Pull(w, o.Staging(), o.cfg.cacheDir, o.Contents(), c);
    var s := o.Staging();
    ResolveRoot(o, w, s);
    forall q | o.Mine(q)
      ensures q in e.put ==> s <= q && q[|s|..] in o.Contents() && e.put[q] == o.Contents()[q[|s|..]] && s in e.dirs
      ensures ok && s <= q && q[|s|..] in o.Contents() ==> q in e.put
      ensures q in e.dirs ==> q == s
    {
      CachePaths(o, q);
      PullAt(w, s, o.cfg.cacheDir, o.Contents(), c, q);
      PullWrites(w, s, o.cfg.cacheDir, o.Contents(), c, q);
      if q in e.dirs {
        DirsAmongOwn(o, s, q);
      }
    }
    assert s <= s && o.Mine(s);
    CachePaths(o, s);
    PullAt(w, s, o.cfg.cacheDir, o.Contents(), c, s);
    PullWrites(w, s, o.cfg.cacheDir, o.Contents(), c, s);
  }

  lemma MountsStay(w: World, e: Effect)
    requires e.mnt == map[]
    ensures Do(w, e).mounts == w.mounts
  {
  }

  /** A pull only adds bottle entries; a successful one, or any into a complete directory, leaves it complete. */
  lemma PullKeeps(o: Owner, w: World, c: Choice)
    requires o.Layout() && o.Tidy(w) && StagedPart(o, w.tree) && Wanted(o.vol.context) in o.cfg.catalog
    ensures var (e, ok) := Pull(w, o.Staging(), o.cfg.cacheDir, o.Contents(), c);
      var n := Do(w, e);
      && n.mounts == w.mounts
      && StagedPart(o, n.tree)
      && (o.Complete(w.tree) || ok ==> o.Complete(n.tree))
      && (forall r :: r in o.Roots() && r != o.Staging() && NoneBelow(w.tree, r) ==> NoneBelow(n.tree, r))
  {
    var (e, ok) := Pull(w, o.Staging(), o.cfg.cacheDir, o.Contents(), c);
    var n := Do(w, e);
    PullIsPulled(o, w, c);
    MountsStay(w, e);
    PullKeepsStaged(o, w, e);
    PullKeepsComplete(o, w, e, ok);
    forall r | r in o.Roots() && r != o.Staging() && NoneBelow(w.tree, r)
      ensures NoneBelow(n.tree, r)
    {
      PullKeepsNone(o, w, e, ok, r);
    }
  }

  lemma PullKeepsNone(o: Owner, w: World, e: Effect, ok: bool, r: Path)
    requires o.Layout() && Pulled(o, e, ok) && r in o.Roots() && r != o.Staging() && NoneBelow(w.tree, r)
    ensures NoneBelow(Do(w, e).tree, r)
  {
    forall q | q in Do(w, e).tree
      ensures !(r <= q)
    {
      if r <= q {
        assert o.Mine(q) && Apart(r, o.Staging());
        if o.Staging() <= q {
          PrefixLinear(r, o.Staging(), q);
        }
      }
    }
  }

  lemma PullKeepsStaged(o: Owner, w: World, e: Effect)
    requires o.Layout() && StagedPart(o, w.tree) && Wanted(o.vol.context) in o.cfg.catalog && Pulled(o, e, false)
    ensures StagedPart(o, Do(w, e).tree)
  {
    var n := Do(w, e).tree;
    var s := o.Staging();
    PullKeepsRoot(o, w, e);
    forall q | q in n && s <= q
      ensures s in n && (q != s ==> q[|s|..] in o.Contents() && n[q] == o.Contents()[q[|s|..]])
    {
      assert s in o.Roots() && o.Mine(q);
    }
  }

  lemma PullKeepsRoot(o: Owner, w: World, e: Effect)
    requires o.Layout() && StagedPart(o, w.tree) && Wanted(o.vol.context) in o.cfg.catalog && Pulled(o, e, false)
    ensures o.Staging() in Do(w, e).tree ==> Do(w, e).tree[o.Staging()].Dir?
  {
    var s := o.Staging();
    assert s in o.Roots() && s <= s;
    assert o.Mine(s) && s[|s|..] == [];
  }

  lemma PullKeepsComplete(o: Owner, w: World, e: Effect, ok: bool)
    requires o.Layout() && StagedPart(o, Do(w, e).tree) && Wanted(o.vol.context) in o.cfg.catalog && Pulled(o, e, ok)
    ensures o.Complete(w.tree) || ok ==> o.Complete(Do(w, e).tree)
  {
    var n := Do(w, e).tree;
    var s := o.Staging();
    if o.Complete(w.tree) || ok {
      forall r | r in o.Contents()
        ensures s + r in n && n[s + r] == o.Contents()[r]
      {
        var q := s + r;
        assert s <= q && q[|s|..] == r && s in o.Roots() && o.Mine(q);
      }
      assert s + [] == s && s[|s|..] == [];
    }
  }

  /** What a removal at one of the volume's paths, not mounted, does. */
  lemma RemoveKeeps(o: Owner, w: World, r: Path, c: Choice)
    requires o.Layout() && o.Tidy(w) && r in o.Roots() && r !in w.mounts
    ensures var (e, outcome) := RemoveAll(w, r, c);
      var n := Do(w, e);
      && n.mounts == w.mounts
      && (forall q :: q in n.tree ==> q in w.tree && n.tree[q] == w.tree[q])
      && (forall q :: q in w.tree && !(r <= q) ==> q in n.tree)
      && (!outcome.Failure? ==> NoneBelow(n.tree, r))
      && (r in w.tree && r !in n.tree ==> NoneBelow(n.tree, r))
  {
    ResolveRoot(o, w, r);
    var (e, outcome) := RemoveAll(w, r, c);
    var n := Do(w, e);
    assert n.mounts == w.mounts;
    assert e.kill <= Below(w.tree, r);
    if r in w.tree && r !in n.tree && outcome.Failure? {
      assert r in e.kill;
      var d :| d in c.part && r + d <= r;
      assert d == [] && r + d == r;
    }
  }

  /** A removal elsewhere among the volume's paths leaves the staging directory as it is. */
  lemma RemoveKeepsStaging(o: Owner, w: World, n: World, r: Path)
    requires o.Layout() && r in o.Roots() && r != o.Staging()
    requires forall q :: q in n.tree ==> q in w.tree && n.tree[q] == w.tree[q]
    requires forall q :: q in w.tree && !(r <= q) ==> q in n.tree
    ensures StagedPart(o, w.tree) ==> StagedPart(o, n.tree)
    ensures o.Complete(w.tree) ==> o.Complete(n.tree)
    ensures Unstaged(o, w.tree) ==> Unstaged(o, n.tree)
  {
    var s := o.Staging();
    assert Apart(r, s);
    forall q | q in w.tree && s <= q
      ensures !(r <= q)
    {
      if r <= q {
        PrefixLinear(r, s, q);
      }
    }
  }

  /** A change that loses nothing staged and adds nothing where nothing was asked for. */
  ghost predicate Gentle(o: Owner, w: World, n: World) {
    && n.mounts == w.mounts && StagedPart(o, n.tree)
    && (o.Complete(w.tree) ==> o.Complete(n.tree))
    && (forall t :: t in o.vol.targets && NoneBelow(w.tree, t) ==> NoneBelow(n.tree, t))
    && (!o.Ephemeral() && NoneBelow(w.tree, o.shelter) ==> NoneBelow(n.tree, o.shelter))
  }

  lemma GentleIsSteady(o: Owner, w: World, n: World, l: Ledger)
    requires Steady(o, w, l) && Gentle(o, w, n) && (l.held || Unstaged(o, n.tree))
    ensures Steady(o, n, l)
  {
  }

  /** Being steady is a matter of what the caller knows and which mounts are bare. */
  lemma SteadyByKnowledge(o: Owner, w: World, l: Ledger, n: Ledger)
    requires Steady(o, w, l)
    requires n.live == l.live && n.shown == l.shown && n.ready == l.ready && n.held == l.held && n.bare == l.bare
    ensures Steady(o, w, n)
  {
  }

  /** The premises of one step of a call in flight. */
  ghost predicate Ready(o: Owner, w: World, l: Ledger) {
    o.Layout() && Proper(o, w, l) && Safe(o, w, l) && l.pc.Some?
  }

  ghost predicate SafeAfter(o: Owner, w: World, l: Ledger, c: Choice)
    requires l.pc.Some?
  {
    Safe(o, Do(w, EffectOf(o.cfg, w, l.pc.value, c)), Proceed(o, w, l, c))
  }

  lemma SafeResolving(o: Owner, w: World, l: Ledger, c: Choice)
    requires Ready(o, w, l) && l.pc.value.Resolving?
    ensures SafeAfter(o, w, l, c)
  {
    DoNothing(w);
    ResolvingEnds(o, w, l, c, c.outcome.Success? && l.pc.value.wanted in o.cfg.catalog);
  }

  lemma ResolvingEnds(o: Owner, w: World, l: Ledger, c: Choice, ok: bool)
    requires Ready(o, w, l) && l.pc.value.Resolving? && (ok ==> l.pc.value.wanted in o.cfg.catalog)
    ensures Safe(o, w, Settle(o, l, c, After(l.pc.value, Verdict(ok, Unknown)), NOTHING))
  {
  }

  lemma SafeNotifying(o: Owner, w: World, l: Ledger, c: Choice)
    requires Ready(o, w, l) && l.pc.value.Notifying?
    ensures SafeAfter(o, w, l, c)
  {
    DoNothing(w);
    NotifyingEnds(o, w, l, c, c.outcome.Success?);
  }

  lemma NotifyingEnds(o: Owner, w: World, l: Ledger, c: Choice, ok: bool)
    requires Ready(o, w, l) && l.pc.value.Notifying?
    ensures Safe(o, w, Settle(o, l, c, After(l.pc.value, Verdict(ok, Unknown)), NOTHING))
  {
  }

  lemma PullIsGentle(o: Owner, w: World, c: Choice)
    requires o.Layout() && o.Tidy(w) && StagedPart(o, w.tree) && Wanted(o.vol.context) in o.cfg.catalog
    ensures Gentle(o, w, Do(w, Pull(w, o.Staging(), o.cfg.cacheDir, o.Contents(), c).0))
  {
    PullKeeps(o, w, c);
  }

  lemma SafePulling(o: Owner, w: World, l: Ledger, c: Choice)
    requires Ready(o, w, l) && l.pc.value.Pulling?
    ensures SafeAfter(o, w, l, c)
  {
    var (e, ok) := Pull(w, o.Staging(), o.cfg.cacheDir, o.Contents(), c);
    var n := Do(w, e);
    PullIsGentle(o, w, c);
    PullKeeps(o, w, c);
    GentleIsSteady(o, w, n, l);
    PullingEnds(o, n, l, c, ok, e);
  }

  lemma PullingEnds(o: Owner, n: World, l: Ledger, c: Choice, ok: bool, e: Effect)
    requires l.pc.Some? && l.pc.value.Pulling? && o.Fits(l.pc.value)
    requires Steady(o, n, l) && l.held && Aimed(l, l.pc.value.next) && (ok ==> o.Complete(n.tree))
    ensures Safe(o, n, Settle(o, l, c, After(l.pc.value, Verdict(ok, Unknown)), e))
  {
  }

  lemma SafeChecking(o: Owner, w: World, l: Ledger, c: Choice)
    requires Ready(o, w, l) && l.pc.value.Checking?
    ensures SafeAfter(o, w, l, c)
  {
    DoNothing(w);
    var t := l.pc.value.target;
    CheckingEnds(o, w, l, c, VerdictOf(o.cfg, w, l.pc.value, c));
  }

  lemma CheckingEnds(o: Owner, w: World, l: Ledger, c: Choice, v: Verdict)
    requires Ready(o, w, l) && l.pc.value.Checking?
    requires v.found.Absent? || v.found.Plain? ==> l.pc.value.target !in w.mounts
    requires v.found.Mounted? ==> l.pc.value.target in w.mounts
    ensures Safe(o, w, Settle(o, l, c, After(l.pc.value, v), NOTHING))
  {
    var l' := Settle(o, l, c, After(l.pc.value, v), NOTHING);
    if v.found.Mounted? {
      ShownIsSteady(o, w, l, l.pc.value.target);
      SteadyByKnowledge(o, w, l.(shown := l.shown + {l.pc.value.target}), l');
    } else {
      SteadyByKnowledge(o, w, l, l');
    }
  }

  lemma ShownIsSteady(o: Owner, w: World, l: Ledger, t: Path)
    requires Steady(o, w, l) && t in o.vol.targets && t in w.mounts
    ensures Steady(o, w, l.(shown := l.shown + {t}))
  {
  }

  lemma SafeProbing(o: Owner, w: World, l: Ledger, c: Choice)
    requires Ready(o, w, l) && l.pc.value.Probing?
    ensures SafeAfter(o, w, l, c)
  {
    DoNothing(w);
    ProbingEnds(o, w, l, c, VerdictOf(o.cfg, w, l.pc.value, c));
  }

  lemma ProbingEnds(o: Owner, w: World, l: Ledger, c: Choice, v: Verdict)
    requires Ready(o, w, l) && l.pc.value.Probing?
    requires v.found.Absent? || v.found.Plain? ==> l.pc.value.target !in w.mounts
    requires v.found.Mounted? ==> l.pc.value.target in w.mounts
    ensures Safe(o, w, Settle(o, l, c, After(l.pc.value, v), NOTHING))
  {
  }

  lemma SafeStatting(o: Owner, w: World, l: Ledger, c: Choice)
    requires Ready(o, w, l) && l.pc.value.Statting?
    ensures SafeAfter(o, w, l, c)
  {
    DoNothing(w);
    ResolveRoot(o, w, o.shelter);
    var ok := c.outcome.Success? && o.shelter in w.tree;
    assert VerdictOf(o.cfg, w, l.pc.value, c) == Verdict(ok, Unknown);
    assert o.shelter <= o.shelter;
    StattingEnds(o, w, l, c, ok);
  }

  lemma StattingEnds(o: Owner, w: World, l: Ledger, c: Choice, ok: bool)
    requires Ready(o, w, l) && l.pc.value.Statting?
    requires ok ==> o.Ephemeral()
    requires !ok ==> !c.outcome.Success? || o.shelter !in w.tree
    ensures Safe(o, w, Settle(o, l, c, After(l.pc.value, Verdict(ok, Unknown)), NOTHING))
  {
  }

  lemma MkdirIsGentle(o: Owner, w: World, t: Path, c: Choice)
    requires o.Layout() && o.Tidy(w) && t in o.vol.targets && t !in w.mounts
    requires StagedPart(o, w.tree)
    ensures var n := Do(w, MkdirAll(w, t, c).0);
      && n.mounts == w.mounts && StagedPart(o, n.tree) && (o.Complete(w.tree) ==> o.Complete(n.tree))
      && (Unstaged(o, w.tree) ==> Unstaged(o, n.tree))
      && (forall r :: r in o.Roots() && r != t && NoneBelow(w.tree, r) ==> NoneBelow(n.tree, r))
  {
    var e := MkdirAll(w, t, c).0;
    var n := Do(w, e);
    ResolveRoot(o, w, t);
    assert n.mounts == w.mounts;
    forall q | q in n.tree && q !in w.tree && o.Mine(q)
      ensures q == t
    {
      DirsAmongOwn(o, t, q);
    }
    forall r, q | r in o.Roots() && r != t && q in n.tree && r <= q
      ensures q in w.tree
    {
      assert o.Mine(q) && Apart(r, t);
    }
  }

  lemma SafeMaking(o: Owner, w: World, l: Ledger, c: Choice)
    requires Ready(o, w, l) && l.pc.value.Making?
    ensures SafeAfter(o, w, l, c)
  {
    var (e, ok) := MkdirAll(w, l.pc.value.target, c);
    MkdirIsGentle(o, w, l.pc.value.target, c);
    MakingIsSteady(o, w, Do(w, e), l);
    MakingEnds(o, Do(w, e), l, c, ok, e);
  }

  lemma MakingIsSteady(o: Owner, w: World, n: World, l: Ledger)
    requires Ready(o, w, l) && l.pc.value.Making?
    requires n.mounts == w.mounts && StagedPart(o, n.tree) && (o.Complete(w.tree) ==> o.Complete(n.tree))
    requires Unstaged(o, w.tree) ==> Unstaged(o, n.tree)
    requires forall r :: r in o.Roots() && r != l.pc.value.target && NoneBelow(w.tree, r) ==> NoneBelow(n.tree, r)
    ensures Steady(o, n, l)
  {
  }

  lemma MakingEnds(o: Owner, n: World, l: Ledger, c: Choice, ok: bool, e: Effect)
    requires l.pc.Some? && l.pc.value.Making? && Steady(o, n, l) && Midway(o, n, l, l.pc.value)
    ensures Safe(o, n, Settle(o, l, c, After(l.pc.value, Verdict(ok, Unknown)), e))
  {
    SteadyByKnowledge(o, n, l, Settle(o, l, c, After(l.pc.value, Verdict(ok, Unknown)), e));
  }

  lemma SetStack(w: World, t: Path, stack: seq<Mount>)
    requires stack != []
    ensures Do(w, NOTHING.(mnt := map[t := stack])).mounts == w.mounts[t := stack]
    ensures Do(w, NOTHING.(mnt := map[t := stack])).tree == w.tree
  {
    var n := Do(w, NOTHING.(mnt := map[t := stack]));
    assert n.tree == w.tree;
    assert n.mounts.Keys == w.mounts.Keys + {t};
  }

  lemma MountChanges(o: Owner, w: World, t: Path, c: Choice)
    requires o.Layout() && o.Tidy(w) && t in o.vol.targets && t !in w.mounts
    ensures var (e, ok) := BindMount(w, o.Staging(), t, Options(t in o.vol.readOnly), c);
      && Do(w, e).tree == w.tree && e.dirs == {} && (ok ==> e.mnt != map[])
      && Do(w, e).mounts == if e.mnt == map[] then w.mounts else w.mounts[t := [if ok then o.Right(t) else o.Unfinished()]]
  {
    ResolveRoot(o, w, o.Staging());
    var (e, ok) := BindMount(w, o.Staging(), t, Options(t in o.vol.readOnly), c);
    if e.mnt == map[] {
      DoNothing(w);
    } else {
      var m := if ok then o.Right(t) else o.Unfinished();
      assert [] + [m] == [m];
      assert t in e.mnt;
      SetStack(w, t, [m]);
    }
  }

  lemma SafeMounting(o: Owner, w: World, l: Ledger, c: Choice)
    requires Ready(o, w, l) && l.pc.value.Mounting?
    ensures SafeAfter(o, w, l, c)
  {
    var t := l.pc.value.target;
    assert l.pc.value.readOnly == (t in o.vol.readOnly);
    var (e, ok) := BindMount(w, o.Staging(), t, Options(t in o.vol.readOnly), c);
    MountChanges(o, w, t, c);
    MountingEnds(o, w, Do(w, e), l, c, ok, e);
  }

  lemma RightMountIsSteady(o: Owner, w: World, n: World, l: Ledger)
    requires Ready(o, w, l) && l.pc.value.Mounting? && n.tree == w.tree
    requires n.mounts == w.mounts[l.pc.value.target := [o.Right(l.pc.value.target)]]
    ensures Steady(o, n, l.(shown := l.shown + {l.pc.value.target}))
  {
  }

  lemma BareMountIsSteady(o: Owner, w: World, n: World, l: Ledger)
    requires Ready(o, w, l) && l.pc.value.Mounting? && n.tree == w.tree
    requires n.mounts == w.mounts[l.pc.value.target := [o.Unfinished()]]
    ensures Steady(o, n, l.(bare := l.bare + {l.pc.value.target}))
  {
  }

  lemma MountingEnds(o: Owner, w: World, n: World, l: Ledger, c: Choice, ok: bool, e: Effect)
    requires Ready(o, w, l) && l.pc.value.Mounting? && n.tree == w.tree && (ok ==> e.mnt != map[])
    requires var t := l.pc.value.target;
      n.mounts == if e.mnt == map[] then w.mounts else w.mounts[t := [if ok then o.Right(t) else o.Unfinished()]]
    ensures Safe(o, n, Settle(o, l, c, After(l.pc.value, Verdict(ok, Unknown)), e))
  {
    var t, l' := l.pc.value.target, Settle(o, l, c, After(l.pc.value, Verdict(ok, Unknown)), e);
    if ok {
      RightMountIsSteady(o, w, n, l);
      SteadyByKnowledge(o, n, l.(shown := l.shown + {t}), l');
    } else if e.mnt != map[] {
      BareMountIsSteady(o, w, n, l);
      SteadyByKnowledge(o, n, l.(bare := l.bare + {t}), l');
    } else {
      SteadyByKnowledge(o, n, l, l');
    }
  }

  lemma UnmountChanges(w: World, t: Path, c: Choice)
    requires t in w.mounts && |w.mounts[t]| == 1
    ensures var (e, ok) := Unmount(w, t, c);
      && Do(w, e).tree == w.tree && e.dirs == {} && (ok <==> e.mnt != map[])
      && Do(w, e).mounts == if ok then w.mounts - {t} else w.mounts
  {
    var (e, ok) := Unmount(w, t, c);
    assert Do(w, e).tree == w.tree;
    assert Do(w, e).mounts == if ok then w.mounts - {t} else w.mounts;
    assert ok ==> t in e.mnt;
  }

  lemma SafeUnmounting(o: Owner, w: World, l: Ledger, c: Choice)
    requires Ready(o, w, l) && l.pc.value.Unmounting?
    ensures SafeAfter(o, w, l, c)
  {
    var (e, ok) := Unmount(w, l.pc.value.target, c);
    UnmountChanges(w, l.pc.value.target, c);
    UnmountingEnds(o, w, Do(w, e), l, c, ok, e);
  }

  lemma UnmountingEnds(o: Owner, w: World, n: World, l: Ledger, c: Choice, ok: bool, e: Effect)
    requires Ready(o, w, l) && l.pc.value.Unmounting? && n.tree == w.tree && (ok <==> e.mnt != map[])
    requires n.mounts == if ok then w.mounts - {l.pc.value.target} else w.mounts
    ensures Safe(o, n, Settle(o, l, c, After(l.pc.value, Verdict(ok, Unknown)), e))
  {
  }

  lemma SafeClearing(o: Owner, w: World, l: Ledger, c: Choice)
    requires Ready(o, w, l) && l.pc.value.Clearing?
    ensures SafeAfter(o, w, l, c)
  {
    var t := l.pc.value.target;
    var (e, outcome) := RemoveAll(w, t, c);
    RemoveKeeps(o, w, t, c);
    RemoveKeepsStaging(o, w, Do(w, e), t);
    ClearingIsSteady(o, w, Do(w, e), l);
    ClearingEnds(o, Do(w, e), l, c, !outcome.Failure?, e);
  }

  lemma ClearingIsSteady(o: Owner, w: World, n: World, l: Ledger)
    requires Steady(o, w, l) && n.mounts == w.mounts && forall q :: q in n.tree ==> q in w.tree
    requires StagedPart(o, n.tree) && (o.Complete(w.tree) ==> o.Complete(n.tree))
    requires Unstaged(o, w.tree) ==> Unstaged(o, n.tree)
    ensures Steady(o, n, l)
  {
  }

  lemma ClearingEnds(o: Owner, n: World, l: Ledger, c: Choice, ok: bool, e: Effect)
    requires l.pc.Some? && l.pc.value.Clearing? && Steady(o, n, l) && Midway(o, n, l, l.pc.value)
    requires ok ==> NoneBelow(n.tree, l.pc.value.target)
    ensures Safe(o, n, Settle(o, l, c, After(l.pc.value, Verdict(ok, Unknown)), e))
  {
    SteadyByKnowledge(o, n, l, Settle(o, l, c, After(l.pc.value, Verdict(ok, Unknown)), e));
  }

  lemma SafePurging(o: Owner, w: World, l: Ledger, c: Choice)
    requires Ready(o, w, l) && (l.pc.value.Purging? || l.pc.value.Unstaging?)
    ensures SafeAfter(o, w, l, c)
  {
    var (e, outcome) := RemoveAll(w, o.Staging(), c);
    var n := Do(w, e);
    RemoveKeeps(o, w, o.Staging(), c);
    PurgingIsSteady(o, w, n, l);
    PurgingEnds(o, n, l, c, !outcome.Failure?, e);
  }

  lemma PurgingIsSteady(o: Owner, w: World, n: World, l: Ledger)
    requires Ready(o, w, l) && (l.pc.value.Purging? || l.pc.value.Unstaging?)
    requires n.mounts == w.mounts
    requires forall q :: q in n.tree ==> q in w.tree && n.tree[q] == w.tree[q]
    requires o.Staging() in w.tree && o.Staging() !in n.tree ==> NoneBelow(n.tree, o.Staging())
    ensures Steady(o, n, l) && Midway(o, n, l, l.pc.value)
  {
    assert o.Staging() <= o.Staging();
  }

  lemma PurgingEnds(o: Owner, n: World, l: Ledger, c: Choice, ok: bool, e: Effect)
    requires l.pc.Some? && (l.pc.value.Purging? || l.pc.value.Unstaging?)
    requires Steady(o, n, l) && Midway(o, n, l, l.pc.value)
    requires ok ==> NoneBelow(n.tree, o.Staging())
    ensures Safe(o, n, Settle(o, l, c, After(l.pc.value, Verdict(ok, Unknown)), e))
  {
  }

  lemma StepIsSafe(o: Owner, w: World, l: Ledger, c: Choice)
    requires Ready(o, w, l)
    ensures SafeAfter(o, w, l, c)
  {
    match l.pc.value {
      case Resolving(_, _, _) => SafeResolving(o, w, l, c);
      case Pulling(_, _, _) => SafePulling(o, w, l, c);
      case Notifying(_, _) => SafeNotifying(o, w, l, c);
      case Checking(_, _, _) => SafeChecking(o, w, l, c);
      case Making(_, _, _) => SafeMaking(o, w, l, c);
      case Mounting(_, _, _) => SafeMounting(o, w, l, c);
      case Probing(_, _) => SafeProbing(o, w, l, c);
      case Unmounting(_, _) => SafeUnmounting(o, w, l, c);
      case Clearing(_, _) => SafeClearing(o, w, l, c);
      case Statting(_, _) => SafeStatting(o, w, l, c);
      case Purging(_, _) => SafePurging(o, w, l, c);
      case Unstaging(_) => SafePurging(o, w, l, c);
    }
  }

  lemma AttemptIsSteady(o: Owner, w: World, l: Ledger, call: Call)
    requires Steady(o, w, l) && o.Suits(call) && InOrder(o, l, call)
    ensures Steady(o, w, Attempt(o, l, call))
  {
  }

  lemma BeginIsMidway(o: Owner, w: World, l: Ledger, call: Call)
    requires o.Layout() && Steady(o, w, l) && o.Suits(call) && InOrder(o, l, call) && !Begin(o.cfg, call).Done?
    ensures Midway(o, w, Attempt(o, l, call), Begin(o.cfg, call))
  {
  }

  lemma StartIsSafe(o: Owner, w: World, l: Ledger, call: Call)
    requires o.Layout() && Proper(o, w, l) && Safe(o, w, l) && Conforms(o, l, Start(call))
    ensures Safe(o, w, Enter(o, l, call))
  {
    AttemptIsSteady(o, w, l, call);
    SteadyByKnowledge(o, w, Attempt(o, l, call), Enter(o, l, call));
    if !Begin(o.cfg, call).Done? {
      BeginIsMidway(o, w, l, call);
    }
  }

  /** Making the staging directory of a persistent volume stages nothing and loses nothing. */
  lemma PreparationIsGentle(o: Owner, w: World, c: Choice)
    requires o.Layout() && o.Tidy(w) && StagedPart(o, w.tree)
    ensures Gentle(o, w, Do(w, Preparation(o, w, c)))
    ensures Unstaged(o, w.tree) ==> Unstaged(o, Do(w, Preparation(o, w, c)).tree)
    ensures forall q :: q in Do(w, Preparation(o, w, c)).tree && o.Mine(q) ==> q in w.tree || q == o.Staging()
  {
    var e := Preparation(o, w, c);
    var n := Do(w, e);
    ResolveRoot(o, w, o.Staging());
    MountsStay(w, e);
    forall q | q in n.tree && o.Mine(q) && q !in w.tree
      ensures q == o.Staging() && !o.Ephemeral()
    {
      DirsAmongOwn(o, o.Staging(), q);
    }
    OnlyRootIsNew(o, w, n);
  }

  lemma OnlyRootIsNew(o: Owner, w: World, n: World)
    requires o.Layout() && StagedPart(o, w.tree) && n.mounts == w.mounts
    requires forall q :: q in w.tree ==> q in n.tree && n.tree[q] == w.tree[q]
    requires forall q :: q in n.tree && q !in w.tree && o.Mine(q) ==> q == o.Staging() && n.tree[q].Dir? && !o.Ephemeral()
    ensures Gentle(o, w, n)
    ensures Unstaged(o, w.tree) ==> Unstaged(o, n.tree)
  {
    forall r | r in o.Roots() && r != o.Staging() && NoneBelow(w.tree, r)
      ensures NoneBelow(n.tree, r)
    {
      assert Apart(r, o.Staging());
      assert forall q :: r <= q ==> o.Mine(q);
    }
    OnlyRootIsStaged(o, w, n);
  }

  lemma OnlyRootIsStaged(o: Owner, w: World, n: World)
    requires StagedPart(o, w.tree)
    requires forall q :: q in w.tree ==> q in n.tree && n.tree[q] == w.tree[q]
    requires forall q :: q in n.tree && q !in w.tree && o.Mine(q) ==> q == o.Staging() && n.tree[q].Dir? && !o.Ephemeral()
    ensures StagedPart(o, n.tree)
    ensures o.Complete(w.tree) ==> o.Complete(n.tree)
    ensures Unstaged(o, w.tree) ==> Unstaged(o, n.tree)
  {
    assert o.Staging() in o.Roots() && o.Staging() <= o.Staging();
    assert forall q :: o.Staging() <= q ==> o.Mine(q);
  }

  lemma PrepareIsSafe(o: Owner, w: World, l: Ledger, c: Choice)
    requires o.Layout() && Proper(o, w, l) && Safe(o, w, l) && l.pc.None?
    ensures Safe(o, Do(w, Preparation(o, w, c)), Note(o, w, l, Prepare(c)))
  {
    var n := Do(w, Preparation(o, w, c));
    PreparationIsGentle(o, w, c);
    GentleIsSteady(o, w, n, l);
    SteadyByKnowledge(o, n, l, Note(o, w, l, Prepare(c)));
  }

  /** Every event of a conforming run keeps the volume safe. */
  lemma EventIsSafe(o: Owner, w: World, l: Ledger, e: Event)
    requires o.Layout() && Proper(o, w, l) && Safe(o, w, l) && Conforms(o, l, e)
    ensures Safe(o, Do(w, Touch(o, w, l, e)), Note(o, w, l, e))
  {
    if e.Step? && l.pc.Some? {
      StepIsSafe(o, w, l, e.choice);
    } else if e.Prepare? {
      PrepareIsSafe(o, w, l, e.choice);
    } else {
      DoNothing(w);
      if e.Start? {
        StartIsSafe(o, w, l, e.call);
      }
    }
  }
}
