/** What holds in every state of every conforming run of the whole node. */
module Safety {
  import opened FileSystem
  import opened Isolation
  import opened Lifecycle
  import opened Node
  import opened NodeSteps
  import opened Paths
  import opened Serial
  import opened Text
  import opened Volumes

  ghost predicate Permitted(site: Site, s: Sys, d: Deed) {
    d.Of? && d.id in site.volumes && d.id in s.books ==> Conforms(site.At(d.id), s.books[d.id], d.event)
  }

  /** The caller keeps to its obligations at every step. */
  ghost predicate ConformingRun(site: Site, s: Sys, ds: seq<Deed>)
    decreases |ds|
  {
    ds == [] || (Permitted(site, s, ds[0]) && ConformingRun(site, Apply(site, s, ds[0]), ds[1..]))
  }

  /** A run can be taken in two parts. */
  lemma {:induction false} ExecConcat(site: Site, s: Sys, a: seq<Deed>, b: seq<Deed>)
    ensures Exec(site, s, a + b) == Exec(site, Exec(site, s, a), b)
    ensures ConformingRun(site, s, a + b) <==> ConformingRun(site, s, a) && ConformingRun(site, Exec(site, s, a), b)
    decreases |a|
  {
    if a == [] {
      assert a + b == b;
    } else {
      assert (a + b)[1..] == a[1..] + b;
      ExecConcat(site, Apply(site, s, a[0]), a[1..], b);
    }
  }

  ghost predicate AllSafe(site: Site, s: Sys) {
    Sound(site, s) && forall id :: id in site.volumes ==> Safe(site.At(id), s.world, s.books[id])
  }

  /**
   * Nothing is mounted on the volumes' targets or above their paths, and nothing stands on them but
   * perhaps empty staging directories of persistent volumes.
   */
  ghost predicate Fresh(site: Site, w: World) {
    forall id, r :: id in site.volumes && r in site.At(id).Roots() ==> Vacant(site.At(id), w, r)
  }

  ghost predicate Vacant(o: Owner, w: World, r: Path) {
    Emptied(o, w.tree, r) && forall m :: m in w.mounts ==> !(m <= r)
  }

  /** Nothing stands at or below a path of the volume, unless the path is a persistent volume's empty staging directory. */
  ghost predicate Emptied(o: Owner, tree: Tree, r: Path) {
    forall q :: q in tree && r <= q ==> q == r && r == o.Staging() && !o.Ephemeral() && tree[q] == Dir
  }

  function Initial(site: Site, w: World): Sys {
    Sys(w, map id | id in site.volumes :: BLANK)
  }

  /** The state after a run from a node on which nothing of the volumes is present. */
  function Reached(site: Site, w: World, ds: seq<Deed>): Sys {
    Exec(site, Initial(site, w), ds)
  }

  /** A run in which the caller keeps to its obligations from the start. */
  ghost predicate Conforming(site: Site, w: World, ds: seq<Deed>) {
    site.Separate() && Fresh(site, w) && ConformingRun(site, Initial(site, w), ds)
  }

  lemma InitialIsSafe(site: Site, w: World)
    requires site.Separate() && Fresh(site, w)
    ensures AllSafe(site, Initial(site, w))
    ensures forall q :: MadeIsThere(Initial(site, w), q)
  {
    forall id | id in site.volumes
      ensures Proper(site.At(id), w, BLANK) && Safe(site.At(id), w, BLANK)
    {
      var o := site.At(id);
      forall r | r in o.Roots()
        ensures Vacant(o, w, r) && r !in w.mounts
        ensures r != o.Staging() ==> NoneBelow(w.tree, r)
      {
        assert r <= r;
      }
      assert o.Staging() in o.Roots() && Emptied(o, w.tree, o.Staging());
    }
  }

  /** Whether a volume is safe shows in its slice. */
  lemma SafeShowsInSlice(o: Owner, a: World, b: World, l: Ledger)
    requires o.Slice(a) == o.Slice(b) && o.Layout() && Proper(o, a, l) && Safe(o, a, l)
    ensures Safe(o, b, l)
  {
    forall q | o.Mine(q)
      ensures q in a.tree <==> q in b.tree
      ensures q in a.tree ==> a.tree[q] == b.tree[q]
    {
      SliceDecides(o, a, b, q);
    }
    forall t | t in o.vol.targets
      ensures t in a.mounts <==> t in b.mounts
      ensures t in a.mounts ==> a.mounts[t] == b.mounts[t]
    {
      SliceDecidesMount(o, a, b, t);
    }
    SafeBySameOwn(o, a, b, l);
  }

  /** Two trees that agree on the volume's own paths. */
  ghost predicate SameOwn(o: Owner, a: Tree, b: Tree) {
    forall q :: o.Mine(q) ==> (q in a <==> q in b) && (q in a ==> a[q] == b[q])
  }

  lemma SameOwnNone(o: Owner, a: Tree, b: Tree, r: Path)
    requires SameOwn(o, a, b) && r in o.Roots()
    ensures NoneBelow(a, r) ==> NoneBelow(b, r)
    ensures r in a <==> r in b
  {
    forall q | r <= q
      ensures q in a <==> q in b
    {
      assert o.Mine(q);
    }
    assert r <= r;
  }

  lemma SameOwnComplete(o: Owner, a: Tree, b: Tree)
    requires SameOwn(o, a, b)
    ensures o.Complete(a) ==> o.Complete(b)
    ensures StagedPart(o, a) ==> StagedPart(o, b)
    ensures Unstaged(o, a) ==> Unstaged(o, b)
  {
    var s := o.Staging();
    SameOwnNone(o, a, b, s);
    forall q | q in b && s <= q
      ensures q in a && a[q] == b[q]
    {
      assert o.Mine(q);
    }
    if o.Complete(a) {
      forall r | r in o.Contents()
        ensures s + r in b && b[s + r] == o.Contents()[r]
      {
        assert s <= s + r && o.Mine(s + r);
      }
    }
  }

  lemma SafeBySameOwn(o: Owner, a: World, b: World, l: Ledger)
    requires o.Layout() && Proper(o, a, l) && Safe(o, a, l) && SameOwn(o, a.tree, b.tree)
    requires forall t :: t in o.vol.targets ==>
      (t in a.mounts <==> t in b.mounts) && (t in a.mounts ==> a.mounts[t] == b.mounts[t])
    ensures Safe(o, b, l)
  {
    SameOwnComplete(o, a.tree, b.tree);
    forall r | r in o.Roots()
      ensures NoneBelow(a.tree, r) ==> NoneBelow(b.tree, r)
      ensures r in a.tree <==> r in b.tree
    {
      SameOwnNone(o, a.tree, b.tree, r);
    }
  }

  /** A permitted deed keeps every volume safe: its own by its own care, the others because it does not show there. */
  lemma DeedIsSafe(site: Site, s: Sys, d: Deed)
    requires site.Separate() && AllSafe(site, s) && Permitted(site, s, d)
    ensures AllSafe(site, Apply(site, s, d))
  {
    ApplySound(site, s, d);
    forall id | id in site.volumes
      ensures Safe(site.At(id), Apply(site, s, d).world, Apply(site, s, d).books[id])
    {
      var o := site.At(id);
      if d.Of? && d.id == id {
        EventIsSafe(o, s.world, s.books[id], d.event);
      } else {
        ApplyView(site, s, d, id);
        SafeShowsInSlice(o, s.world, Apply(site, s, d).world, s.books[id]);
      }
    }
  }

  lemma {:induction false} RunIsSafe(site: Site, s: Sys, ds: seq<Deed>)
    requires site.Separate() && AllSafe(site, s) && ConformingRun(site, s, ds)
    ensures AllSafe(site, Exec(site, s, ds)) && Addressed(site, ds)
    decreases |ds|
  {
    if ds == [] {
    } else {
      DeedIsSafe(site, s, ds[0]);
      RunIsSafe(site, Apply(site, s, ds[0]), ds[1..]);
    }
  }

  lemma ReachedIsSafe(site: Site, w: World, ds: seq<Deed>)
    requires Conforming(site, w, ds)
    ensures AllSafe(site, Reached(site, w, ds)) && Addressed(site, ds)
  {
    InitialIsSafe(site, w);
    RunIsSafe(site, Initial(site, w), ds);
  }

  /** The staging directory shows exactly the bottle. */
  ghost predicate ShowsBottle(tree: Tree, staging: Path, bottle: Bottle) {
    forall r :: (staging + r in tree <==> r in bottle) && (r in bottle ==> tree[staging + r] == bottle[r])
  }

  lemma CompleteShowsBottle(o: Owner, tree: Tree)
    requires o.Complete(tree)
    ensures ShowsBottle(tree, o.Staging(), o.Contents())
  {
    forall r | o.Staging() + r in tree
      ensures r in o.Contents()
    {
      var q := o.Staging() + r;
      assert o.Staging() <= q && q[|o.Staging()|..] == r;
    }
  }

  /**
   * Backed mounts and mount attributes: at every step of every conforming run, crashes included, a
   * mounted target is one the caller asked for and has not yet got unpublished; it carries exactly
   * one mount, of the volume's staging directory; and that directory holds exactly the bottle's
   * content. The options are bind, noexec, and ro exactly when asked, if and only if the mount was
   * not left behind by a Publish that failed between binding and applying them.
   */
  lemma MountsAreBacked(site: Site, w: World, ds: seq<Deed>, id: string, t: Path)
    requires Conforming(site, w, ds)
    requires id in site.volumes && t in site.volumes[id].targets
    requires t in Reached(site, w, ds).world.mounts
    ensures var n := Reached(site, w, ds);
      && id in n.books && t in n.books[id].live
      && |n.world.mounts[t]| == 1 && n.world.mounts[t][0].source == site.At(id).Staging()
      && (n.world.mounts[t][0].options == ["bind", "noexec"] + (if t in site.volumes[id].readOnly then ["ro"] else [])
          <==> t !in n.books[id].bare)
      && (n.world.mounts[t][0].options == ["bind"] <==> t in n.books[id].bare)
      && ShowsBottle(n.world.tree, site.At(id).Staging(), site.At(id).Contents())
  {
    ReachedIsSafe(site, w, ds);
    CompleteShowsBottle(site.At(id), Reached(site, w, ds).world.tree);
    assert |Options(t in site.volumes[id].readOnly)| > |UNFINISHED|;
  }

  /** No mount fails between binding and applying the options. */
  ghost predicate MountWorks(l: Ledger, e: Event) {
    e.Step? && l.pc.Some? && l.pc.value.Mounting? ==> e.choice.outcome.Success? || e.choice.depth == 0
  }

  ghost predicate MountsWork(site: Site, s: Sys, ds: seq<Deed>, id: string)
    decreases |ds|
  {
    ds == [] ||
    (&& (ds[0].Of? && ds[0].id == id && id in s.books ==> MountWorks(s.books[id], ds[0].event))
     && MountsWork(site, Apply(site, s, ds[0]), ds[1..], id))
  }

  /** Then every mount has its options. */
  lemma {:induction false} NoneIsBare(site: Site, s: Sys, ds: seq<Deed>, id: string)
    requires id in site.volumes && id in s.books && s.books[id].bare == {} && MountsWork(site, s, ds, id)
    ensures var n := Exec(site, s, ds);
      id in n.books && n.books[id].bare == {}
    decreases |ds|
  {
    if ds == [] {
    } else {
      if ds[0].Of? && ds[0].id == id {
        NoteNoneIsBare(site.At(id), s.world, s.books[id], ds[0].event);
      }
      NoneIsBare(site, Apply(site, s, ds[0]), ds[1..], id);
    }
  }

  lemma NoteNoneIsBare(o: Owner, w: World, l: Ledger, e: Event)
    requires MountWorks(l, e) && l.bare == {}
    ensures Note(o, w, l, e).bare == {}
  {
  }

  /** Mount attributes: as long as no mount fails half-way, every mount has exactly the options asked for. */
  lemma MountsHaveOptions(site: Site, w: World, ds: seq<Deed>, id: string, t: Path)
    requires Conforming(site, w, ds) && MountsWork(site, Initial(site, w), ds, id)
    requires id in site.volumes && t in site.volumes[id].targets
    requires t in Reached(site, w, ds).world.mounts
    ensures Reached(site, w, ds).world.mounts[t] ==
      [Mount(site.At(id).Staging(), ["bind", "noexec"] + (if t in site.volumes[id].readOnly then ["ro"] else []))]
  {
    InitialIsSafe(site, w);
    NoneIsBare(site, Initial(site, w), ds, id);
    MountsAreBacked(site, w, ds, id, t);
  }

  /** No event starts an Unpublish of the target. */
  predicate NotUnpublished(es: seq<Event>, t: Path) {
    forall e :: e in es && e.Start? && e.call.UnpublishVolume? ==> e.call.targetPath != Some(t)
  }

  /** A target answered as published stays in that state as long as no Unpublish of it starts. */
  lemma {:induction false} ShownLasts(site: Site, s: Sys, ds: seq<Deed>, id: string, t: Path)
    requires id in site.volumes && id in s.books && t in s.books[id].shown && NotUnpublished(Proj(ds, id), t)
    ensures var n := Exec(site, s, ds);
      id in n.books && t in n.books[id].shown
    decreases |ds|
  {
    if ds == [] {
    } else {
      ProjFirst(ds, id);
      if ds[0].Of? && ds[0].id == id {
        NoteKeepsShown(site.At(id), s.world, s.books[id], ds[0].event, t);
      }
      ShownLasts(site, Apply(site, s, ds[0]), ds[1..], id, t);
    }
  }

  lemma NoteKeepsShown(o: Owner, w: World, l: Ledger, e: Event, t: Path)
    requires t in l.shown && NotUnpublished([e], t)
    ensures t in Note(o, w, l, e).shown
  {
    assert [e][0] == e;
    if e.Step? && l.pc.Some? {
      SettleKeepsShown(o, l, e.choice, NextOf(o.cfg, w, l.pc.value, e.choice), EffectOf(o.cfg, w, l.pc.value, e.choice), t);
    }
  }

  lemma SettleKeepsShown(o: Owner, l: Ledger, c: Choice, next: Pc, e: Effect, t: Path)
    requires l.pc.Some? && t in l.shown
    ensures t in Settle(o, l, c, next, e).shown
  {
  }

  /** The next step ends a Publish of the target with the answer OK. */
  ghost predicate AnswersPublish(site: Site, s: Sys, id: string, t: Path, c: Choice) {
    && id in site.volumes && id in s.books && s.books[id].pc.Some?
    && Publishing(s.books[id].pc.value, t) && !s.books[id].pc.value.Done?
    && NextOf(site.cfg, s.world, s.books[id].pc.value, c) == Done(OK)
  }

  lemma AnsweredIsShown(site: Site, s: Sys, id: string, t: Path, c: Choice)
    requires AnswersPublish(site, s, id, t, c)
    ensures var n := Apply(site, s, Of(id, Step(c)));
      id in n.books && t in n.books[id].shown && n.books[id].log == s.books[id].log + [OK]
  {
    SettledIsShown(site.At(id), s.books[id], c, VerdictOf(site.cfg, s.world, s.books[id].pc.value, c),
                   EffectOf(site.cfg, s.world, s.books[id].pc.value, c), t);
  }

  lemma SettledIsShown(o: Owner, l: Ledger, c: Choice, v: Verdict, e: Effect, t: Path)
    requires l.pc.Some? && Publishing(l.pc.value, t) && !l.pc.value.Done? && After(l.pc.value, v) == Done(OK)
    ensures var l' := Settle(o, l, c, Done(OK), e); t in l'.shown && l'.log == l.log + [OK]
  {
  }

  /** In every state of every conforming run a target answered as published and not since unpublished is mounted. */
  lemma ShownIsMounted(site: Site, w: World, ds: seq<Deed>, id: string, t: Path)
    requires Conforming(site, w, ds)
    requires id in site.volumes && id in Reached(site, w, ds).books && t in Reached(site, w, ds).books[id].shown
    ensures t in site.volumes[id].targets && t in Reached(site, w, ds).world.mounts
  {
    ReachedIsSafe(site, w, ds);
    assert Standing(site.At(id), Reached(site, w, ds).world, Reached(site, w, ds).books[id]);
  }

  /**
   * Published until unpublished: take a conforming run in which some step ends a Publish of a target
   * with OK. As long as no Unpublish of that target starts, and whatever else happens (faults, crashes,
   * the pruner, calls for other volumes, calls for other targets of the same volume), the target stays
   * mounted, once, showing the volume's staging directory, which holds exactly the bottle's content;
   * and with the options asked for, if no mount of the volume failed half-way.
   */
  lemma PublishedStaysMounted(site: Site, w: World, a: seq<Deed>, c: Choice, b: seq<Deed>, id: string, t: Path)
    requires Conforming(site, w, a + [Of(id, Step(c))] + b)
    requires AnswersPublish(site, Reached(site, w, a), id, t, c) && NotUnpublished(Proj(b, id), t)
    ensures var n := Reached(site, w, a + [Of(id, Step(c))] + b).world;
      && t in n.mounts && |n.mounts[t]| == 1 && n.mounts[t][0].source == site.At(id).Staging()
      && ShowsBottle(n.tree, site.At(id).Staging(), site.At(id).Contents())
      && (MountsWork(site, Initial(site, w), a + [Of(id, Step(c))] + b, id) ==>
            n.mounts[t] == [site.At(id).Right(t)])
  {
    var s, d := Reached(site, w, a), Of(id, Step(c));
    ExecConcat(site, Initial(site, w), a + [d], b);
    ExecConcat(site, Initial(site, w), a, [d]);
    assert [d][1..] == [];
    AnsweredIsShown(site, s, id, t, c);
    ShownLasts(site, Apply(site, s, d), b, id, t);
    ShownIsMounted(site, w, a + [d] + b, id, t);
    MountsAreBacked(site, w, a + [d] + b, id, t);
    if MountsWork(site, Initial(site, w), a + [d] + b, id) {
      MountsHaveOptions(site, w, a + [d] + b, id, t);
    }
  }

  /** Only three kinds of steps remove anything. */
  lemma StepsThatRemove(cfg: Config, w: World, pc: Pc, c: Choice)
    ensures EffectOf(cfg, w, pc, c).kill != {} ==> pc.Clearing? || pc.Purging? || pc.Unstaging?
  {
  }

  lemma OnlyKillRemoves(w: World, e: Effect, q: Path)
    ensures q in w.tree && q !in Do(w, e).tree ==> q in e.kill
  {
  }

  lemma UnmountedAtPurge(o: Owner, w: World, l: Ledger, t: Path)
    requires Ready(o, w, l) && l.pc.value.Purging? && t in o.vol.targets
    ensures t !in w.mounts
  {
    assert l.pc.value.target == t;
  }

  lemma UnmountedAtUnstage(o: Owner, w: World, l: Ledger, t: Path)
    requires Backed(o, w, l) && l.live == {} && t in o.vol.targets
    ensures t !in w.mounts
  {
  }

  /** A step of a call that removes a staged entry of its volume is the cleanup of an unmounted volume. */
  lemma OwnRemoval(o: Owner, w: World, l: Ledger, c: Choice, q: Path)
    requires Ready(o, w, l)
    requires o.Staging() <= q && q in w.tree && q !in Do(w, EffectOf(o.cfg, w, l.pc.value, c)).tree
    ensures if o.Ephemeral() then l.pc.value.Purging? else l.pc.value.Unstaging?
    ensures forall t :: t in o.vol.targets ==> t !in w.mounts
  {
    OnlyKillRemoves(w, EffectOf(o.cfg, w, l.pc.value, c), q);
    StepsThatRemove(o.cfg, w, l.pc.value, c);
    CleanupIsLast(o, w, l, c, q);
    forall t | t in o.vol.targets
      ensures t !in w.mounts
    {
      if l.pc.value.Purging? {
        UnmountedAtPurge(o, w, l, t);
      } else {
        UnmountedAtUnstage(o, w, l, t);
      }
    }
    PurgingIsEphemeral(o, w, l);
  }

  lemma OwnDeedRemoval(o: Owner, w: World, l: Ledger, e: Event, q: Path)
    requires o.Layout() && Proper(o, w, l) && Safe(o, w, l)
    requires o.Staging() <= q && q in w.tree && q !in Do(w, Touch(o, w, l, e)).tree
    ensures l.pc.Some? && if o.Ephemeral() then l.pc.value.Purging? else l.pc.value.Unstaging?
    ensures forall t :: t in o.vol.targets ==> t !in w.mounts
  {
    OnlyKillRemoves(w, Touch(o, w, l, e), q);
    OwnRemoval(o, w, l, e.choice, q);
  }

  lemma PurgingIsEphemeral(o: Owner, w: World, l: Ledger)
    requires Ready(o, w, l) && (l.pc.value.Purging? || l.pc.value.Unstaging?)
    ensures o.Ephemeral() <==> l.pc.value.Purging?
  {
  }

  lemma CleanupIsLast(o: Owner, w: World, l: Ledger, c: Choice, q: Path)
    requires Ready(o, w, l) && (l.pc.value.Clearing? || l.pc.value.Purging? || l.pc.value.Unstaging?)
    requires o.Staging() <= q && q in w.tree && q !in Do(w, EffectOf(o.cfg, w, l.pc.value, c)).tree
    ensures !l.pc.value.Clearing?
  {
    if l.pc.value.Clearing? {
      ClearingKeepsStaged(o, w, l.pc.value.target, c, q);
    }
  }

  lemma ClearingKeepsStaged(o: Owner, w: World, t: Path, c: Choice, q: Path)
    requires o.Layout() && o.Tidy(w) && t in o.vol.targets && t !in w.mounts
    requires o.Staging() <= q && q in w.tree
    ensures q in Do(w, RemoveAll(w, t, c).0).tree
  {
    RemoveKeeps(o, w, t, c);
    assert Apart(t, o.Staging());
    if t <= q {
      PrefixLinear(t, o.Staging(), q);
    }
  }

  /** Deeds of other volumes and of the pruner change nothing at a volume's own paths. */
  lemma OthersKeep(site: Site, s: Sys, d: Deed, id: string, q: Path)
    requires site.Separate() && Sound(site, s) && id in site.volumes && site.At(id).Mine(q)
    requires !(d.Of? && d.id == id)
    ensures q in Apply(site, s, d).world.tree <==> q in s.world.tree
    ensures q in s.world.tree ==> Apply(site, s, d).world.tree[q] == s.world.tree[q]
  {
    ApplyView(site, s, d, id);
    SliceDecides(site.At(id), s.world, Apply(site, s, d).world, q);
  }

  /**
   * Data preservation and crash-safe order: in a conforming run, whichever step makes an entry of a
   * staging directory disappear, it is the last step of Unpublish for an ephemeral volume or of
   * Unstage for a persistent one, of that volume itself, at a moment when none of its targets is
   * mounted. So neither the removal of a target, nor another volume, nor the pruner removes staged
   * content, through a mount or otherwise.
   */
  lemma StagedContentIsPreserved(site: Site, w: World, ds: seq<Deed>, s: Sys, d: Deed, id: string, q: Path)
    requires Conforming(site, w, ds) && s == Reached(site, w, ds) && Permitted(site, s, d)
    requires id in site.volumes && site.At(id).Staging() <= q
    requires q in s.world.tree && q !in Apply(site, s, d).world.tree
    ensures d.Of? && d.id == id && id in s.books && s.books[id].pc.Some?
    ensures if site.At(id).Ephemeral() then s.books[id].pc.value.Purging? else s.books[id].pc.value.Unstaging?
    ensures forall t :: t in site.volumes[id].targets ==> t !in s.world.mounts
  {
    ReachedIsSafe(site, w, ds);
    var o := site.At(id);
    assert o.Mine(q);
    if d.Of? && d.id == id {
      OwnDeedRemoval(o, s.world, s.books[id], d.event, q);
    } else {
      OthersKeep(site, s, d, id, q);
    }
  }

  /**
   * Stateless classification: what Unpublish finds at the ephemeral staging path of a volume is there
   * only for an ephemeral volume whose staging was attempted and not cleaned up since.
   */
  lemma ShelterTellsEphemeral(site: Site, w: World, ds: seq<Deed>, id: string, q: Path)
    requires Conforming(site, w, ds)
    requires id in site.volumes && q in Reached(site, w, ds).world.tree && EphemeralPath(site.cfg, id) <= q
    ensures site.At(id).Ephemeral()
    ensures id in Reached(site, w, ds).books && Reached(site, w, ds).books[id].held
  {
    ReachedIsSafe(site, w, ds);
  }

  /** A persistent volume stays complete from a successful Stage to the next Unstage, whatever else happens. */
  lemma StagedStaysComplete(site: Site, w: World, ds: seq<Deed>, id: string)
    requires Conforming(site, w, ds)
    requires id in site.volumes && id in Reached(site, w, ds).books
    requires Reached(site, w, ds).books[id].ready
    ensures ShowsBottle(Reached(site, w, ds).world.tree, site.At(id).Staging(), site.At(id).Contents())
  {
    ReachedIsSafe(site, w, ds);
    CompleteShowsBottle(site.At(id), Reached(site, w, ds).world.tree);
  }

  /** No volume has anything pending: every Publish has been answered by an Unpublish, every staging cleaned up. */
  ghost predicate AllClosed(site: Site, s: Sys) {
    forall id :: id in site.volumes && id in s.books ==> s.books[id].live == {} && !s.books[id].held
  }

  /** Looking for ephemeral content to clean up fails only when there is none. */
  ghost predicate StatWorks(l: Ledger, e: Event) {
    e.Step? && l.pc.Some? && l.pc.value.Statting? ==> e.choice.outcome.Success?
  }

  ghost predicate StatsWork(site: Site, s: Sys, ds: seq<Deed>, id: string)
    decreases |ds|
  {
    ds == [] ||
    (&& (ds[0].Of? && ds[0].id == id && id in s.books ==> StatWorks(s.books[id], ds[0].event))
     && StatsWork(site, Apply(site, s, ds[0]), ds[1..], id))
  }

  /** Then an ephemeral volume has something staged only while a Publish is unanswered. */
  lemma {:induction false} HeldMeansLive(site: Site, s: Sys, ds: seq<Deed>, id: string)
    requires site.Separate() && AllSafe(site, s) && ConformingRun(site, s, ds) && StatsWork(site, s, ds, id)
    requires id in site.volumes && site.At(id).Ephemeral() && (s.books[id].held ==> s.books[id].live != {})
    ensures var n := Exec(site, s, ds);
      id in n.books && (n.books[id].held ==> n.books[id].live != {})
    decreases |ds|
  {
    if ds == [] {
    } else {
      DeedIsSafe(site, s, ds[0]);
      DeedHeldMeansLive(site, s, ds[0], id);
      HeldMeansLive(site, Apply(site, s, ds[0]), ds[1..], id);
    }
  }

  lemma DeedHeldMeansLive(site: Site, s: Sys, d: Deed, id: string)
    requires site.Separate() && Sound(site, s) && Permitted(site, s, d) && id in site.volumes && site.At(id).Ephemeral()
    requires d.Of? && d.id == id ==> StatWorks(s.books[id], d.event)
    requires s.books[id].held ==> s.books[id].live != {}
    ensures var n := Apply(site, s, d); id in n.books && (n.books[id].held ==> n.books[id].live != {})
  {
    if d.Of? && d.id == id {
      NoteHeldMeansLive(site.At(id), s.world, s.books[id], d.event);
    }
  }

  lemma NoteHeldMeansLive(o: Owner, w: World, l: Ledger, e: Event)
    requires o.Layout() && o.Ephemeral() && Proper(o, w, l) && Conforms(o, l, e) && StatWorks(l, e) && (l.held ==> l.live != {})
    ensures Note(o, w, l, e).held ==> Note(o, w, l, e).live != {}
  {
    if e.Start? && e.call.PublishVolume? && e.call.targetPath.Some? {
      assert e.call.targetPath.value in Note(o, w, l, e).live;
    }
  }

  lemma ClosedAtEnd(o: Owner, w: World, l: Ledger, r: Path)
    requires o.Layout() && Safe(o, w, l) && l.live == {} && !l.held && r in o.Roots()
    ensures Closed(o, w, r)
  {
  }

  /** Nothing is mounted on the volumes' targets, and nothing stands on their paths but empty staging directories. */
  ghost predicate Gone(site: Site, w: World) {
    forall id, r :: id in site.volumes && r in site.At(id).Roots() ==> Closed(site.At(id), w, r)
  }

  ghost predicate Closed(o: Owner, w: World, r: Path) {
    Emptied(o, w.tree, r) && (r in o.vol.targets ==> r !in w.mounts)
  }

  /** The directory into which a persistent volume is staged. The caller may make it, and Unstage removes it. */
  ghost predicate StagingRoot(site: Site, q: Path) {
    exists id :: id in site.volumes && !site.At(id).Ephemeral() && q == site.At(id).Staging()
  }

  /** What was there is there unchanged, and what is new is a directory on the way to the volumes or the cache. */
  ghost predicate KeptAt(site: Site, w: World, n: World, q: Path) {
    && (q in w.tree ==> q in n.tree && n.tree[q] == w.tree[q])
    && (q in n.tree && q !in w.tree ==> n.tree[q] == Dir && OnTheWay(site, q))
  }

  /**
   * The same mounts, and the same tree outside the cache but for directories on the way to the volumes
   * and the cache. Of a persistent volume's staging directory at most the directory itself stands.
   */
  ghost predicate Restored(site: Site, w: World, n: World) {
    && n.mounts == w.mounts
    && forall q :: !(site.cfg.cacheDir <= q) ==>
         if StagingRoot(site, q) then q in n.tree ==> n.tree[q] == Dir else KeptAt(site, w, n, q)
  }

  /** A run that leaves nothing of the volumes has restored the node. */
  lemma GoneIsRestored(site: Site, w: World, ds: seq<Deed>)
    requires Conforming(site, w, ds) && Gone(site, Reached(site, w, ds).world)
    ensures Restored(site, w, Reached(site, w, ds).world)
  {
    var n := Reached(site, w, ds);
    forall t
      ensures (t in n.world.mounts <==> t in w.mounts) && (t in n.world.mounts ==> n.world.mounts[t] == w.mounts[t])
    {
      GoneMount(site, w, ds, t);
    }
    assert n.world.mounts == w.mounts;
    forall q | !(site.cfg.cacheDir <= q)
      ensures if StagingRoot(site, q) then q in n.world.tree ==> n.world.tree[q] == Dir else KeptAt(site, w, n.world, q)
    {
      GoneTree(site, w, ds, q);
    }
  }

  /**
   * No leak: once every Publish has been answered by a successful Unpublish and all staging is
   * cleaned up, the node is as it was.
   */
  lemma NoLeak(site: Site, w: World, ds: seq<Deed>)
    requires Conforming(site, w, ds) && AllClosed(site, Reached(site, w, ds))
    ensures Restored(site, w, Reached(site, w, ds).world)
  {
    var n := Reached(site, w, ds);
    ReachedIsSafe(site, w, ds);
    forall id, r | id in site.volumes && r in site.At(id).Roots()
      ensures Closed(site.At(id), n.world, r)
    {
      ClosedAtEnd(site.At(id), n.world, n.books[id], r);
    }
    GoneIsRestored(site, w, ds);
  }

  /**
   * The same in the caller's terms: it is enough that every target of every volume tried to be
   * published was since unpublished with success, that every persistent volume tried to be staged was
   * since unstaged with success, and that Unpublish never failed to see ephemeral content.
   */
  lemma NoLeakOnceAnswered(site: Site, w: World, ds: seq<Deed>)
    requires Conforming(site, w, ds)
    requires forall id :: id in site.volumes && id in Reached(site, w, ds).books ==>
      && Reached(site, w, ds).books[id].live == {}
      && (if site.At(id).Ephemeral() then StatsWork(site, Initial(site, w), ds, id) else !Reached(site, w, ds).books[id].held)
    ensures Restored(site, w, Reached(site, w, ds).world)
  {
    InitialIsSafe(site, w);
    forall id | id in site.volumes && id in Reached(site, w, ds).books
      ensures !Reached(site, w, ds).books[id].held
    {
      if site.At(id).Ephemeral() {
        HeldMeansLive(site, Initial(site, w), ds, id);
      }
    }
    NoLeak(site, w, ds);
  }

  /** Strictly above a path of some volume, or above the cache. */
  ghost predicate OnTheWay(site: Site, q: Path) {
    q <= site.cfg.cacheDir || exists id :: id in site.volumes && site.At(id).Above(q) && !site.At(id).Mine(q)
  }

  lemma GoneMount(site: Site, w: World, ds: seq<Deed>, t: Path)
    requires Conforming(site, w, ds) && Gone(site, Reached(site, w, ds).world)
    ensures var n := Reached(site, w, ds).world;
      (t in n.mounts <==> t in w.mounts) && (t in n.mounts ==> n.mounts[t] == w.mounts[t])
  {
    if id :| id in site.volumes && t in site.volumes[id].targets {
      assert t in site.At(id).Roots() && Vacant(site.At(id), w, t) && t <= t;
    } else {
      InitialIsSafe(site, w);
      ReachedIsSafe(site, w, ds);
      OtherMountsRun(site, Initial(site, w), ds, t);
    }
  }

  lemma GoneOwn(site: Site, w: World, n: World, id: string, q: Path)
    requires Fresh(site, w) && Gone(site, n) && id in site.volumes && site.At(id).Mine(q)
    ensures q in w.tree || q in n.tree ==> StagingRoot(site, q)
    ensures q in n.tree ==> n.tree[q] == Dir
  {
    var r :| r in site.At(id).Roots() && r <= q;
    assert Vacant(site.At(id), w, r);
    assert Closed(site.At(id), n, r);
  }

  lemma StagingRootIsMine(site: Site, q: Path)
    ensures StagingRoot(site, q) ==> exists id :: id in site.volumes && site.At(id).Mine(q)
  {
    if id :| id in site.volumes && !site.At(id).Ephemeral() && q == site.At(id).Staging() {
      assert site.At(id).Staging() in site.At(id).Roots() && q <= q;
    }
  }

  lemma GoneCommon(site: Site, w: World, ds: seq<Deed>, q: Path)
    requires Conforming(site, w, ds) && Common(site, q)
    ensures KeptAt(site, w, Reached(site, w, ds).world, q)
  {
    var n := Reached(site, w, ds);
    InitialIsSafe(site, w);
    ReachedIsSafe(site, w, ds);
    CommonRun(site, Initial(site, w), ds, q);
    if q in n.world.tree && q !in w.tree {
      var id :| id in n.books && q in n.books[id].made;
      MadeAbove(site, Initial(site, w), ds, id, q);
    }
  }

  lemma GoneTree(site: Site, w: World, ds: seq<Deed>, q: Path)
    requires Conforming(site, w, ds) && Gone(site, Reached(site, w, ds).world) && !(site.cfg.cacheDir <= q)
    ensures var n := Reached(site, w, ds).world;
      if StagingRoot(site, q) then q in n.tree ==> n.tree[q] == Dir else KeptAt(site, w, n, q)
  {
    if id :| id in site.volumes && site.At(id).Mine(q) {
      GoneOwn(site, w, Reached(site, w, ds).world, id, q);
    } else {
      StagingRootIsMine(site, q);
      GoneCommon(site, w, ds, q);
    }
  }

  /** Directories are made only above a volume's paths and above the cache. */
  lemma {:induction false} MadeAbove(site: Site, s: Sys, ds: seq<Deed>, id: string, q: Path)
    requires site.Separate() && Sound(site, s) && Addressed(site, ds) && id in site.volumes
    requires q in s.books[id].made ==> site.At(id).Above(q) || q <= site.cfg.cacheDir
    ensures Exec(site, s, ds).books.Keys == s.books.Keys
    ensures q in Exec(site, s, ds).books[id].made ==> site.At(id).Above(q) || q <= site.cfg.cacheDir
    decreases |ds|
  {
    if ds == [] {
    } else {
      AddressedParts(site, ds);
      ApplySound(site, s, ds[0]);
      if ds[0].Of? && ds[0].id == id {
        NoteMade(site.At(id), s.world, s.books[id], ds[0].event);
        TouchIsConfined(site.At(id), s.world, s.books[id], ds[0].event);
      }
      MadeAbove(site, Apply(site, s, ds[0]), ds[1..], id, q);
    }
  }

  /** One volume's events are permitted one after the other. */
  ghost predicate VConforming(o: Owner, v: View, es: seq<Event>)
    decreases |es|
  {
    es == [] || (Conforms(o, v.1, es[0]) && VConforming(o, VStep(o, v, es[0]), es[1..]))
  }

  lemma ConformingFirst(o: Owner, v: View, ds: seq<Deed>, id: string)
    requires ds != []
    ensures VConforming(o, v, Proj(ds, id)) <==>
      if ds[0].Of? && ds[0].id == id then
        Conforms(o, v.1, ds[0].event) && VConforming(o, VStep(o, v, ds[0].event), Proj(ds[1..], id))
      else VConforming(o, v, Proj(ds[1..], id))
  {
    if ds[0].Of? && ds[0].id == id {
      assert ([ds[0].event] + Proj(ds[1..], id))[1..] == Proj(ds[1..], id);
    } else {
      assert Proj(ds, id) == Proj(ds[1..], id);
    }
  }

  /** Whether a run conforms is decided volume by volume. */
  lemma {:induction false} ConformsByVolume(site: Site, s: Sys, ds: seq<Deed>)
    requires site.Separate() && Sound(site, s) && Addressed(site, ds)
    ensures ConformingRun(site, s, ds) <==>
      forall id :: id in site.volumes ==> VConforming(site.At(id), Look(site.At(id), s), Proj(ds, id))
    decreases |ds|
  {
    if ds == [] {
    } else {
      AddressedParts(site, ds);
      ApplySound(site, s, ds[0]);
      var n := Apply(site, s, ds[0]);
      ConformsByVolume(site, n, ds[1..]);
      forall id | id in site.volumes
        ensures VConforming(site.At(id), Look(site.At(id), s), Proj(ds, id)) <==>
          (ds[0].Of? && ds[0].id == id ==> Conforms(site.At(id), s.books[id], ds[0].event))
          && VConforming(site.At(id), Look(site.At(id), n), Proj(ds[1..], id))
      {
        ConformingFirst(site.At(id), Look(site.At(id), s), ds, id);
        ApplyView(site, s, ds[0], id);
      }
    }
  }

  /** Taking the calls of a conforming run one at a time is a conforming run. */
  lemma SerialisedConforms(site: Site, w: World, ds: seq<Deed>)
    requires Conforming(site, w, ds) && FromRest(ds)
    ensures Conforming(site, w, Serialised(ds)) && OneAtATime(Serialised(ds)) && Starts(Serialised(ds)) == Starts(ds)
    ensures SameButCache(site.cfg.cacheDir, Reached(site, w, Serialised(ds)).world, Reached(site, w, ds).world)
    ensures Reached(site, w, Serialised(ds)).books == Reached(site, w, ds).books
  {
    var s := Initial(site, w);
    InitialIsSafe(site, w);
    ReachedIsSafe(site, w, ds);
    Serialisable(site, s, ds);
    SerialisedAddressed(site, ds);
    ConformsByVolume(site, s, ds);
    ConformsByVolume(site, s, Serialised(ds));
  }
}
