/** Retrying Unpublish: no attempt makes matters worse, and one without faults finishes the cleanup. */
module Retry {
  import opened FileSystem
  import opened Lifecycle
  import opened Node
  import opened NodeSteps
  import opened Paths
  import opened Safety
  import opened Text
  import opened Volumes

  /** A call that unpublishes this target. */
  predicate Cleaning(pc: Pc, t: Path) {
    (pc.Probing? || pc.Unmounting? || pc.Clearing? || pc.Statting? || pc.Purging?) && pc.target == t
  }

  predicate IdleOrCleaning(l: Ledger, t: Path) {
    l.pc.None? || Cleaning(l.pc.value, t)
  }

  function MountCount(w: World, t: Path): nat {
    if t in w.mounts then |w.mounts[t]| else 0
  }

  /** Nothing is left of the target and of the ephemeral content. */
  ghost predicate Cleared(o: Owner, w: World, t: Path) {
    t !in w.mounts && NoneBelow(w.tree, t) && NoneBelow(w.tree, o.shelter)
  }

  /** No more mounts, target entries and ephemeral entries than before. */
  ghost predicate NoMore(o: Owner, w: World, n: World, t: Path) {
    && MountCount(n, t) <= MountCount(w, t)
    && Below(n.tree, t) <= Below(w.tree, t)
    && Below(n.tree, o.shelter) <= Below(w.tree, o.shelter)
  }

  /** How much is left to clean up. */
  function Burden(o: Owner, w: World, t: Path): nat {
    MountCount(w, t) + |Below(w.tree, t)| + |Below(w.tree, o.shelter)|
  }

  lemma SubsetSize<T>(a: set<T>, b: set<T>)
    requires a <= b
    ensures |a| <= |b|
  {
    assert a + (b - a) == b;
  }

  lemma NoMoreIsNoGreater(o: Owner, w: World, n: World, t: Path)
    requires NoMore(o, w, n, t)
    ensures Burden(o, n, t) <= Burden(o, w, t)
  {
    SubsetSize(Below(n.tree, t), Below(w.tree, t));
    SubsetSize(Below(n.tree, o.shelter), Below(w.tree, o.shelter));
  }

  lemma CleanIsNoBurden(o: Owner, w: World, t: Path)
    requires t in w.mounts ==> w.mounts[t] != []
    ensures Burden(o, w, t) == 0 <==> Cleared(o, w, t)
  {
    if Burden(o, w, t) == 0 {
      assert Below(w.tree, t) == {} && Below(w.tree, o.shelter) == {};
      forall q | q in w.tree
        ensures !(t <= q) && !(o.shelter <= q)
      {
        assert q !in Below(w.tree, t) && q !in Below(w.tree, o.shelter);
      }
    }
    if Cleared(o, w, t) {
      assert Below(w.tree, t) == {} && Below(w.tree, o.shelter) == {};
    }
  }

  /** A step of Unpublish, however it turns out, adds nothing. */
  lemma CleaningAddsNothing(o: Owner, w: World, pc: Pc, c: Choice, t: Path)
    requires o.Fits(pc) && Cleaning(pc, t)
    ensures NoMore(o, w, Do(w, EffectOf(o.cfg, w, pc, c)), t)
  {
    match pc {
      case Probing(_, _) => DoNothing(w);
      case Unmounting(_, _) => UnmountAddsNothing(o, w, c, t);
      case Clearing(_, _) => RemoveAddsNothing(o, w, t, c, t);
      case Statting(_, _) => DoNothing(w);
      case Purging(_, _) => RemoveAddsNothing(o, w, o.shelter, c, t);
    }
  }

  lemma UnmountAddsNothing(o: Owner, w: World, c: Choice, t: Path)
    ensures NoMore(o, w, Do(w, Unmount(w, t, c).0), t)
  {
    assert Do(w, Unmount(w, t, c).0).tree == w.tree;
  }

  lemma RemoveAddsNothing(o: Owner, w: World, r: Path, c: Choice, t: Path)
    ensures NoMore(o, w, Do(w, RemoveAll(w, r, c).0), t)
  {
    var e := RemoveAll(w, r, c).0;
    assert Do(w, e).mounts == w.mounts;
  }

  lemma CleaningGoesOn(o: Owner, l: Ledger, c: Choice, v: Verdict, e: Effect, t: Path)
    requires l.pc.Some? && Cleaning(l.pc.value, t)
    ensures IdleOrCleaning(Settle(o, l, c, After(l.pc.value, v), e), t)
  {
  }

  /** What a faultless step of Unpublish finds. */
  lemma SmoothVerdict(o: Owner, w: World, l: Ledger, t: Path)
    requires Ready(o, w, l) && Cleaning(l.pc.value, t)
    ensures var v := VerdictOf(o.cfg, w, l.pc.value, SMOOTH);
      && !v.found.Unknown? == l.pc.value.Probing?
      && (l.pc.value.Unmounting? || l.pc.value.Clearing? || l.pc.value.Purging? ==> v.ok)
      && (l.pc.value.Statting? ==> (v.ok <==> o.shelter in w.tree))
  {
    match l.pc.value {
      case Probing(_, _) =>
      case Unmounting(_, _) =>
      case Clearing(_, _) => ResolveRoot(o, w, t);
      case Statting(_, _) => ResolveRoot(o, w, o.shelter);
      case Purging(_, _) => ResolveRoot(o, w, o.shelter);
    }
  }

  lemma SmoothEnds(o: Owner, w: World, l: Ledger, v: Verdict, e: Effect, t: Path)
    requires l.pc.Some? && Cleaning(l.pc.value, t)
    requires !v.found.Unknown? == l.pc.value.Probing?
    requires l.pc.value.Unmounting? || l.pc.value.Clearing? || l.pc.value.Purging? ==> v.ok
    ensures var l' := Settle(o, l, SMOOTH, After(l.pc.value, v), e);
      if l.pc.value.Purging? || (l.pc.value.Statting? && !v.ok) then l'.pc.None? && l'.log == l.log + [OK] && t !in l'.live
      else l'.pc.Some? && Cleaning(l'.pc.value, t) && Rank(l'.pc.value) < Rank(l.pc.value) && l'.log == l.log
  {
  }

  lemma NoneWithoutShelter(o: Owner, w: World, l: Ledger)
    requires o.Layout() && Safe(o, w, l) && o.shelter !in w.tree
    ensures NoneBelow(w.tree, o.shelter)
  {
  }

  lemma PurgingCleans(o: Owner, w: World, l: Ledger)
    requires Ready(o, w, l) && l.pc.value.Purging?
    ensures Cleared(o, Do(w, EffectOf(o.cfg, w, l.pc.value, SMOOTH)), l.pc.value.target)
  {
    RemoveKeeps(o, w, o.shelter, SMOOTH);
    ResolveRoot(o, w, o.shelter);
  }

  /** A faultless step brings Unpublish closer to its end, and at its end everything is clean. */
  lemma SmoothCleaning(o: Owner, w: World, l: Ledger, t: Path)
    requires Ready(o, w, l) && Cleaning(l.pc.value, t)
    ensures var n, l' := Do(w, EffectOf(o.cfg, w, l.pc.value, SMOOTH)), Proceed(o, w, l, SMOOTH);
      if l'.pc.Some? then Cleaning(l'.pc.value, t) && Rank(l'.pc.value) < Rank(l.pc.value) && l'.log == l.log
      else Cleared(o, n, t) && l'.log == l.log + [OK] && t !in l'.live
  {
    var v := VerdictOf(o.cfg, w, l.pc.value, SMOOTH);
    SmoothVerdict(o, w, l, t);
    SmoothEnds(o, w, l, v, EffectOf(o.cfg, w, l.pc.value, SMOOTH), t);
    if l.pc.value.Purging? {
      PurgingCleans(o, w, l);
    } else if l.pc.value.Statting? && !v.ok {
      DoNothing(w);
      NoneWithoutShelter(o, w, l);
    }
  }

  /** Only calls that unpublish this target. */
  predicate OnlyCleans(es: seq<Event>, t: Path) {
    forall e :: e in es && e.Start? ==> e.call.UnpublishVolume? && e.call.targetPath == Some(t)
  }

  lemma SliceBurden(o: Owner, w: World, t: Path)
    requires t in o.vol.targets
    ensures MountCount(o.Slice(w), t) == MountCount(w, t)
    ensures Below(o.Slice(w).tree, t) == Below(w.tree, t)
    ensures Below(o.Slice(w).tree, o.shelter) == Below(w.tree, o.shelter)
    ensures Cleared(o, o.Slice(w), t) <==> Cleared(o, w, t)
  {
    SliceSees(o, w, t);
    SliceSees(o, w, o.shelter);
    forall q
      ensures t <= q || o.shelter <= q ==> (q in o.Slice(w).tree <==> q in w.tree)
    {
      assert q in Below(o.Slice(w).tree, t) <==> q in Below(w.tree, t);
      assert q in Below(o.Slice(w).tree, o.shelter) <==> q in Below(w.tree, o.shelter);
    }
  }

  lemma NoMoreTransitive(o: Owner, a: World, b: World, c: World, t: Path)
    requires NoMore(o, a, b, t) && NoMore(o, b, c, t)
    ensures NoMore(o, a, c, t)
  {
  }

  /** Making a persistent volume's staging directory adds nothing at a target or where ephemeral content would be. */
  lemma PreparationAddsNothing(o: Owner, w: World, c: Choice, t: Path)
    requires o.Layout() && o.Tidy(w) && StagedPart(o, w.tree) && t in o.vol.targets
    ensures NoMore(o, w, Do(w, Preparation(o, w, c)), t)
  {
    var n := Do(w, Preparation(o, w, c));
    if o.Ephemeral() {
      DoNothing(w);
    } else {
      PreparationIsGentle(o, w, c);
      assert t in o.Roots() && o.shelter in o.Roots() && Apart(t, o.Staging()) && Apart(o.shelter, o.Staging());
      forall q | q in n.tree && (t <= q || o.shelter <= q)
        ensures q in w.tree
      {
        assert o.Mine(q);
      }
    }
  }

  lemma EventAddsNothing(o: Owner, w: World, l: Ledger, e: Event, t: Path)
    requires o.Layout() && Proper(o, w, l) && Safe(o, w, l) && IdleOrCleaning(l, t) && o.Suits(UnpublishVolume(o.id, Some(t)))
    requires e.Start? ==> e.call.UnpublishVolume? && e.call.targetPath == Some(t)
    ensures NoMore(o, w, Do(w, Touch(o, w, l, e)), t) && IdleOrCleaning(Note(o, w, l, e), t)
  {
    if e.Step? && l.pc.Some? {
      CleaningAddsNothing(o, w, l.pc.value, e.choice, t);
      CleaningGoesOn(o, l, e.choice, VerdictOf(o.cfg, w, l.pc.value, e.choice), Touch(o, w, l, e), t);
    } else if e.Prepare? {
      PreparationAddsNothing(o, w, e.choice, t);
    } else {
      DoNothing(w);
      CallerAddsNothing(o, w, l, e, t);
    }
  }

  lemma CallerAddsNothing(o: Owner, w: World, l: Ledger, e: Event, t: Path)
    requires IdleOrCleaning(l, t) && (e.Start? || e.Crash? || (e.Step? && l.pc.None?))
    requires e.Start? ==> e.call.UnpublishVolume? && e.call.targetPath == Some(t)
    ensures Touch(o, w, l, e) == NOTHING && IdleOrCleaning(Note(o, w, l, e), t)
  {
  }

  /** A deed of an unpublishing run adds nothing; deeds of others and the pruner do not matter. */
  lemma DeedAddsNothing(site: Site, s: Sys, d: Deed, id: string, t: Path)
    requires site.Separate() && AllSafe(site, s) && Permitted(site, s, d)
    requires id in site.volumes && t in site.volumes[id].targets && IdleOrCleaning(s.books[id], t)
    requires d.Of? && d.id == id && d.event.Start? ==> d.event.call.UnpublishVolume? && d.event.call.targetPath == Some(t)
    ensures NoMore(site.At(id), s.world, Apply(site, s, d).world, t)
    ensures id in Apply(site, s, d).books && IdleOrCleaning(Apply(site, s, d).books[id], t)
  {
    var o := site.At(id);
    if d.Of? && d.id == id {
      EventAddsNothing(o, s.world, s.books[id], d.event, t);
    } else {
      ApplyView(site, s, d, id);
      SliceBurden(o, s.world, t);
      SliceBurden(o, Apply(site, s, d).world, t);
    }
  }

  /**
   * However often Unpublish is tried, however its steps fail, and whatever else goes on meanwhile: the
   * mounts on the target, the entries of the target and the ephemeral entries never become more.
   */
  lemma {:induction false} RetriesAddNothing(site: Site, s: Sys, ds: seq<Deed>, id: string, t: Path)
    requires site.Separate() && AllSafe(site, s) && ConformingRun(site, s, ds)
    requires id in site.volumes && t in site.volumes[id].targets && IdleOrCleaning(s.books[id], t)
    requires OnlyCleans(Proj(ds, id), t)
    ensures NoMore(site.At(id), s.world, Exec(site, s, ds).world, t)
    ensures Burden(site.At(id), Exec(site, s, ds).world, t) <= Burden(site.At(id), s.world, t)
    decreases |ds|
  {
    if ds == [] {
    } else {
      var n := Apply(site, s, ds[0]);
      ProjFirst(ds, id);
      DeedAddsNothing(site, s, ds[0], id, t);
      DeedIsSafe(site, s, ds[0]);
      RetriesAddNothing(site, n, ds[1..], id, t);
      NoMoreTransitive(site.At(id), s.world, n.world, Exec(site, s, ds).world, t);
    }
    NoMoreIsNoGreater(site.At(id), s.world, Exec(site, s, ds).world, t);
  }

  /** An Unpublish that is under way, or has ended well and left everything clean. */
  ghost predicate CleaningUp(o: Owner, w: World, l: Ledger, t: Path, log: seq<Response>) {
    if l.pc.Some? then Cleaning(l.pc.value, t) && l.log == log
    else Cleared(o, w, t) && l.log == log + [OK] && t !in l.live
  }

  function StepsToGo(l: Ledger): nat {
    if l.pc.Some? then Rank(l.pc.value) else 0
  }

  lemma SmoothDeed(site: Site, s: Sys, d: Deed, id: string, t: Path, log: seq<Response>)
    requires site.Separate() && AllSafe(site, s) && Permitted(site, s, d)
    requires id in site.volumes && t in site.volumes[id].targets && CleaningUp(site.At(id), s.world, s.books[id], t, log)
    requires d.Of? && d.id == id ==> d.event == Step(SMOOTH)
    ensures var n := Apply(site, s, d);
      && id in n.books && CleaningUp(site.At(id), n.world, n.books[id], t, log)
      && StepsToGo(n.books[id]) <= StepsToGo(s.books[id])
      && (d.Of? && d.id == id && s.books[id].pc.Some? ==> StepsToGo(n.books[id]) < StepsToGo(s.books[id]))
  {
    var o := site.At(id);
    if d.Of? && d.id == id {
      if s.books[id].pc.Some? {
        SmoothCleaning(o, s.world, s.books[id], t);
      } else {
        DoNothing(s.world);
      }
    } else {
      ApplyView(site, s, d, id);
      SliceBurden(o, s.world, t);
      SliceBurden(o, Apply(site, s, d).world, t);
    }
  }

  lemma SmoothFirst(site: Site, s: Sys, ds: seq<Deed>, id: string, t: Path, log: seq<Response>)
    requires site.Separate() && AllSafe(site, s) && ConformingRun(site, s, ds) && ds != []
    requires id in site.volumes && t in site.volumes[id].targets && CleaningUp(site.At(id), s.world, s.books[id], t, log)
    requires forall e :: e in Proj(ds, id) ==> e == Step(SMOOTH)
    requires StepsToGo(s.books[id]) <= |Proj(ds, id)|
    ensures var n := Apply(site, s, ds[0]);
      && id in n.books && CleaningUp(site.At(id), n.world, n.books[id], t, log)
      && (forall e :: e in Proj(ds[1..], id) ==> e == Step(SMOOTH))
      && StepsToGo(n.books[id]) <= |Proj(ds[1..], id)|
  {
    ProjFirst(ds, id);
    SmoothDeed(site, s, ds[0], id, t, log);
  }

  lemma SmoothDone(o: Owner, w: World, l: Ledger, t: Path, log: seq<Response>)
    requires CleaningUp(o, w, l, t, log) && StepsToGo(l) == 0
    ensures l.pc.None?
  {
  }

  lemma {:induction false} SmoothRun(site: Site, s: Sys, ds: seq<Deed>, id: string, t: Path, log: seq<Response>)
    requires site.Separate() && AllSafe(site, s) && ConformingRun(site, s, ds)
    requires id in site.volumes && t in site.volumes[id].targets && CleaningUp(site.At(id), s.world, s.books[id], t, log)
    requires forall e :: e in Proj(ds, id) ==> e == Step(SMOOTH)
    requires StepsToGo(s.books[id]) <= |Proj(ds, id)|
    ensures var n := Exec(site, s, ds);
      id in n.books && n.books[id].pc.None? && CleaningUp(site.At(id), n.world, n.books[id], t, log)
    decreases |ds|
  {
    if ds == [] {
      SmoothDone(site.At(id), s.world, s.books[id], t, log);
    } else {
      SmoothFirst(site, s, ds, id, t, log);
      DeedIsSafe(site, s, ds[0]);
      SmoothRun(site, Apply(site, s, ds[0]), ds[1..], id, t, log);
    }
  }

  lemma StartUnpublish(o: Owner, w: World, l: Ledger, t: Path)
    requires o.id != "" && l.pc.None?
    ensures var l' := Note(o, w, l, Start(UnpublishVolume(o.id, Some(t))));
      l'.pc.Some? && Cleaning(l'.pc.value, t) && l'.log == l.log && StepsToGo(l') == 5
  {
  }

  lemma UnpublishFromSafe(site: Site, s: Sys, es: seq<Deed>, id: string, t: Path)
    requires site.Separate() && AllSafe(site, s)
    requires id in site.volumes && id != "" && t in site.volumes[id].targets && s.books[id].pc.None?
    requires ConformingRun(site, s, [Of(id, Start(UnpublishVolume(id, Some(t))))] + es)
    requires |Proj(es, id)| >= 5 && forall e :: e in Proj(es, id) ==> e == Step(SMOOTH)
    ensures var n := Exec(site, s, [Of(id, Start(UnpublishVolume(id, Some(t))))] + es);
      id in n.books && n.books[id].pc.None? && CleaningUp(site.At(id), n.world, n.books[id], t, s.books[id].log)
  {
    var d := Of(id, Start(UnpublishVolume(id, Some(t))));
    assert ([d] + es)[1..] == es;
    DeedIsSafe(site, s, d);
    StartUnpublish(site.At(id), s.world, s.books[id], t);
    SmoothRun(site, Apply(site, s, d), es, id, t, s.books[id].log);
  }

  /**
   * Convergence: from every state of every conforming run in which no call for the volume is in
   * flight, also after failed mounts, partial pulls, partial removals and crashes, one Unpublish
   * whose own steps do not fail leaves no mount and no entry of the target and no ephemeral entry,
   * answers OK and so ends the publication, whatever runs in between.
   */
  lemma UnpublishConverges(site: Site, w: World, ds: seq<Deed>, es: seq<Deed>, id: string, t: Path)
    requires Conforming(site, w, ds)
    requires id in site.volumes && id != "" && t in site.volumes[id].targets
    requires id in Reached(site, w, ds).books && Reached(site, w, ds).books[id].pc.None?
    requires ConformingRun(site, Reached(site, w, ds), [Of(id, Start(UnpublishVolume(id, Some(t))))] + es)
    requires |Proj(es, id)| >= 5 && forall e :: e in Proj(es, id) ==> e == Step(SMOOTH)
    ensures var n := Exec(site, Reached(site, w, ds), [Of(id, Start(UnpublishVolume(id, Some(t))))] + es);
      && Cleared(site.At(id), n.world, t) && Burden(site.At(id), n.world, t) == 0
      && id in n.books && n.books[id].pc.None? && t !in n.books[id].live
      && n.books[id].log == Reached(site, w, ds).books[id].log + [OK]
  {
    ReachedIsSafe(site, w, ds);
    UnpublishFromSafe(site, Reached(site, w, ds), es, id, t);
    CleanIsNoBurden(site.At(id), Exec(site, Reached(site, w, ds), [Of(id, Start(UnpublishVolume(id, Some(t))))] + es).world, t);
  }
}
