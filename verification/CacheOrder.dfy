/**
 * The blob cache is the one place where the order of calls for different volumes shows. In the order in which calls
 * pull, taking them one at a time gives the whole tree, the cache included.
 */
module CacheOrder {
  import opened Atomic
  import opened FileSystem
  import opened Isolation
  import opened Lifecycle
  import opened Node
  import opened NodeSteps
  import opened Paths
  import opened PullOrder
  import opened Safety
  import opened Serial
  import opened Text
  import opened Volumes

  type Views = map<string, View>

  /** What each volume sees of the node. */
  function Looks(site: Site, s: Sys): Views {
    map id | id in site.volumes && id in s.books :: Look(site.At(id), s)
  }

  function PhaseOf(pc: Option<Pc>): Phase {
    if pc.None? then Idle
    else if pc.value.Resolving? then Early
    else if pc.value.Pulling? then Phase.Pulling
    else Past
  }

  /** The volumes of a site as the order of their pulls sees them. */
  function MachineOf(site: Site): Machine<View> {
    Machine((id: string, v: View, e: Event) => if id in site.volumes then VStep(site.At(id), v, e) else (v.0, v.1.(pc := None)),
            (v: View) => PhaseOf(v.1.pc))
  }

  lemma PhasesMove(o: Owner, w: World, l: Ledger, e: Event)
    ensures var p, n := PhaseOf(l.pc), PhaseOf(Note(o, w, l, e).pc);
      if Begins(e) then p.Idle? ==> !n.Pulling?
      else (!p.Pulling? ==> !n.Early?) && (!p.Early? ==> n.Idle? || n.Past?)
  {
    if e.Step? && l.pc.Some? {
      StepPhases(o, l, e.choice, VerdictOf(o.cfg, w, l.pc.value, e.choice), EffectOf(o.cfg, w, l.pc.value, e.choice));
    } else if e.Start? && l.pc.None? {
      StartPhases(o, l, e.call);
    }
  }

  lemma StepPhases(o: Owner, l: Ledger, c: Choice, v: Verdict, e: Effect)
    requires l.pc.Some?
    ensures var p, n := PhaseOf(l.pc), PhaseOf(Settle(o, l, c, After(l.pc.value, v), e).pc);
      (!p.Pulling? ==> !n.Early?) && (!p.Early? ==> n.Idle? || n.Past?)
  {
    SettleEnds(o, l, c, After(l.pc.value, v), e);
  }

  lemma StartPhases(o: Owner, l: Ledger, call: Call)
    requires l.pc.None?
    ensures !PhaseOf(Enter(o, l, call).pc).Pulling?
  {
  }

  function CachePart(cacheDir: Path, tree: Tree): Tree {
    map q | q in tree && cacheDir <= q :: tree[q]
  }

  function CacheEffect(cacheDir: Path, cache: Tree, x: Touched): Effect {
    match x
    case Stored(blobs) =>
      NOTHING.(put := Placed(cacheDir, blobs, blobs.Keys), dirs := if blobs == map[] then {} else {cacheDir})
    case Pruned(c) => Prune(World(cache, map[]), cacheDir, c)
  }

  function CacheAfter(cacheDir: Path, cache: Tree, trace: seq<Touched>): Tree
    decreases |trace|
  {
    if trace == [] then cache
    else CacheAfter(cacheDir, Do(World(cache, map[]), CacheEffect(cacheDir, cache, trace[0])).tree, trace[1..])
  }

  lemma {:induction false} CacheAfterConcat(cacheDir: Path, cache: Tree, a: seq<Touched>, b: seq<Touched>)
    ensures CacheAfter(cacheDir, cache, a + b) == CacheAfter(cacheDir, CacheAfter(cacheDir, cache, a), b)
    decreases |a|
  {
    if a == [] {
      assert a + b == b;
    } else {
      assert (a + b)[1..] == a[1..] + b && (a + b)[0] == a[0];
      CacheAfterConcat(cacheDir, Do(World(cache, map[]), CacheEffect(cacheDir, cache, a[0])).tree, a[1..], b);
    }
  }

  /** A pull changes the cache by its blobs only. */
  lemma PullInCache(o: Owner, w: World, r: Path, b: Bottle, c: Choice, q: Path)
    requires o.Layout() && o.Tidy(w) && r in o.Roots() && o.cfg.cacheDir <= q
    ensures var e := Pull(w, r, o.cfg.cacheDir, b, c).0;
      && q !in e.kill
      && (q in e.put <==> q[|o.cfg.cacheDir|..] in c.blobs)
      && (q in e.put ==> e.put[q] == c.blobs[q[|o.cfg.cacheDir|..]])
      && (q in e.dirs <==> q == o.cfg.cacheDir && c.blobs != map[])
  {
    var place := Resolve(w.mounts, r);
    ResolveRoot(o, w, r);
    assert Apart(place, o.cfg.cacheDir);
    CachePaths(o, q);
    assert !(place <= q) by {
      assert place <= q ==> o.Mine(q);
    }
    assert !(q <= place) by {
      assert q <= place ==> o.Above(q);
    }
  }

  /** No other step and nothing the caller does changes the cache. */
  lemma OthersOffCache(o: Owner, w: World, l: Ledger, e: Event, q: Path)
    requires o.Layout() && Proper(o, w, l) && o.cfg.cacheDir <= q
    requires !(e.Step? && l.pc.Some? && l.pc.value.Pulling?)
    ensures var f := Touch(o, w, l, e); q !in f.kill && q !in f.put && q !in f.dirs
  {
    CachePaths(o, q);
    TouchIsConfined(o, w, l, e);
    if e.Step? && l.pc.Some? {
      StepOffCache(o, w, l.pc.value, e.choice, q);
    } else if e.Prepare? {
      MkdirOffCache(o, w, o.Staging(), e.choice, q);
    }
  }

  lemma StepOffCache(o: Owner, w: World, pc: Pc, c: Choice, q: Path)
    requires o.Layout() && o.Tidy(w) && o.Fits(pc) && !pc.Pulling? && o.cfg.cacheDir <= q
    ensures var f := EffectOf(o.cfg, w, pc, c); q !in f.put && q !in f.dirs
  {
    if pc.Making? {
      MkdirOffCache(o, w, pc.target, c, q);
    }
  }

  lemma MkdirOffCache(o: Owner, w: World, r: Path, c: Choice, q: Path)
    requires o.Layout() && o.Tidy(w) && r in o.Roots() && o.cfg.cacheDir <= q
    ensures var f := MkdirAll(w, r, c).0; q !in f.put && q !in f.dirs
  {
    ResolveRoot(o, w, r);
    CachePaths(o, q);
    assert q <= Resolve(w.mounts, r) ==> o.Above(q);
  }

  /** A change that does to the cache what another does. */
  lemma SameInCache(cacheDir: Path, w: World, e: Effect, f: Effect)
    requires forall q :: cacheDir <= q ==>
      && (q in e.put <==> q in f.put) && (q in e.put ==> e.put[q] == f.put[q])
      && (q in w.tree || q in e.dirs ==> (q in e.kill <==> q in f.kill)) && (q in e.dirs <==> q in f.dirs)
    requires forall q :: q in f.put || q in f.dirs ==> cacheDir <= q
    ensures CachePart(cacheDir, Do(w, e).tree) == Do(World(CachePart(cacheDir, w.tree), map[]), f).tree
  {
    var a, b := CachePart(cacheDir, Do(w, e).tree), Do(World(CachePart(cacheDir, w.tree), map[]), f).tree;
    forall q
      ensures (q in a <==> q in b) && (q in a ==> a[q] == b[q])
    {
      SameInCacheAt(cacheDir, w, e, f, q);
    }
  }

  lemma SameInCacheAt(cacheDir: Path, w: World, e: Effect, f: Effect, q: Path)
    requires cacheDir <= q ==>
      && (q in e.put <==> q in f.put) && (q in e.put ==> e.put[q] == f.put[q])
      && (q in w.tree || q in e.dirs ==> (q in e.kill <==> q in f.kill)) && (q in e.dirs <==> q in f.dirs)
    requires q in f.put || q in f.dirs ==> cacheDir <= q
    ensures var a, b := CachePart(cacheDir, Do(w, e).tree), Do(World(CachePart(cacheDir, w.tree), map[]), f).tree;
      (q in a <==> q in b) && (q in a ==> a[q] == b[q])
  {
  }

  lemma StoredEffect(cacheDir: Path, cache: Tree, blobs: map<Path, Entry>)
    ensures var g := CacheEffect(cacheDir, cache, Stored(blobs));
      && g.kill == {}
      && (forall q :: q in g.put <==> cacheDir <= q && q[|cacheDir|..] in blobs)
      && (forall q :: q in g.put ==> g.put[q] == blobs[q[|cacheDir|..]])
      && (forall q :: q in g.dirs <==> q == cacheDir && blobs != map[])
  {
  }

  lemma OneTouched(cacheDir: Path, cache: Tree, x: Touched)
    ensures CacheAfter(cacheDir, cache, [x]) == Do(World(cache, map[]), CacheEffect(cacheDir, cache, x)).tree
  {
    assert [x][1..] == [];
  }

  lemma BlobsAreStored(cacheDir: Path, w: World, f: Effect, blobs: map<Path, Entry>)
    requires forall q :: cacheDir <= q ==>
      && q !in f.kill && (q in f.put <==> q[|cacheDir|..] in blobs) && (q in f.put ==> f.put[q] == blobs[q[|cacheDir|..]])
      && (q in f.dirs <==> q == cacheDir && blobs != map[])
    ensures CachePart(cacheDir, Do(w, f).tree) == CacheAfter(cacheDir, CachePart(cacheDir, w.tree), [Stored(blobs)])
  {
    var cache := CachePart(cacheDir, w.tree);
    StoredEffect(cacheDir, cache, blobs);
    SameInCache(cacheDir, w, f, CacheEffect(cacheDir, cache, Stored(blobs)));
    OneTouched(cacheDir, cache, Stored(blobs));
  }

  lemma PullIsStored(o: Owner, w: World, r: Path, b: Bottle, c: Choice)
    requires o.Layout() && o.Tidy(w) && r in o.Roots()
    ensures CachePart(o.cfg.cacheDir, Do(w, Pull(w, r, o.cfg.cacheDir, b, c).0).tree) ==
      CacheAfter(o.cfg.cacheDir, CachePart(o.cfg.cacheDir, w.tree), [Stored(c.blobs)])
  {
    var cacheDir, f := o.cfg.cacheDir, Pull(w, r, o.cfg.cacheDir, b, c).0;
    forall q | cacheDir <= q
      ensures q !in f.kill && (q in f.put <==> q[|cacheDir|..] in c.blobs)
      ensures q in f.put ==> f.put[q] == c.blobs[q[|cacheDir|..]]
      ensures q in f.dirs <==> q == cacheDir && c.blobs != map[]
    {
      PullInCache(o, w, r, b, c, q);
    }
    BlobsAreStored(cacheDir, w, f, c.blobs);
  }

  lemma OwnDeedInCache(o: Owner, w: World, l: Ledger, e: Event)
    requires o.Layout() && Proper(o, w, l)
    ensures CachePart(o.cfg.cacheDir, Do(w, Touch(o, w, l, e)).tree) ==
      CacheAfter(o.cfg.cacheDir, CachePart(o.cfg.cacheDir, w.tree),
                 if e.Step? && l.pc.Some? && l.pc.value.Pulling? then [Stored(e.choice.blobs)] else [])
  {
    var cacheDir, f := o.cfg.cacheDir, Touch(o, w, l, e);
    if e.Step? && l.pc.Some? && l.pc.value.Pulling? {
      PullIsStored(o, w, l.pc.value.staging, BottleOf(o.cfg, l.pc.value.wanted), e.choice);
    } else {
      forall q | cacheDir <= q
        ensures q !in f.kill && q !in f.put && q !in f.dirs
      {
        OthersOffCache(o, w, l, e, q);
      }
      SameInCache(cacheDir, w, f, NOTHING);
      DoNothing(World(CachePart(cacheDir, w.tree), map[]));
    }
  }

  lemma PruneInCache(cacheDir: Path, w: World, c: Choice)
    ensures CachePart(cacheDir, Do(w, Prune(w, cacheDir, c)).tree) == CacheAfter(cacheDir, CachePart(cacheDir, w.tree), [Pruned(c)])
  {
    SameInCache(cacheDir, w, Prune(w, cacheDir, c), Prune(World(CachePart(cacheDir, w.tree), map[]), cacheDir, c));
    OneTouched(cacheDir, CachePart(cacheDir, w.tree), Pruned(c));
  }

  lemma TouchIsPull(site: Site, s: Sys, id: string, e: Event)
    requires id in site.volumes && id in s.books
    ensures var l := s.books[id];
      TouchOf(MachineOf(site), Looks(site, s), Of(id, e)) ==
        if e.Step? && l.pc.Some? && l.pc.value.Pulling? then [Stored(e.choice.blobs)] else []
  {
  }

  lemma DeedInCache(site: Site, s: Sys, d: Deed)
    requires site.Separate() && Sound(site, s)
    ensures CachePart(site.cfg.cacheDir, Apply(site, s, d).world.tree) ==
      CacheAfter(site.cfg.cacheDir, CachePart(site.cfg.cacheDir, s.world.tree), TouchOf(MachineOf(site), Looks(site, s), d))
  {
    if d.PruneCache? {
      PruneInCache(site.cfg.cacheDir, s.world, d.choice);
    } else if d.id in site.volumes {
      OwnDeedInCache(site.At(d.id), s.world, s.books[d.id], d.event);
      TouchIsPull(site, s, d.id, d.event);
    }
  }

  lemma DeedInView(site: Site, s: Sys, d: Deed, id: string)
    requires site.Separate() && Sound(site, s) && id in site.volumes
    ensures Apply(site, s, d).books.Keys == s.books.Keys
    ensures Looks(site, Apply(site, s, d))[id] ==
      if d.Of? && d.id == id then MachineOf(site).step(id, Looks(site, s)[id], d.event) else Looks(site, s)[id]
  {
    ApplyView(site, s, d, id);
  }

  lemma ViewsByEach(site: Site, m: Machine<View>, s: Sys, n: Sys, d: Deed)
    requires s.books.Keys == n.books.Keys == site.volumes.Keys
    requires forall id :: id in site.volumes ==>
      Looks(site, n)[id] == if d.Of? && d.id == id then m.step(id, Looks(site, s)[id], d.event) else Looks(site, s)[id]
    ensures Looks(site, n) == Advance(m, Looks(site, s), d)
  {
    assert Looks(site, s).Keys == Looks(site, n).Keys == site.volumes.Keys;
    AdvanceByEach(m, Looks(site, s), Looks(site, n), d);
  }

  lemma DeedInViews(site: Site, s: Sys, d: Deed)
    requires site.Separate() && Sound(site, s)
    ensures Looks(site, Apply(site, s, d)) == Advance(MachineOf(site), Looks(site, s), d)
  {
    forall id | id in site.volumes
      ensures Looks(site, Apply(site, s, d))[id] ==
        if d.Of? && d.id == id then MachineOf(site).step(id, Looks(site, s)[id], d.event) else Looks(site, s)[id]
    {
      DeedInView(site, s, d, id);
    }
    ViewsByEach(site, MachineOf(site), s, Apply(site, s, d), d);
  }

  /** What a run of the node does to the cache, in order. */
  function TraceOf(site: Site, s: Sys, ds: seq<Deed>): seq<Touched> {
    Trace(MachineOf(site), Looks(site, s), ds)
  }

  /** The cache after a run is a matter of the run's trace. */
  lemma {:induction false} RunInCache(site: Site, s: Sys, ds: seq<Deed>)
    requires site.Separate() && Sound(site, s) && Addressed(site, ds)
    ensures CachePart(site.cfg.cacheDir, Exec(site, s, ds).world.tree) ==
      CacheAfter(site.cfg.cacheDir, CachePart(site.cfg.cacheDir, s.world.tree), TraceOf(site, s, ds))
    decreases |ds|
  {
    if ds == [] {
    } else {
      AddressedParts(site, ds);
      ApplySound(site, s, ds[0]);
      DeedInCache(site, s, ds[0]);
      DeedInViews(site, s, ds[0]);
      RunInCache(site, Apply(site, s, ds[0]), ds[1..]);
      CacheAfterConcat(site.cfg.cacheDir, CachePart(site.cfg.cacheDir, s.world.tree), TouchOf(MachineOf(site), Looks(site, s), ds[0]),
                       TraceOf(site, Apply(site, s, ds[0]), ds[1..]));
    }
  }

  /**
   * Two runs that give every volume the same events in the same order, and do the same to the cache in
   * the same order, end in the same state.
   */
  lemma TracesDecide(site: Site, s: Sys, ds: seq<Deed>, es: seq<Deed>)
    requires SameProjections(site, s, ds, es) && forall q :: MadeIsThere(s, q)
    requires TraceOf(site, s, ds) == TraceOf(site, s, es)
    ensures Exec(site, s, ds) == Exec(site, s, es)
  {
    var cacheDir, a, b := site.cfg.cacheDir, Exec(site, s, ds).world.tree, Exec(site, s, es).world.tree;
    ProjectionsDecide(site, s, ds, es);
    RunInCache(site, s, ds);
    RunInCache(site, s, es);
    forall q
      ensures (q in a <==> q in b) && (q in a ==> a[q] == b[q])
    {
      if cacheDir <= q {
        assert q in CachePart(cacheDir, a) <==> q in CachePart(cacheDir, b);
      }
    }
    assert a == b;
  }

  lemma InPullOrderAddressed(site: Site, ds: seq<Deed>)
    requires Addressed(site, ds) && FromRest(ds)
    ensures Addressed(site, InPullOrder(ds))
  {
    InPullOrderProj(ds);
    forall d | d in InPullOrder(ds) && d.Of?
      ensures d in ds
    {
      ProjMembers(ds, d.id, d.event);
      ProjMembers(InPullOrder(ds), d.id, d.event);
    }
  }

  lemma SiteIsLawful(site: Site)
    ensures Lawful(MachineOf(site))
  {
    var m := MachineOf(site);
    forall id, v, e
      ensures Begins(e) && m.phase(v).Idle? ==> !m.phase(m.step(id, v, e)).Pulling?
      ensures !Begins(e) && !m.phase(v).Pulling? ==> !m.phase(m.step(id, v, e)).Early?
      ensures !Begins(e) && !m.phase(v).Early? ==> m.phase(m.step(id, v, e)).Idle? || m.phase(m.step(id, v, e)).Past?
    {
      if id in site.volumes {
        PhasesMove(site.At(id), v.0, v.1, e);
      }
    }
  }

  lemma {:induction false} ConformingOpensIdle(site: Site, id: string, v: View, es: seq<Event>)
    requires id in site.volumes && VConforming(site.At(id), v, es)
    ensures OpensIdle(MachineOf(site), id, v, es)
    decreases |es|
  {
    if es == [] {
    } else {
      ConformingOpensIdle(site, id, VStep(site.At(id), v, es[0]), es[1..]);
    }
  }

  lemma ConformingTrace(site: Site, s: Sys, ds: seq<Deed>)
    requires site.Separate() && Sound(site, s) && Addressed(site, ds) && ConformingRun(site, s, ds) && FromRest(ds)
    ensures TraceOf(site, s, InPullOrder(ds)) == TraceOf(site, s, ds)
  {
    SiteIsLawful(site);
    ConformsByVolume(site, s, ds);
    forall id | id in Looks(site, s)
      ensures OpensIdle(MachineOf(site), id, Looks(site, s)[id], Proj(ds, id))
    {
      ConformingOpensIdle(site, id, Looks(site, s)[id], Proj(ds, id));
    }
    InPullOrderTrace(MachineOf(site), Looks(site, s), ds);
  }

  /**
   * Serialisability with the cache: every conforming interleaving, with faults, crashes and the pruner,
   * ends in the very state in which it ends when the calls are taken one at a time in the order in which
   * they pull, the blob cache included.
   */
  lemma SerialisableInPullOrder(site: Site, w: World, ds: seq<Deed>)
    requires Conforming(site, w, ds) && FromRest(ds)
    ensures OneAtATime(InPullOrder(ds)) && Starts(InPullOrder(ds)) == Starts(Postponed(ds))
    ensures multiset(Postponed(ds)) == multiset(ds) && forall id :: Proj(InPullOrder(ds), id) == Proj(ds, id)
    ensures Conforming(site, w, InPullOrder(ds)) && Reached(site, w, InPullOrder(ds)) == Reached(site, w, ds)
  {
    var s, es := Initial(site, w), InPullOrder(ds);
    InitialIsSafe(site, w);
    ReachedIsSafe(site, w, ds);
    InPullOrderProj(ds);
    InPullOrderAddressed(site, ds);
    ConformsByVolume(site, s, ds);
    ConformsByVolume(site, s, es);
    ConformingTrace(site, s, ds);
    TracesDecide(site, s, es, ds);
  }

  /** The jobs end in the state, and every volume has the same answers. */
  ghost predicate SameState(site: Site, w: World, s: Sys, jobs: seq<Job>) {
    && RunJobs(site, w, jobs) == s.world
    && s.books.Keys == site.volumes.Keys
    && forall id :: id in s.books ==> s.books[id].log == Answers(site, w, jobs, id)
  }

  /**
   * Atomicity with the cache: a conforming run in which every call is answered ends in the very state,
   * the blob cache included, and with the very answers, of its RPCs, prepared staging directories and
   * pruner passes run whole one after the other in the order in which they pull.
   */
  lemma AnsweredRunIsAtomicInPullOrder(site: Site, w: World, ds: seq<Deed>)
    requires Conforming(site, w, ds) && FromRest(ds) && Orderly(site, ds) && AllIdle(Reached(site, w, ds))
    ensures exists jobs :: Openings(jobs) == Starts(Postponed(ds)) && SameState(site, w, Reached(site, w, ds), jobs)
  {
    var s := Initial(site, w);
    SerialisableInPullOrder(site, w, ds);
    InPullOrderProj(ds);
    forall d | d in Postponed(ds)
      ensures d in ds
    {
      assert d in multiset(Postponed(ds));
    }
    var jobs := WholeRunIsJobs(site, s, Postponed(ds));
    ExplainedIsState(site, w, ds, jobs);
  }

  lemma ExplainedIsState(site: Site, w: World, ds: seq<Deed>, jobs: seq<Job>)
    requires Explained(site, Initial(site, w), Postponed(ds), jobs)
    requires Reached(site, w, InPullOrder(ds)) == Reached(site, w, ds)
    ensures SameState(site, w, Reached(site, w, ds), jobs)
  {
    forall id | id in site.volumes
      ensures [] + Answers(site, w, jobs, id) == Answers(site, w, jobs, id)
    {
    }
  }
}
