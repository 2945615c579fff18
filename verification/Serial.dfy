/** Interleaving calls for different volumes makes no difference: any run equals one that takes the calls one at a time. */
module Serial {
  import opened FileSystem
  import opened Isolation
  import opened Node
  import opened Paths
  import opened Volumes

  /** A place that belongs to no volume and not to the cache. */
  ghost predicate Common(site: Site, q: Path) {
    !(site.cfg.cacheDir <= q) && forall id :: id in site.volumes ==> !site.At(id).Mine(q)
  }

  ghost predicate Made(s: Sys, q: Path) {
    exists id :: id in s.books && q in s.books[id].made
  }

  /** Parent directories noted as created are there. */
  ghost predicate MadeIsThere(s: Sys, q: Path) {
    Made(s, q) ==> q in s.world.tree
  }

  lemma CommonEffect(site: Site, o: Owner, w: World, e: Effect, q: Path)
    requires Common(site, q) && o.id in site.volumes && o == site.At(o.id) && Confined(o, e)
    ensures q in Do(w, e).tree <==> q in w.tree || q in e.dirs
    ensures q in Do(w, e).tree ==> Do(w, e).tree[q] == if q in w.tree then w.tree[q] else Dir
  {
    assert q !in e.kill && q !in e.put;
  }

  lemma MadeAfter(s: Sys, n: Sys, id: string, dirs: set<Path>, q: Path)
    requires id in s.books && n.books.Keys == s.books.Keys && n.books[id].made == s.books[id].made + dirs
    requires forall other :: other in s.books && other != id ==> n.books[other] == s.books[other]
    ensures Made(n, q) <==> Made(s, q) || q in dirs
  {
    if Made(s, q) {
      var other :| other in s.books && q in s.books[other].made;
      assert q in n.books[other].made;
    }
    if q in dirs {
      assert q in n.books[id].made;
    }
  }

  lemma CommonDeed(site: Site, s: Sys, d: Deed, q: Path)
    requires site.Separate() && Sound(site, s) && Common(site, q) && MadeIsThere(s, q)
    ensures var n := Apply(site, s, d);
      && (Made(s, q) ==> Made(n, q))
      && (q in n.world.tree <==> q in s.world.tree || Made(n, q))
      && (q in n.world.tree ==> n.world.tree[q] == if q in s.world.tree then s.world.tree[q] else Dir)
  {
    if d.Of? && d.id in site.volumes {
      var o, l := site.At(d.id), s.books[d.id];
      var e := Touch(o, s.world, l, d.event);
      TouchIsConfined(o, s.world, l, d.event);
      NoteMade(o, s.world, l, d.event);
      CommonEffect(site, o, s.world, e, q);
      MadeAfter(s, Apply(site, s, d), d.id, e.dirs, q);
    }
  }

  lemma NoteMade(o: Owner, w: World, l: Ledger, e: Event)
    ensures Note(o, w, l, e).made == l.made + Touch(o, w, l, e).dirs
  {
  }

  /** At a common place a run can only have created directories. */
  lemma {:induction false} CommonRun(site: Site, s: Sys, ds: seq<Deed>, q: Path)
    requires site.Separate() && Sound(site, s) && Addressed(site, ds) && Common(site, q) && MadeIsThere(s, q)
    ensures var n := Exec(site, s, ds);
      && (Made(s, q) ==> Made(n, q))
      && (q in n.world.tree <==> q in s.world.tree || Made(n, q))
      && (q in n.world.tree ==> n.world.tree[q] == if q in s.world.tree then s.world.tree[q] else Dir)
    decreases |ds|
  {
    if ds == [] {
    } else {
      AddressedParts(site, ds);
      ApplySound(site, s, ds[0]);
      CommonDeed(site, s, ds[0], q);
      CommonRun(site, Apply(site, s, ds[0]), ds[1..], q);
    }
  }

  /** Mounts elsewhere stay as they are. */
  lemma {:induction false} OtherMountsRun(site: Site, s: Sys, ds: seq<Deed>, t: Path)
    requires site.Separate() && Sound(site, s) && Addressed(site, ds)
    requires forall id :: id in site.volumes ==> t !in site.volumes[id].targets
    ensures var n := Exec(site, s, ds);
      (t in n.world.mounts <==> t in s.world.mounts) && (t in n.world.mounts ==> n.world.mounts[t] == s.world.mounts[t])
    decreases |ds|
  {
    if ds == [] {
    } else {
      AddressedParts(site, ds);
      ApplySound(site, s, ds[0]);
      var d := ds[0];
      if d.Of? && d.id in site.volumes {
        TouchIsConfined(site.At(d.id), s.world, s.books[d.id], d.event);
      }
      OtherMountsRun(site, Apply(site, s, d), ds[1..], t);
    }
  }

  /** The same mounts, and the same tree outside the cache. */
  ghost predicate SameButCache(cacheDir: Path, a: World, b: World) {
    && a.mounts == b.mounts
    && forall q :: !(cacheDir <= q) ==> (q in a.tree <==> q in b.tree) && (q in a.tree ==> a.tree[q] == b.tree[q])
  }

  lemma SliceDecides(o: Owner, a: World, b: World, q: Path)
    requires o.Slice(a) == o.Slice(b) && o.Mine(q)
    ensures q in a.tree <==> q in b.tree
    ensures q in a.tree ==> a.tree[q] == b.tree[q]
  {
    assert q in a.tree <==> q in o.Slice(a).tree;
    assert q in b.tree <==> q in o.Slice(b).tree;
  }

  lemma SliceDecidesMount(o: Owner, a: World, b: World, t: Path)
    requires o.Slice(a) == o.Slice(b) && t in o.vol.targets
    ensures t in a.mounts <==> t in b.mounts
    ensures t in a.mounts ==> a.mounts[t] == b.mounts[t]
  {
    assert t in a.mounts <==> t in o.Slice(a).mounts;
    assert t in b.mounts <==> t in o.Slice(b).mounts;
  }

  /** Two runs that gave every volume the same events in the same order. */
  ghost predicate SameProjections(site: Site, s: Sys, ds: seq<Deed>, es: seq<Deed>) {
    && site.Separate() && Sound(site, s) && Addressed(site, ds) && Addressed(site, es)
    && (forall id :: id in site.volumes ==> Proj(ds, id) == Proj(es, id))
  }

  lemma SameViews(site: Site, s: Sys, ds: seq<Deed>, es: seq<Deed>, id: string)
    requires SameProjections(site, s, ds, es) && id in site.volumes
    ensures Exec(site, s, ds).books.Keys == s.books.Keys == Exec(site, s, es).books.Keys
    ensures Exec(site, s, ds).books[id] == Exec(site, s, es).books[id]
    ensures site.At(id).Slice(Exec(site, s, ds).world) == site.At(id).Slice(Exec(site, s, es).world)
  {
    RunView(site, s, ds, id);
    RunView(site, s, es, id);
  }

  lemma SameBooks(site: Site, s: Sys, ds: seq<Deed>, es: seq<Deed>)
    requires SameProjections(site, s, ds, es)
    ensures Exec(site, s, ds).books == Exec(site, s, es).books
  {
    var a, b := Exec(site, s, ds).books, Exec(site, s, es).books;
    RunSound(site, s, ds);
    RunSound(site, s, es);
    forall id | id in site.volumes
      ensures a[id] == b[id]
    {
      SameViews(site, s, ds, es, id);
    }
  }

  lemma SameTreeAt(site: Site, s: Sys, ds: seq<Deed>, es: seq<Deed>, q: Path)
    requires SameProjections(site, s, ds, es) && MadeIsThere(s, q) && !(site.cfg.cacheDir <= q)
    ensures var a, b := Exec(site, s, ds).world.tree, Exec(site, s, es).world.tree;
      (q in a <==> q in b) && (q in a ==> a[q] == b[q])
  {
    if id :| id in site.volumes && site.At(id).Mine(q) {
      SameViews(site, s, ds, es, id);
      SliceDecides(site.At(id), Exec(site, s, ds).world, Exec(site, s, es).world, q);
    } else {
      SameBooks(site, s, ds, es);
      CommonRun(site, s, ds, q);
      CommonRun(site, s, es, q);
    }
  }

  lemma SameMountsAt(site: Site, s: Sys, ds: seq<Deed>, es: seq<Deed>, t: Path)
    requires SameProjections(site, s, ds, es)
    ensures var a, b := Exec(site, s, ds).world.mounts, Exec(site, s, es).world.mounts;
      (t in a <==> t in b) && (t in a ==> a[t] == b[t])
  {
    if id :| id in site.volumes && t in site.volumes[id].targets {
      SameViews(site, s, ds, es, id);
      SliceDecidesMount(site.At(id), Exec(site, s, ds).world, Exec(site, s, es).world, t);
    } else {
      OtherMountsRun(site, s, ds, t);
      OtherMountsRun(site, s, es, t);
    }
  }

  /**
   * What each volume's events were, in their order, decides the outcome: how the events of different
   * volumes and the pruner's passes were interleaved shows only in the cache.
   */
  lemma ProjectionsDecide(site: Site, s: Sys, ds: seq<Deed>, es: seq<Deed>)
    requires SameProjections(site, s, ds, es)
    requires forall q :: MadeIsThere(s, q)
    ensures SameButCache(site.cfg.cacheDir, Exec(site, s, ds).world, Exec(site, s, es).world)
    ensures Exec(site, s, ds).books == Exec(site, s, es).books
  {
    SameBooks(site, s, ds, es);
    forall q | !(site.cfg.cacheDir <= q)
      ensures var a, b := Exec(site, s, ds).world.tree, Exec(site, s, es).world.tree;
        (q in a <==> q in b) && (q in a ==> a[q] == b[q])
    {
      SameTreeAt(site, s, ds, es, q);
    }
    forall t
      ensures var a, b := Exec(site, s, ds).world.mounts, Exec(site, s, es).world.mounts;
        (t in a <==> t in b) && (t in a ==> a[t] == b[t])
    {
      SameMountsAt(site, s, ds, es, t);
    }
    assert Exec(site, s, ds).world.mounts == Exec(site, s, es).world.mounts;
  }

  /** An event of the caller. */
  predicate Begins(e: Event) {
    e.Start? || e.Prepare?
  }

  /** A deed that does not go on with a call: one of the caller, or a pass of the pruner. */
  predicate Opens(d: Deed) {
    d.PruneCache? || Begins(d.event)
  }

  /** The rest of the call in flight for a volume. */
  function Going(ds: seq<Deed>, id: string): seq<Deed> {
    if ds == [] then []
    else if ds[0].Of? && ds[0].id == id then (if Opens(ds[0]) then [] else [ds[0]] + Going(ds[1..], id))
    else Going(ds[1..], id)
  }

  function Without(ds: seq<Deed>, id: string): (rest: seq<Deed>)
    ensures |rest| <= |ds|
  {
    if ds == [] then []
    else if ds[0].Of? && ds[0].id == id then (if Opens(ds[0]) then ds else Without(ds[1..], id))
    else [ds[0]] + Without(ds[1..], id)
  }

  /** The same deeds, each call taken whole at the moment it started. */
  function Serialised(ds: seq<Deed>): seq<Deed>
    decreases |ds|
  {
    if ds == [] then []
    else if ds[0].PruneCache? then [ds[0]] + Serialised(ds[1..])
    else [ds[0]] + Going(ds[1..], ds[0].id) + Serialised(Without(ds[1..], ds[0].id))
  }

  /** The calls and pruner passes in the order in which they started. */
  function Starts(ds: seq<Deed>): seq<Deed> {
    if ds == [] then [] else (if Opens(ds[0]) then [ds[0]] else []) + Starts(ds[1..])
  }

  /** Between two steps of a call nothing else happens. */
  predicate OneAtATime(ds: seq<Deed>) {
    forall i :: 0 <= i < |ds| && !Opens(ds[i]) ==> i > 0 && ds[i - 1].Of? && ds[i - 1].id == ds[i].id
  }

  /** Every volume's events begin with one of the caller. */
  ghost predicate FromRest(ds: seq<Deed>) {
    forall id :: Proj(ds, id) != [] ==> Begins(Proj(ds, id)[0])
  }

  lemma {:induction false} ProjConcat(a: seq<Deed>, b: seq<Deed>, id: string)
    ensures Proj(a + b, id) == Proj(a, id) + Proj(b, id)
  {
    if a == [] {
      assert a + b == b;
    } else {
      ProjConcat(a[1..], b, id);
      assert (a + b)[1..] == a[1..] + b && (a + b)[0] == a[0];
      var head := if a[0].Of? && a[0].id == id then [a[0].event] else [];
      assert head + (Proj(a[1..], id) + Proj(b, id)) == (head + Proj(a[1..], id)) + Proj(b, id);
    }
  }

  lemma {:induction false} StartsConcat(a: seq<Deed>, b: seq<Deed>)
    ensures Starts(a + b) == Starts(a) + Starts(b)
  {
    if a == [] {
      assert a + b == b;
    } else {
      StartsConcat(a[1..], b);
      assert (a + b)[1..] == a[1..] + b && (a + b)[0] == a[0];
      var head := if Opens(a[0]) then [a[0]] else [];
      assert head + (Starts(a[1..]) + Starts(b)) == (head + Starts(a[1..])) + Starts(b);
    }
  }

  lemma {:induction false} GoingIsOwn(ds: seq<Deed>, id: string)
    ensures forall i :: 0 <= i < |Going(ds, id)| ==> Going(ds, id)[i].Of? && Going(ds, id)[i].id == id && !Opens(Going(ds, id)[i])
  {
    if ds == [] {
    } else {
      GoingIsOwn(ds[1..], id);
    }
  }

  lemma {:induction false} GoingProj(ds: seq<Deed>, id: string, other: string)
    requires other != id
    ensures Proj(Going(ds, id), other) == []
  {
    if ds == [] {
    } else {
      GoingProj(ds[1..], id, other);
      if ds[0].Of? && ds[0].id == id && !Opens(ds[0]) {
        assert Going(ds, id)[1..] == Going(ds[1..], id);
      }
    }
  }

  lemma {:induction false} WithoutOtherProj(ds: seq<Deed>, id: string, other: string)
    requires other != id
    ensures Proj(Without(ds, id), other) == Proj(ds, other)
  {
    if ds == [] {
    } else {
      WithoutOtherProj(ds[1..], id, other);
      if !(ds[0].Of? && ds[0].id == id) {
        assert Without(ds, id)[1..] == Without(ds[1..], id);
      }
    }
  }

  lemma ProjOfFirst(ds: seq<Deed>, id: string)
    requires ds != []
    ensures Proj(ds, id) == Proj([ds[0]], id) + Proj(ds[1..], id)
  {
    ProjConcat([ds[0]], ds[1..], id);
    assert [ds[0]] + ds[1..] == ds;
  }

  lemma {:induction false} WithoutOwnProj(ds: seq<Deed>, id: string)
    ensures Proj(Going(ds, id), id) + Proj(Without(ds, id), id) == Proj(ds, id)
    ensures Proj(Without(ds, id), id) != [] ==> Begins(Proj(Without(ds, id), id)[0])
  {
    if ds == [] {
    } else {
      WithoutOwnProj(ds[1..], id);
      if !(ds[0].Of? && ds[0].id == id) {
        assert Without(ds, id)[1..] == Without(ds[1..], id);
      } else if Opens(ds[0]) {
        assert Proj(Going(ds, id), id) == [];
      } else {
        ProjOfFirst(Going(ds, id), id);
        assert Going(ds, id)[1..] == Going(ds[1..], id);
        ConcatAssociative(Proj([ds[0]], id), Proj(Going(ds[1..], id), id), Proj(Without(ds[1..], id), id));
        ProjOfFirst(ds, id);
      }
    }
  }

  /** A volume's events are those of its call in flight followed by the rest; other volumes' are all in the rest. */
  lemma GoingAndWithoutProj(ds: seq<Deed>, id: string, other: string)
    ensures Proj(Going(ds, id), other) + Proj(Without(ds, id), other) == Proj(ds, other)
    ensures other != id ==> Proj(Going(ds, id), other) == []
    ensures other == id && Proj(Without(ds, id), id) != [] ==> Begins(Proj(Without(ds, id), id)[0])
  {
    if other != id {
      GoingProj(ds, id, other);
      WithoutOtherProj(ds, id, other);
    } else {
      WithoutOwnProj(ds, id);
    }
  }

  lemma {:induction false} GoingAndWithoutStarts(ds: seq<Deed>, id: string)
    ensures Starts(Going(ds, id)) == [] && Starts(Without(ds, id)) == Starts(ds)
  {
    if ds == [] {
    } else {
      GoingAndWithoutStarts(ds[1..], id);
      if ds[0].Of? && ds[0].id == id {
        if !Opens(ds[0]) {
          assert Going(ds, id)[1..] == Going(ds[1..], id);
        }
      } else {
        assert Without(ds, id)[1..] == Without(ds[1..], id);
      }
    }
  }

  lemma ConcatAssociative<T>(a: seq<T>, b: seq<T>, c: seq<T>)
    ensures a + b + c == a + (b + c)
  {
  }

  lemma ProjOfBlock(d: Deed, going: seq<Deed>, later: seq<Deed>, id: string)
    ensures Proj([d] + going + later, id) == Proj([d], id) + (Proj(going, id) + Proj(later, id))
  {
    ProjConcat([d] + going, later, id);
    ProjConcat([d], going, id);
    ConcatAssociative(Proj([d], id), Proj(going, id), Proj(later, id));
  }

  lemma {:induction false} SerialisedProj(ds: seq<Deed>, id: string)
    ensures Proj(Serialised(ds), id) == Proj(ds, id)
    decreases |ds|
  {
    if ds == [] {
    } else {
      ProjOfFirst(ds, id);
      if ds[0].PruneCache? {
        SerialisedProj(ds[1..], id);
        ProjConcat([ds[0]], Serialised(ds[1..]), id);
      } else {
        var going, rest := Going(ds[1..], ds[0].id), Without(ds[1..], ds[0].id);
        SerialisedProj(rest, id);
        GoingAndWithoutProj(ds[1..], ds[0].id, id);
        ProjOfBlock(ds[0], going, Serialised(rest), id);
      }
    }
  }

  lemma {:induction false} SerialisedStarts(ds: seq<Deed>)
    ensures Starts(Serialised(ds)) == Starts(ds)
    decreases |ds|
  {
    if ds == [] {
    } else {
      if ds[0].PruneCache? {
        SerialisedStarts(ds[1..]);
        StartsConcat([ds[0]], Serialised(ds[1..]));
        assert [ds[0]][1..] == [];
      } else {
        var going, rest := Going(ds[1..], ds[0].id), Without(ds[1..], ds[0].id);
        SerialisedStarts(rest);
        GoingAndWithoutStarts(ds[1..], ds[0].id);
        StartsConcat([ds[0]] + going, Serialised(rest));
        StartsConcat([ds[0]], going);
        StartsConcat([ds[0]], ds[1..]);
        assert [ds[0]] + ds[1..] == ds;
      }
    }
  }

  lemma FromRestParts(ds: seq<Deed>)
    requires FromRest(ds) && ds != []
    ensures Opens(ds[0])
    ensures ds[0].PruneCache? ==> FromRest(ds[1..])
    ensures ds[0].Of? ==> FromRest(Without(ds[1..], ds[0].id))
  {
    if ds[0].PruneCache? {
      assert forall id :: Proj(ds[1..], id) == Proj(ds, id);
    } else {
      assert Proj(ds, ds[0].id)[0] == ds[0].event;
      forall id | Proj(Without(ds[1..], ds[0].id), id) != []
        ensures Begins(Proj(Without(ds[1..], ds[0].id), id)[0])
      {
        GoingAndWithoutProj(ds[1..], ds[0].id, id);
        if id != ds[0].id {
          assert Proj(Without(ds[1..], ds[0].id), id) == Proj(ds, id);
        }
      }
    }
  }

  lemma {:induction false} SerialisedOneAtATime(ds: seq<Deed>)
    requires FromRest(ds)
    ensures OneAtATime(Serialised(ds))
    decreases |ds|
  {
    if ds == [] {
    } else {
      FromRestParts(ds);
      if ds[0].PruneCache? {
        SerialisedOneAtATime(ds[1..]);
      } else {
        SerialisedOneAtATime(Without(ds[1..], ds[0].id));
        GoingIsOwn(ds[1..], ds[0].id);
      }
    }
  }

  lemma {:induction false} ProjMembers(ds: seq<Deed>, id: string, e: Event)
    ensures e in Proj(ds, id) <==> Of(id, e) in ds
  {
    if ds == [] {
    } else {
      ProjMembers(ds[1..], id, e);
    }
  }

  lemma SerialisedAddressed(site: Site, ds: seq<Deed>)
    requires Addressed(site, ds)
    ensures Addressed(site, Serialised(ds))
  {
    forall d | d in Serialised(ds) && d.Of?
      ensures d in ds
    {
      SerialisedProj(ds, d.id);
      ProjMembers(ds, d.id, d.event);
      ProjMembers(Serialised(ds), d.id, d.event);
    }
  }

  /**
   * Serialisability: every interleaving of calls for different volumes, with faults, crashes and the
   * pruner, ends with the same mounts, the same tree outside the cache and the same responses as
   * taking the calls one at a time in the order in which they started.
   */
  lemma Serialisable(site: Site, s: Sys, ds: seq<Deed>)
    requires site.Separate() && Sound(site, s) && Addressed(site, ds) && FromRest(ds)
    requires forall q :: MadeIsThere(s, q)
    ensures OneAtATime(Serialised(ds))
    ensures Starts(Serialised(ds)) == Starts(ds)
    ensures forall id :: Proj(Serialised(ds), id) == Proj(ds, id)
    ensures SameButCache(site.cfg.cacheDir, Exec(site, s, Serialised(ds)).world, Exec(site, s, ds).world)
    ensures Exec(site, s, Serialised(ds)).books == Exec(site, s, ds).books
  {
    SerialisedOneAtATime(ds);
    SerialisedStarts(ds);
    forall id
      ensures Proj(Serialised(ds), id) == Proj(ds, id)
    {
      SerialisedProj(ds, id);
    }
    SerialisedAddressed(site, ds);
    ProjectionsDecide(site, s, Serialised(ds), ds);
  }

  lemma ProjOfTwo(d: Deed, e: Deed, id: string)
    ensures Proj([d, e], id) == Proj([d], id) + Proj([e], id)
    ensures Proj([d], id) == if d.Of? && d.id == id then [d.event] else []
  {
    ProjConcat([d], [e], id);
    assert [d] + [e] == [d, e];
    assert [d][1..] == [];
  }

  /** Deeds of different volumes, and of a volume and the pruner, can change places. */
  lemma DeedsCommute(site: Site, s: Sys, d: Deed, e: Deed)
    requires site.Separate() && Sound(site, s) && Addressed(site, [d, e])
    requires d.Of? && e.Of? ==> d.id != e.id
    requires forall q :: MadeIsThere(s, q)
    ensures SameButCache(site.cfg.cacheDir, Exec(site, s, [d, e]).world, Exec(site, s, [e, d]).world)
    ensures Exec(site, s, [d, e]).books == Exec(site, s, [e, d]).books
  {
    assert forall x :: x in [e, d] ==> x in [d, e];
    forall id
      ensures Proj([d, e], id) == Proj([e, d], id)
    {
      ProjOfTwo(d, e, id);
      ProjOfTwo(e, d, id);
    }
    ProjectionsDecide(site, s, [d, e], [e, d]);
  }
}
