/**
 * Taking calls in the order in which they pull: each call is opened only when it comes to its second
 * deed, which is the pull if it pulls, and then run whole. What volumes look like does not matter here,
 * only how far their calls are.
 */
module PullOrder {
  import opened FileSystem
  import opened Node
  import opened Paths
  import opened Serial

  /** How far a volume's call is: none in flight, before its pull, about to pull, or past that. */
  datatype Phase = Idle | Early | Pulling | Past

  /** How the volumes move, and how far their calls are. */
  datatype Machine<!V> = Machine(step: (string, V, Event) -> V, phase: V -> Phase)

  /** A call that pulls does so with its second deed. */
  ghost predicate Lawful<V(!new)>(m: Machine<V>) {
    && (forall id, v, e :: Begins(e) && m.phase(v).Idle? ==> !m.phase(m.step(id, v, e)).Pulling?)
    && (forall id, v, e :: !Begins(e) && !m.phase(v).Pulling? ==> !m.phase(m.step(id, v, e)).Early?)
    && (forall id, v, e :: !Begins(e) && !m.phase(v).Early? ==> m.phase(m.step(id, v, e)).Idle? || m.phase(m.step(id, v, e)).Past?)
  }

  function Advance<V>(m: Machine<V>, vs: map<string, V>, d: Deed): map<string, V> {
    if d.Of? && d.id in vs then vs[d.id := m.step(d.id, vs[d.id], d.event)] else vs
  }

  lemma AdvanceByEach<V>(m: Machine<V>, a: map<string, V>, b: map<string, V>, d: Deed)
    requires a.Keys == b.Keys
    requires forall id :: id in a ==> b[id] == if d.Of? && d.id == id then m.step(id, a[id], d.event) else a[id]
    ensures b == Advance(m, a, d)
  {
    assert Advance(m, a, d).Keys == a.Keys;
  }

  function AdvanceAll<V>(m: Machine<V>, vs: map<string, V>, ds: seq<Deed>): map<string, V>
    decreases |ds|
  {
    if ds == [] then vs else AdvanceAll(m, Advance(m, vs, ds[0]), ds[1..])
  }

  /** What is done to the cache: blobs added by a pull, or a pass of the pruner. */
  datatype Touched = Stored(blobs: map<Path, Entry>) | Pruned(choice: Choice)

  function TouchOf<V>(m: Machine<V>, vs: map<string, V>, d: Deed): seq<Touched> {
    match d
    case PruneCache(c) => [Pruned(c)]
    case Of(id, e) => if id in vs && e.Step? && m.phase(vs[id]).Pulling? then [Stored(e.choice.blobs)] else []
  }

  /** What a run does to the cache, in order. */
  function Trace<V>(m: Machine<V>, vs: map<string, V>, ds: seq<Deed>): seq<Touched>
    decreases |ds|
  {
    if ds == [] then [] else TouchOf(m, vs, ds[0]) + Trace(m, Advance(m, vs, ds[0]), ds[1..])
  }

  predicate OwnOf(ds: seq<Deed>, id: string) {
    forall i :: 0 <= i < |ds| ==> ds[i].Of? && ds[i].id == id
  }

  lemma {:induction false} TraceConcat<V(!new)>(m: Machine<V>, vs: map<string, V>, a: seq<Deed>, b: seq<Deed>)
    ensures Trace(m, vs, a + b) == Trace(m, vs, a) + Trace(m, AdvanceAll(m, vs, a), b)
    ensures AdvanceAll(m, vs, a + b) == AdvanceAll(m, AdvanceAll(m, vs, a), b)
    decreases |a|
  {
    if a == [] {
      assert a + b == b;
    } else {
      TraceConcat(m, Advance(m, vs, a[0]), a[1..], b);
      TraceFirst(m, vs, a[0], a[1..] + b);
      assert [a[0]] + (a[1..] + b) == a + b;
    }
  }

  lemma TraceFirst<V(!new)>(m: Machine<V>, vs: map<string, V>, d: Deed, ds: seq<Deed>)
    ensures Trace(m, vs, [d] + ds) == TouchOf(m, vs, d) + Trace(m, Advance(m, vs, d), ds)
    ensures AdvanceAll(m, vs, [d] + ds) == AdvanceAll(m, Advance(m, vs, d), ds)
  {
    assert ([d] + ds)[1..] == ds;
  }

  lemma TwoFirst<V(!new)>(m: Machine<V>, vs: map<string, V>, d: Deed, e: Deed, ds: seq<Deed>)
    ensures var us := Advance(m, vs, d);
      Trace(m, vs, [d] + ([e] + ds)) == TouchOf(m, vs, d) + TouchOf(m, us, e) + Trace(m, Advance(m, us, e), ds)
  {
    TraceFirst(m, vs, d, [e] + ds);
    TraceFirst(m, Advance(m, vs, d), e, ds);
  }

  /** Deeds of one volume look at that volume only. */
  lemma {:induction false} OwnTrace<V(!new)>(m: Machine<V>, vs: map<string, V>, us: map<string, V>, ds: seq<Deed>, id: string)
    requires OwnOf(ds, id) && (id in vs <==> id in us) && (id in vs ==> vs[id] == us[id])
    ensures Trace(m, vs, ds) == Trace(m, us, ds)
    decreases |ds|
  {
    if ds == [] {
    } else {
      OwnTrace(m, Advance(m, vs, ds[0]), Advance(m, us, ds[0]), ds[1..], id);
    }
  }

  lemma AdvanceCommutes<V(!new)>(m: Machine<V>, vs: map<string, V>, d: Deed, e: Deed)
    requires d.Of? && e.Of? ==> d.id != e.id
    ensures Advance(m, Advance(m, vs, d), e) == Advance(m, Advance(m, vs, e), d)
  {
    if d.Of? && e.Of? && d.id in vs && e.id in vs {
      TwoChanged(vs, d.id, m.step(d.id, vs[d.id], d.event), e.id, m.step(e.id, vs[e.id], e.event));
    }
  }

  lemma TouchesApart<V(!new)>(m: Machine<V>, vs: map<string, V>, d: Deed, e: Deed)
    requires d.Of? && e.Of? ==> d.id != e.id
    ensures TouchOf(m, Advance(m, vs, d), e) == TouchOf(m, vs, e)
  {
  }

  /** A deed that leaves the cache alone can change places with one of another volume. */
  lemma SwapFirst<V(!new)>(m: Machine<V>, vs: map<string, V>, h: Deed, e: Deed, ds: seq<Deed>)
    requires (h.Of? && e.Of? ==> h.id != e.id) && TouchOf(m, vs, h) == []
    ensures Trace(m, Advance(m, vs, h), [e] + ds) == Trace(m, vs, [e] + ([h] + ds))
  {
    TraceFirst(m, Advance(m, vs, h), e, ds);
    TwoFirst(m, vs, e, h, ds);
    AdvanceCommutes(m, vs, h, e);
    TouchesApart(m, vs, h, e);
    TouchesApart(m, vs, e, h);
  }

  /** Deeds of one volume that leave the cache alone can change places with a deed of another. */
  lemma {:induction false} SilentSwap<V(!new)>(m: Machine<V>, vs: map<string, V>, held: seq<Deed>, e: Deed, ds: seq<Deed>, id: string)
    requires OwnOf(held, id) && !(e.Of? && e.id == id) && Trace(m, vs, held) == []
    ensures Trace(m, vs, held + ([e] + ds)) == Trace(m, vs, [e] + (held + ds))
    decreases |held|
  {
    if held == [] {
      assert held + ([e] + ds) == [e] + (held + ds);
    } else {
      var h, rest := held[0], held[1..];
      assert held + ([e] + ds) == [h] + (rest + ([e] + ds)) && held + ds == [h] + (rest + ds);
      TraceFirst(m, vs, h, rest + ([e] + ds));
      SilentSwap(m, Advance(m, vs, h), rest, e, ds, id);
      SwapFirst(m, vs, h, e, rest + ds);
    }
  }

  lemma TwoChanged<K, V>(a: map<K, V>, k: K, v: V, l: K, u: V)
    requires k != l
    ensures a[k := v][l := u] == a[l := u][k := v]
  {
  }

  lemma {:induction false} LateIsSilent<V(!new)>(m: Machine<V>, vs: map<string, V>, ds: seq<Deed>, id: string)
    requires Lawful(m) && OwnOf(ds, id) && (forall i :: 0 <= i < |ds| ==> !Opens(ds[i]))
    requires id in vs ==> m.phase(vs[id]).Idle? || m.phase(vs[id]).Past?
    ensures Trace(m, vs, ds) == []
    decreases |ds|
  {
    if ds == [] {
    } else {
      LateIsSilent(m, Advance(m, vs, ds[0]), ds[1..], id);
    }
  }

  /** An event of the caller for an idle volume, and the next event of the volume, leave the cache alone. */
  lemma OpeningIsSilent<V(!new)>(m: Machine<V>, vs: map<string, V>, held: seq<Deed>, id: string)
    requires Lawful(m) && OwnOf(held, id) && 1 <= |held| <= 2 && Opens(held[0]) && (|held| == 2 ==> !Opens(held[1]))
    requires id in vs ==> m.phase(vs[id]).Idle?
    ensures Trace(m, vs, held) == []
  {
    TraceFirst(m, vs, held[0], held[1..]);
    assert [held[0]] + held[1..] == held;
    if |held| == 2 {
      TraceFirst(m, Advance(m, vs, held[0]), held[1], []);
      assert [held[1]] + [] == held[1..];
    } else {
      assert held[1..] == [];
    }
  }

  /**
   * Puts `held`, the opening of a call and perhaps its next deed, where the call's second deed stands,
   * which for a call that pulls is the pull.
   */
  function Sink(held: seq<Deed>, ds: seq<Deed>, id: string): seq<Deed>
    decreases |ds|
  {
    if ds == [] then held
    else if ds[0].Of? && ds[0].id == id then
      if |held| == 1 && !Opens(ds[0]) then Sink(held + [ds[0]], ds[1..], id) else held + ds
    else [ds[0]] + Sink(held, ds[1..], id)
  }

  /** The same deeds, each call opened only when it comes to its second deed. Calls that make fewer stay where they are. */
  function Postponed(ds: seq<Deed>): seq<Deed> {
    if ds == [] then []
    else if ds[0].Of? && Opens(ds[0]) && |Going(ds[1..], ds[0].id)| >= 2 then Sink([ds[0]], Postponed(ds[1..]), ds[0].id)
    else [ds[0]] + Postponed(ds[1..])
  }

  lemma SinkPast<V(!new)>(m: Machine<V>, vs: map<string, V>, held: seq<Deed>, ds: seq<Deed>, sunk: seq<Deed>, id: string)
    requires OwnOf(held, id) && ds != [] && !(ds[0].Of? && ds[0].id == id) && Trace(m, vs, held) == []
    requires Trace(m, Advance(m, vs, ds[0]), sunk) == Trace(m, Advance(m, vs, ds[0]), held + ds[1..])
    ensures Trace(m, vs, [ds[0]] + sunk) == Trace(m, vs, held + ds)
  {
    TraceFirst(m, vs, ds[0], sunk);
    TraceFirst(m, vs, ds[0], held + ds[1..]);
    SilentSwap(m, vs, held, ds[0], ds[1..], id);
    assert [ds[0]] + ds[1..] == ds;
  }

  lemma {:induction false} SinkTrace<V(!new)>(m: Machine<V>, vs: map<string, V>, held: seq<Deed>, ds: seq<Deed>, id: string)
    requires Lawful(m) && OwnOf(held, id) && 1 <= |held| <= 2 && Opens(held[0]) && (|held| == 2 ==> !Opens(held[1]))
    requires id in vs ==> m.phase(vs[id]).Idle?
    ensures Trace(m, vs, Sink(held, ds, id)) == Trace(m, vs, held + ds)
    decreases |ds|
  {
    if ds == [] {
      assert held + ds == held;
    } else if ds[0].Of? && ds[0].id == id {
      if |held| == 1 && !Opens(ds[0]) {
        SinkTrace(m, vs, held + [ds[0]], ds[1..], id);
        assert held + [ds[0]] + ds[1..] == held + ds;
      }
    } else {
      OpeningIsSilent(m, vs, held, id);
      SinkTrace(m, Advance(m, vs, ds[0]), held, ds[1..], id);
      SinkPast(m, vs, held, ds, Sink(held, ds[1..], id), id);
    }
  }

  /** The caller opens a call only for a volume that is idle then. */
  predicate OpensIdle<V>(m: Machine<V>, id: string, v: V, es: seq<Event>)
    decreases |es|
  {
    es == [] || ((Begins(es[0]) ==> m.phase(v).Idle?) && OpensIdle(m, id, m.step(id, v, es[0]), es[1..]))
  }

  predicate AllOpenIdle<V>(m: Machine<V>, vs: map<string, V>, ds: seq<Deed>) {
    forall id :: id in vs ==> OpensIdle(m, id, vs[id], Proj(ds, id))
  }

  lemma OpensIdleFirst<V>(m: Machine<V>, id: string, v: V, ds: seq<Deed>)
    requires ds != []
    ensures OpensIdle(m, id, v, Proj(ds, id)) <==>
      if ds[0].Of? && ds[0].id == id then
        (Begins(ds[0].event) ==> m.phase(v).Idle?) && OpensIdle(m, id, m.step(id, v, ds[0].event), Proj(ds[1..], id))
      else OpensIdle(m, id, v, Proj(ds[1..], id))
  {
    if ds[0].Of? && ds[0].id == id {
      assert ([ds[0].event] + Proj(ds[1..], id))[1..] == Proj(ds[1..], id);
    } else {
      assert Proj(ds, id) == Proj(ds[1..], id);
    }
  }

  lemma AllOpenIdleRest<V>(m: Machine<V>, vs: map<string, V>, ds: seq<Deed>)
    requires AllOpenIdle(m, vs, ds) && ds != []
    ensures AllOpenIdle(m, Advance(m, vs, ds[0]), ds[1..])
    ensures ds[0].Of? && Opens(ds[0]) && ds[0].id in vs ==> m.phase(vs[ds[0].id]).Idle?
  {
    forall id | id in vs
      ensures OpensIdle(m, id, Advance(m, vs, ds[0])[id], Proj(ds[1..], id))
      ensures ds[0].Of? && ds[0].id == id && Begins(ds[0].event) ==> m.phase(vs[id]).Idle?
    {
      OpensIdleFirst(m, id, vs[id], ds);
    }
  }

  /** Postponing changes nothing in the cache. */
  lemma {:induction false} PostponedTrace<V(!new)>(m: Machine<V>, vs: map<string, V>, ds: seq<Deed>)
    requires Lawful(m) && AllOpenIdle(m, vs, ds)
    ensures Trace(m, vs, Postponed(ds)) == Trace(m, vs, ds)
  {
    if ds == [] {
    } else {
      var rest := Postponed(ds[1..]);
      AllOpenIdleRest(m, vs, ds);
      PostponedTrace(m, Advance(m, vs, ds[0]), ds[1..]);
      TraceFirst(m, vs, ds[0], rest);
      if ds[0].Of? && Opens(ds[0]) && |Going(ds[1..], ds[0].id)| >= 2 {
        SinkTrace(m, vs, [ds[0]], rest, ds[0].id);
      }
    }
  }

  lemma {:induction false} OwnProj(ds: seq<Deed>, id: string, other: string)
    requires OwnOf(ds, id) && other != id
    ensures Proj(ds, other) == []
  {
    if ds == [] {
    } else {
      OwnProj(ds[1..], id, other);
    }
  }

  lemma {:induction false} SinkProj(held: seq<Deed>, ds: seq<Deed>, id: string, other: string)
    requires OwnOf(held, id)
    ensures Proj(Sink(held, ds, id), other) == Proj(held, other) + Proj(ds, other)
    decreases |ds|
  {
    if ds == [] {
      assert Proj(held, other) + [] == Proj(held, other);
    } else if ds[0].Of? && ds[0].id == id {
      if |held| == 1 && !Opens(ds[0]) {
        SinkProj(held + [ds[0]], ds[1..], id, other);
        ProjConcat(held, [ds[0]], other);
        ProjOfFirst(ds, other);
        ConcatAssociative(Proj(held, other), Proj([ds[0]], other), Proj(ds[1..], other));
      } else {
        ProjConcat(held, ds, other);
      }
    } else {
      SinkProj(held, ds[1..], id, other);
      ProjOfFirst(ds, other);
      ProjConcat([ds[0]], Sink(held, ds[1..], id), other);
      SwapProj(held, ds[0], id, other);
      ConcatAssociative(Proj([ds[0]], other), Proj(held, other), Proj(ds[1..], other));
      ConcatAssociative(Proj(held, other), Proj([ds[0]], other), Proj(ds[1..], other));
    }
  }

  lemma SwapProj(held: seq<Deed>, d: Deed, id: string, other: string)
    requires OwnOf(held, id) && !(d.Of? && d.id == id)
    ensures Proj([d], other) + Proj(held, other) == Proj(held, other) + Proj([d], other)
  {
    assert [d][1..] == [];
    if other != id {
      OwnProj(held, id, other);
    }
  }

  lemma {:induction false} SinkMembers(held: seq<Deed>, ds: seq<Deed>, id: string)
    ensures multiset(Sink(held, ds, id)) == multiset(held) + multiset(ds)
    decreases |ds|
  {
    if ds == [] {
    } else {
      assert [ds[0]] + ds[1..] == ds;
      if ds[0].Of? && ds[0].id == id {
        if |held| == 1 && !Opens(ds[0]) {
          SinkMembers(held + [ds[0]], ds[1..], id);
        }
      } else {
        SinkMembers(held, ds[1..], id);
      }
    }
  }

  /** The deeds are the same, and every volume's in the same order. */
  lemma {:induction false} PostponedProj(ds: seq<Deed>, id: string)
    ensures Proj(Postponed(ds), id) == Proj(ds, id)
    ensures multiset(Postponed(ds)) == multiset(ds)
  {
    if ds == [] {
    } else {
      var rest := Postponed(ds[1..]);
      PostponedProj(ds[1..], id);
      ProjConcat([ds[0]], rest, id);
      ProjOfFirst(ds, id);
      assert [ds[0]] + ds[1..] == ds;
      if ds[0].Of? && Opens(ds[0]) && |Going(ds[1..], ds[0].id)| >= 2 {
        SinkProj([ds[0]], rest, ds[0].id, id);
        SinkMembers([ds[0]], rest, ds[0].id);
      }
    }
  }

  /** The events of a volume up to its next opening, as deeds. */
  function Lead(es: seq<Event>, id: string): seq<Deed> {
    if es == [] || Begins(es[0]) then [] else [Of(id, es[0])] + Lead(es[1..], id)
  }

  lemma {:induction false} GoingIsLead(ds: seq<Deed>, id: string)
    ensures Going(ds, id) == Lead(Proj(ds, id), id)
  {
    if ds == [] {
    } else {
      GoingIsLead(ds[1..], id);
      if ds[0].Of? && ds[0].id == id {
        assert Proj(ds, id)[1..] == Proj(ds[1..], id);
      } else {
        assert Proj(ds, id) == Proj(ds[1..], id);
      }
    }
  }

  lemma SameGoing(a: seq<Deed>, b: seq<Deed>, id: string)
    requires Proj(a, id) == Proj(b, id)
    ensures Going(a, id) == Going(b, id)
  {
    GoingIsLead(a, id);
    GoingIsLead(b, id);
  }

  /** A call that makes two deeds or more makes the first two right after its opening. */
  predicate Led(ds: seq<Deed>)
    requires ds != []
  {
    ds[0].Of? && Opens(ds[0]) && |Going(ds[1..], ds[0].id)| >= 2 ==>
      |ds| >= 3 && OwnOf(ds[1..3], ds[0].id) && !Opens(ds[1]) && !Opens(ds[2])
  }

  predicate Tight(ds: seq<Deed>) {
    ds == [] || (Led(ds) && Tight(ds[1..]))
  }

  lemma {:induction false} SinkTight(held: seq<Deed>, ds: seq<Deed>, id: string)
    requires Tight(ds) && OwnOf(held, id) && 1 <= |held| <= 2 && Opens(held[0]) && (|held| == 2 ==> !Opens(held[1]))
    requires |held| + |Going(ds, id)| >= 3
    ensures Tight(Sink(held, ds, id))
    decreases |ds|
  {
    if ds == [] {
    } else if ds[0].Of? && ds[0].id == id {
      if |held| == 1 {
        assert Going(ds, id)[1..] == Going(ds[1..], id);
        SinkTight(held + [ds[0]], ds[1..], id);
      } else {
        HeldIsLed(held, ds, id);
      }
    } else {
      SinkTight(held, ds[1..], id);
      OtherStaysLed(held, ds, id);
      assert ([ds[0]] + Sink(held, ds[1..], id))[1..] == Sink(held, ds[1..], id);
    }
  }

  lemma HeldIsLed(held: seq<Deed>, ds: seq<Deed>, id: string)
    requires OwnOf(held, id) && |held| == 2 && !Opens(held[1])
    requires Tight(ds) && ds != [] && ds[0].Of? && ds[0].id == id && !Opens(ds[0])
    ensures Tight(held + ds)
  {
    assert (held + ds)[1..] == [held[1]] + ds && ([held[1]] + ds)[1..] == ds;
    assert (held + ds)[1..3] == [held[1], ds[0]];
  }

  lemma OtherStaysLed(held: seq<Deed>, ds: seq<Deed>, id: string)
    requires ds != [] && Led(ds) && OwnOf(held, id) && !(ds[0].Of? && ds[0].id == id)
    ensures Led([ds[0]] + Sink(held, ds[1..], id))
  {
    var sunk := Sink(held, ds[1..], id);
    assert ([ds[0]] + sunk)[1..] == sunk;
    if ds[0].Of? && Opens(ds[0]) && |Going(sunk, ds[0].id)| >= 2 {
      var x := ds[0].id;
      SinkProj(held, ds[1..], id, x);
      OwnProj(held, id, x);
      SameGoing(sunk, ds[1..], x);
      assert ds[1..3] == [ds[1], ds[2]] && ds[1..][0] == ds[1] && ds[1..][1..][0] == ds[2];
      assert ds[1..3][0].id == x && ds[1..3][1].id == x;
      assert sunk == [ds[1]] + ([ds[2]] + Sink(held, ds[1..][1..][1..], id));
      assert ([ds[0]] + sunk)[1..3] == [ds[1], ds[2]];
    }
  }

  lemma {:induction false} PostponedTight(ds: seq<Deed>)
    ensures Tight(Postponed(ds))
  {
    if ds == [] {
    } else {
      var rest := Postponed(ds[1..]);
      PostponedTight(ds[1..]);
      if ds[0].Of? {
        PostponedProj(ds[1..], ds[0].id);
        SameGoing(rest, ds[1..], ds[0].id);
      }
      if ds[0].Of? && Opens(ds[0]) && |Going(ds[1..], ds[0].id)| >= 2 {
        SinkTight([ds[0]], rest, ds[0].id);
      } else {
        assert ([ds[0]] + rest)[1..] == rest;
      }
    }
  }

  lemma {:induction false} WithoutTight(ds: seq<Deed>, id: string)
    requires Tight(ds)
    ensures Tight(Without(ds, id))
  {
    if ds == [] {
    } else if ds[0].Of? && ds[0].id == id {
      WithoutTight(ds[1..], id);
    } else {
      WithoutTight(ds[1..], id);
      WithoutLed(ds, id);
      assert ([ds[0]] + Without(ds[1..], id))[1..] == Without(ds[1..], id);
    }
  }

  lemma WithoutLed(ds: seq<Deed>, id: string)
    requires ds != [] && Led(ds) && !(ds[0].Of? && ds[0].id == id)
    ensures Led([ds[0]] + Without(ds[1..], id))
  {
    var rest := Without(ds[1..], id);
    assert ([ds[0]] + rest)[1..] == rest;
    if ds[0].Of? && Opens(ds[0]) && |Going(rest, ds[0].id)| >= 2 {
      var x := ds[0].id;
      WithoutOtherProj(ds[1..], id, x);
      SameGoing(rest, ds[1..], x);
      assert ds[1..3] == [ds[1], ds[2]] && ds[1..][0] == ds[1] && ds[1..][1..][0] == ds[2];
      assert ds[1..3][0].id == x && ds[1..3][1].id == x;
      assert rest == [ds[1]] + ([ds[2]] + Without(ds[1..][1..][1..], id));
      assert ([ds[0]] + rest)[1..3] == [ds[1], ds[2]];
    }
  }

  lemma GoingPast(ds: seq<Deed>, id: string)
    requires ds != [] && !(ds[0].Of? && ds[0].id == id)
    ensures Going(ds, id) == Going(ds[1..], id) && Without(ds, id) == [ds[0]] + Without(ds[1..], id)
  {
  }

  lemma GoingOn(ds: seq<Deed>, id: string)
    requires ds != [] && ds[0].Of? && ds[0].id == id && !Opens(ds[0])
    ensures Going(ds, id) == [ds[0]] + Going(ds[1..], id)
    ensures Going(ds, id) + Without(ds, id) == [ds[0]] + (Going(ds[1..], id) + Without(ds[1..], id))
  {
  }

  /** The rest of a call that leaves the cache alone can be taken at once. */
  lemma {:induction false} GoingTrace<V(!new)>(m: Machine<V>, vs: map<string, V>, ds: seq<Deed>, id: string)
    requires Trace(m, vs, Going(ds, id)) == []
    ensures Trace(m, vs, Going(ds, id) + Without(ds, id)) == Trace(m, vs, ds)
    decreases |ds|
  {
    if ds == [] {
    } else {
      var going, rest := Going(ds[1..], id), Without(ds[1..], id);
      if !(ds[0].Of? && ds[0].id == id) {
        GoingPast(ds, id);
        GoingIsOwn(ds[1..], id);
        OwnTrace(m, vs, Advance(m, vs, ds[0]), going, id);
        GoingTrace(m, Advance(m, vs, ds[0]), ds[1..], id);
        SilentSwap(m, vs, going, ds[0], rest, id);
        TraceFirst(m, vs, ds[0], going + rest);
      } else if Opens(ds[0]) {
        assert [] + ds == ds;
      } else {
        GoingOn(ds, id);
        TraceFirst(m, vs, ds[0], going);
        GoingTrace(m, Advance(m, vs, ds[0]), ds[1..], id);
        TraceFirst(m, vs, ds[0], going + rest);
      }
    }
  }

  /** After its opening a call can be taken at once, when its first two deeds follow right away. */
  lemma BlockTrace<V(!new)>(m: Machine<V>, vs: map<string, V>, ds: seq<Deed>)
    requires Lawful(m) && ds != [] && ds[0].Of? && Opens(ds[0]) && Led(ds)
    requires ds[0].id in vs ==> m.phase(vs[ds[0].id]).Idle?
    ensures var us := Advance(m, vs, ds[0]);
      Trace(m, us, Going(ds[1..], ds[0].id) + Without(ds[1..], ds[0].id)) == Trace(m, us, ds[1..])
  {
    var id, us := ds[0].id, Advance(m, vs, ds[0]);
    var t := ds[1..];
    GoingIsOwn(t, id);
    if |Going(t, id)| >= 2 {
      assert ds[1..3] == [ds[1], ds[2]];
      assert ds[1..3][0].id == id && ds[1..3][1].id == id;
      var us' := Advance(m, Advance(m, us, ds[1]), ds[2]);
      PairTrace(m, us, t, id);
      GoingIsOwn(t[1..][1..], id);
      LateIsSilent(m, us', Going(t[1..][1..], id), id);
      GoingTrace(m, us', t[1..][1..], id);
    } else {
      if |Going(t, id)| == 1 {
        OpeningIsSilent(m, vs, [ds[0]] + Going(t, id), id);
        TraceFirst(m, vs, ds[0], Going(t, id));
      }
      GoingTrace(m, us, t, id);
    }
  }

  lemma PairTrace<V(!new)>(m: Machine<V>, us: map<string, V>, t: seq<Deed>, id: string)
    requires |t| >= 2 && OwnOf(t[..2], id) && !Opens(t[0]) && !Opens(t[1])
    ensures var us' := Advance(m, Advance(m, us, t[0]), t[1]);
      var touched := TouchOf(m, us, t[0]) + TouchOf(m, Advance(m, us, t[0]), t[1]);
      && Trace(m, us, t) == touched + Trace(m, us', t[1..][1..])
      && Trace(m, us, Going(t, id) + Without(t, id)) ==
           touched + Trace(m, us', Going(t[1..][1..], id) + Without(t[1..][1..], id))
  {
    var rest := t[1..][1..];
    TwoFirst(m, us, t[0], t[1], rest);
    TwoFirst(m, us, t[0], t[1], Going(rest, id) + Without(rest, id));
    assert t == [t[0]] + ([t[1]] + rest);
    GoingOfTwo(t, id);
  }

  lemma GoingOfTwo(t: seq<Deed>, id: string)
    requires |t| >= 2 && OwnOf(t[..2], id) && !Opens(t[0]) && !Opens(t[1])
    ensures Going(t, id) + Without(t, id) == [t[0]] + ([t[1]] + (Going(t[1..][1..], id) + Without(t[1..][1..], id)))
  {
    assert t[..2][0] == t[0] && t[..2][1] == t[1] && t[1..][0] == t[1];
    assert Going(t, id) == [t[0]] + ([t[1]] + Going(t[1..][1..], id));
    assert Without(t, id) == Without(t[1..][1..], id);
  }

  lemma {:induction false} OpensIdleConcat<V>(m: Machine<V>, id: string, v: V, a: seq<Event>, b: seq<Event>)
    ensures OpensIdle(m, id, v, a + b) <==> OpensIdle(m, id, v, a) && OpensIdle(m, id, MoveAll(m, id, v, a), b)
    decreases |a|
  {
    if a == [] {
      assert a + b == b;
    } else {
      assert (a + b)[1..] == a[1..] + b && (a + b)[0] == a[0];
      OpensIdleConcat(m, id, m.step(id, v, a[0]), a[1..], b);
    }
  }

  function MoveAll<V>(m: Machine<V>, id: string, v: V, es: seq<Event>): V
    decreases |es|
  {
    if es == [] then v else MoveAll(m, id, m.step(id, v, es[0]), es[1..])
  }

  lemma {:induction false} AdvanceView<V>(m: Machine<V>, vs: map<string, V>, ds: seq<Deed>, id: string)
    requires id in vs
    ensures AdvanceAll(m, vs, ds).Keys == vs.Keys
    ensures AdvanceAll(m, vs, ds)[id] == MoveAll(m, id, vs[id], Proj(ds, id))
    decreases |ds|
  {
    if ds == [] {
    } else {
      AdvanceView(m, Advance(m, vs, ds[0]), ds[1..], id);
      if ds[0].Of? && ds[0].id == id {
        assert ([ds[0].event] + Proj(ds[1..], id))[1..] == Proj(ds[1..], id);
      } else {
        assert Proj(ds, id) == Proj(ds[1..], id);
      }
    }
  }

  lemma {:induction false} AdvanceKeys<V>(m: Machine<V>, vs: map<string, V>, ds: seq<Deed>)
    ensures AdvanceAll(m, vs, ds).Keys == vs.Keys
    decreases |ds|
  {
    if ds == [] {
    } else {
      AdvanceKeys(m, Advance(m, vs, ds[0]), ds[1..]);
    }
  }

  lemma AllOpenIdleWithout<V>(m: Machine<V>, us: map<string, V>, ds: seq<Deed>, id: string)
    requires AllOpenIdle(m, us, ds)
    ensures AllOpenIdle(m, AdvanceAll(m, us, Going(ds, id)), Without(ds, id))
  {
    var going, n := Going(ds, id), AdvanceAll(m, us, Going(ds, id));
    AdvanceKeys(m, us, going);
    forall other | other in n
      ensures OpensIdle(m, other, n[other], Proj(Without(ds, id), other))
    {
      AdvanceView(m, us, going, other);
      GoingAndWithoutProj(ds, id, other);
      OpensIdleConcat(m, other, us[other], Proj(going, other), Proj(Without(ds, id), other));
    }
  }

  /** Runs in which each call that pulls does so right after its opening. */
  ghost predicate PullsAtOnce<V(!new)>(m: Machine<V>, vs: map<string, V>, ds: seq<Deed>) {
    Lawful(m) && AllOpenIdle(m, vs, ds) && FromRest(ds) && Tight(ds)
  }

  lemma PullsAtOnceRest<V(!new)>(m: Machine<V>, vs: map<string, V>, ds: seq<Deed>)
    requires PullsAtOnce(m, vs, ds) && ds != []
    ensures Opens(ds[0])
    ensures ds[0].PruneCache? ==> PullsAtOnce(m, Advance(m, vs, ds[0]), ds[1..])
    ensures ds[0].Of? ==>
      PullsAtOnce(m, AdvanceAll(m, Advance(m, vs, ds[0]), Going(ds[1..], ds[0].id)), Without(ds[1..], ds[0].id))
  {
    AllOpenIdleRest(m, vs, ds);
    FromRestParts(ds);
    if ds[0].Of? {
      AllOpenIdleWithout(m, Advance(m, vs, ds[0]), ds[1..], ds[0].id);
      WithoutTight(ds[1..], ds[0].id);
    }
  }

  lemma SerialisedBlock<V(!new)>(m: Machine<V>, vs: map<string, V>, ds: seq<Deed>, later: seq<Deed>)
    requires PullsAtOnce(m, vs, ds) && ds != [] && ds[0].Of?
    requires var us := AdvanceAll(m, Advance(m, vs, ds[0]), Going(ds[1..], ds[0].id));
      Trace(m, us, later) == Trace(m, us, Without(ds[1..], ds[0].id))
    ensures Trace(m, vs, [ds[0]] + Going(ds[1..], ds[0].id) + later) == Trace(m, vs, ds)
  {
    var us, going, rest := Advance(m, vs, ds[0]), Going(ds[1..], ds[0].id), Without(ds[1..], ds[0].id);
    PullsAtOnceRest(m, vs, ds);
    AllOpenIdleRest(m, vs, ds);
    TraceConcat(m, us, going, later);
    TraceConcat(m, us, going, rest);
    BlockTrace(m, vs, ds);
    TraceFirst(m, vs, ds[0], going + later);
    assert [ds[0]] + going + later == [ds[0]] + (going + later);
  }

  /** Taking calls whole at their opening changes nothing in the cache, when they pull right after it. */
  lemma {:induction false} SerialisedTrace<V(!new)>(m: Machine<V>, vs: map<string, V>, ds: seq<Deed>)
    requires PullsAtOnce(m, vs, ds)
    ensures Trace(m, vs, Serialised(ds)) == Trace(m, vs, ds)
    decreases |ds|
  {
    if ds == [] {
    } else {
      PullsAtOnceRest(m, vs, ds);
      var us := Advance(m, vs, ds[0]);
      if ds[0].PruneCache? {
        SerialisedTrace(m, us, ds[1..]);
        TraceFirst(m, vs, ds[0], Serialised(ds[1..]));
      } else {
        var rest := Without(ds[1..], ds[0].id);
        SerialisedTrace(m, AdvanceAll(m, us, Going(ds[1..], ds[0].id)), rest);
        SerialisedBlock(m, vs, ds, Serialised(rest));
      }
    }
  }

  /** The calls one at a time, in the order in which they pull. */
  function InPullOrder(ds: seq<Deed>): seq<Deed> {
    Serialised(Postponed(ds))
  }

  lemma InPullOrderProj(ds: seq<Deed>)
    requires FromRest(ds)
    ensures forall id :: Proj(InPullOrder(ds), id) == Proj(Postponed(ds), id) == Proj(ds, id)
    ensures FromRest(Postponed(ds)) && OneAtATime(InPullOrder(ds)) && Starts(InPullOrder(ds)) == Starts(Postponed(ds))
    ensures multiset(Postponed(ds)) == multiset(ds)
  {
    forall id
      ensures Proj(InPullOrder(ds), id) == Proj(Postponed(ds), id) == Proj(ds, id)
    {
      PostponedProj(ds, id);
      SerialisedProj(Postponed(ds), id);
    }
    PostponedProj(ds, "");
    SerialisedOneAtATime(Postponed(ds));
    SerialisedStarts(Postponed(ds));
  }

  /** Taking the calls in the order in which they pull does the same to the cache. */
  lemma InPullOrderTrace<V(!new)>(m: Machine<V>, vs: map<string, V>, ds: seq<Deed>)
    requires Lawful(m) && AllOpenIdle(m, vs, ds) && FromRest(ds)
    ensures Trace(m, vs, InPullOrder(ds)) == Trace(m, vs, ds)
  {
    InPullOrderProj(ds);
    PostponedTrace(m, vs, ds);
    PostponedTight(ds);
    forall id | id in vs
      ensures OpensIdle(m, id, vs[id], Proj(Postponed(ds), id))
    {
      PostponedProj(ds, id);
    }
    SerialisedTrace(m, vs, Postponed(ds));
  }
}
