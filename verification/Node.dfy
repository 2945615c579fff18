/**
 * The node with calls for several volumes in flight at once, the pruner running beside them, and
 * crashes in between. Each deed is one step of one of them.
 */
module Node {
  import opened FileSystem
  import opened Isolation
  import opened NodeSteps
  import opened Paths
  import opened Text
  import opened Volumes

  /**
   * What the caller knows of a volume: the call in flight; the targets it tried to publish and has
   * not since unpublished successfully (`live`); those for which Publish was answered OK and no
   * Unpublish began since (`shown`); whether staging succeeded and no unstaging began since
   * (`ready`); whether staging was attempted and not cleaned up since (`held`); the responses so far.
   * Beyond its knowledge: the targets whose mount lacks its options (`bare`), and the parent
   * directories made for the volume (`made`).
   */
  datatype Ledger = Ledger(pc: Option<Pc>, live: set<Path>, shown: set<Path>, ready: bool, held: bool,
                           log: seq<Response>, bare: set<Path>, made: set<Path>)

  const BLANK := Ledger(None, {}, {}, false, false, [], {}, {})

  /** The caller starts a call, or prepares the staging directory; a call makes a step; the process crashes. */
  datatype Event = Start(call: Call) | Prepare(choice: Choice) | Step(choice: Choice) | Crash

  datatype Deed = Of(id: string, event: Event) | PruneCache(choice: Choice)

  function Attempt(o: Owner, l: Ledger, call: Call): Ledger {
    match call
    case StageVolume(_, _, _, _, _) => l.(held := true)
    case PublishVolume(_, t, _, _, _, _, _) =>
      l.(live := l.live + (if t.Some? then {t.value} else {}), held := l.held || (o.Ephemeral() && t.Some?))
    case UnpublishVolume(_, t) => l.(shown := l.shown - (if t.Some? then {t.value} else {}))
    case UnstageVolume(_, _) => l.(ready := false)
  }

  function Enter(o: Owner, l: Ledger, call: Call): Ledger {
    var l' := Attempt(o, l, call);
    var pc := Begin(o.cfg, call);
    if pc.Done? then l'.(log := l'.log + [pc.response]) else l'.(pc := Some(pc))
  }

  /** What the caller concludes when a call ends well with the given last step. */
  function Conclude(o: Owner, l: Ledger, pc: Pc, c: Choice): Ledger {
    match pc
    case Notifying(_, _) => l.(ready := true)
    case Checking(_, t, _) => l.(shown := l.shown + {t})
    case Mounting(_, t, _) => l.(shown := l.shown + {t})
    case Statting(t, _) => l.(live := l.live - {t}, held := l.held && !(o.Ephemeral() && c.outcome.Success?))
    case Purging(t, _) => l.(live := l.live - {t}, held := l.held && !o.Ephemeral())
    case Unstaging(_) => l.(held := false)
    case _ => l
  }

  /** The targets whose mount lacks its options after a step that had effect `e` and took the call to `next`. */
  function BareAfter(l: Ledger, pc: Pc, next: Pc, e: Effect): set<Path> {
    match pc
    case Mounting(_, t, _) => if e.mnt != map[] && next != Done(OK) then l.bare + {t} else l.bare
    case Unmounting(t, _) => if e.mnt != map[] then l.bare - {t} else l.bare
    case _ => l.bare
  }

  /** The ledger after a step that had effect `e` and took the call to `next`. */
  function Settle(o: Owner, l: Ledger, c: Choice, next: Pc, e: Effect): Ledger
    requires l.pc.Some?
  {
    var l' := l.(made := l.made + e.dirs, bare := BareAfter(l, l.pc.value, next, e));
    if !next.Done? then l'.(pc := Some(next))
    else
      var closed := l'.(pc := None, log := l'.log + [next.response]);
      if next.response.OK? then Conclude(o, closed, l.pc.value, c) else closed
  }

  function Proceed(o: Owner, w: World, l: Ledger, c: Choice): Ledger
    requires l.pc.Some?
  {
    Settle(o, l, c, NextOf(o.cfg, w, l.pc.value, c), EffectOf(o.cfg, w, l.pc.value, c))
  }

  /** The caller makes the staging directory of a persistent volume, as far as it is not there. */
  function Preparation(o: Owner, w: World, c: Choice): Effect {
    if o.Ephemeral() then NOTHING else MkdirAll(w, o.Staging(), c).0
  }

  /** What an event does to the node. A second call for a busy volume is not taken up. */
  function Touch(o: Owner, w: World, l: Ledger, e: Event): Effect {
    if e.Step? && l.pc.Some? then EffectOf(o.cfg, w, l.pc.value, e.choice)
    else if e.Prepare? then Preparation(o, w, e.choice)
    else NOTHING
  }

  function Note(o: Owner, w: World, l: Ledger, e: Event): Ledger {
    match e
    case Start(call) => if l.pc.None? then Enter(o, l, call) else l
    case Prepare(c) => l.(made := l.made + Preparation(o, w, c).dirs)
    case Step(c) => if l.pc.Some? then Proceed(o, w, l, c) else l
    case Crash => l.(pc := None)
  }

  datatype Site = Site(cfg: Config, volumes: map<string, Volume>) {
    function At(id: string): Owner
      requires id in volumes
    {
      Owner(cfg, id, EphemeralPath(cfg, id), volumes[id])
    }

    /** All paths of all volumes are apart from each other and from the cache. */
    ghost predicate Separate() {
      && (forall id :: id in volumes ==> At(id).Layout())
      && (forall id, other :: id in volumes && other in volumes && id != other ==> Strangers(At(id), At(other)))
    }
  }

  datatype Sys = Sys(world: World, books: map<string, Ledger>)

  function Apply(site: Site, s: Sys, d: Deed): Sys {
    match d
    case PruneCache(c) => s.(world := Do(s.world, Prune(s.world, site.cfg.cacheDir, c)))
    case Of(id, e) =>
      if id in site.volumes && id in s.books then
        var o := site.At(id);
        Sys(Do(s.world, Touch(o, s.world, s.books[id], e)), s.books[id := Note(o, s.world, s.books[id], e)])
      else s
  }

  function Exec(site: Site, s: Sys, ds: seq<Deed>): Sys
    decreases |ds|
  {
    if ds == [] then s else Exec(site, Apply(site, s, ds[0]), ds[1..])
  }

  ghost predicate Proper(o: Owner, w: World, l: Ledger) {
    o.Tidy(w) && (l.pc.Some? ==> o.Fits(l.pc.value) && !l.pc.value.Done?)
  }

  /** Every call in flight works on its own volume's paths, and all mounts are the volumes' own. */
  ghost predicate Sound(site: Site, s: Sys) {
    s.books.Keys == site.volumes.Keys && forall id :: id in site.volumes ==> Proper(site.At(id), s.world, s.books[id])
  }

  /** Requests name the volume's own paths. */
  ghost predicate Addressed(site: Site, ds: seq<Deed>) {
    forall d :: d in ds && d.Of? && d.event.Start? && d.id in site.volumes ==> site.At(d.id).Suits(d.event.call)
  }

  /** The events of one volume. */
  function Proj(ds: seq<Deed>, id: string): seq<Event> {
    if ds == [] then []
    else (if ds[0].Of? && ds[0].id == id then [ds[0].event] else []) + Proj(ds[1..], id)
  }

  lemma ProjFirst(ds: seq<Deed>, id: string)
    requires ds != []
    ensures ds[0].Of? && ds[0].id == id ==> ds[0].event in Proj(ds, id)
    ensures forall e :: e in Proj(ds[1..], id) ==> e in Proj(ds, id)
    ensures |Proj(ds, id)| == |Proj(ds[1..], id)| + if ds[0].Of? && ds[0].id == id then 1 else 0
  {
  }

  /** What the start of a call does. */
  lemma StartApplied(site: Site, s: Sys, id: string, call: Call)
    requires id in site.volumes && id in s.books && s.books[id].pc.None?
    ensures var n, pc := Apply(site, s, Of(id, Start(call))), Begin(site.cfg, call);
      && n.world == s.world && n.books.Keys == s.books.Keys
      && (forall other :: other in s.books && other != id ==> n.books[other] == s.books[other])
      && n.books[id].pc == (if pc.Done? then None else Some(pc))
      && n.books[id].log == s.books[id].log + if pc.Done? then [pc.response] else []
  {
    DoNothing(s.world);
  }

  /** What a step of a call does. */
  lemma StepApplied(site: Site, s: Sys, id: string, c: Choice)
    requires id in site.volumes && id in s.books && s.books[id].pc.Some?
    ensures var n, pc := Apply(site, s, Of(id, Step(c))), s.books[id].pc.value;
      var next := NextOf(site.cfg, s.world, pc, c);
      && n.world == Do(s.world, EffectOf(site.cfg, s.world, pc, c)) && n.books.Keys == s.books.Keys
      && (forall other :: other in s.books && other != id ==> n.books[other] == s.books[other])
      && n.books[id].pc == (if next.Done? then None else Some(next))
      && n.books[id].log == s.books[id].log + if next.Done? then [next.response] else []
  {
    SettleEnds(site.At(id), s.books[id], c, NextOf(site.cfg, s.world, s.books[id].pc.value, c),
               EffectOf(site.cfg, s.world, s.books[id].pc.value, c));
  }

  lemma SettleEnds(o: Owner, l: Ledger, c: Choice, next: Pc, e: Effect)
    requires l.pc.Some?
    ensures Settle(o, l, c, next, e).pc == (if next.Done? then None else Some(next))
    ensures Settle(o, l, c, next, e).log == l.log + if next.Done? then [next.response] else []
  {
  }

  /** A volume alone: its slice of the node and its ledger. */
  type View = (World, Ledger)

  function Look(o: Owner, s: Sys): View
    requires o.id in s.books
  {
    (o.Slice(s.world), s.books[o.id])
  }

  function VStep(o: Owner, v: View, e: Event): View {
    (o.Slice(Do(v.0, Touch(o, v.0, v.1, e))), Note(o, v.0, v.1, e))
  }

  function VExec(o: Owner, v: View, es: seq<Event>): View
    decreases |es|
  {
    if es == [] then v else VExec(o, VStep(o, v, es[0]), es[1..])
  }

  lemma SameOnSlice(o: Owner, w: World, l: Ledger, e: Event)
    requires Proper(o, w, l)
    ensures Touch(o, o.Slice(w), l, e) == Touch(o, w, l, e)
    ensures Note(o, o.Slice(w), l, e) == Note(o, w, l, e)
  {
    if e.Step? && l.pc.Some? {
      StepOnSlice(o, w, l.pc.value, e.choice);
    } else if e.Prepare? {
      SliceMkdir(o, w, o.Staging(), e.choice);
    }
  }

  lemma TouchIsConfined(o: Owner, w: World, l: Ledger, e: Event)
    requires o.Layout() && Proper(o, w, l)
    ensures Confined(o, Touch(o, w, l, e))
  {
    if e.Step? && l.pc.Some? {
      StepIsConfined(o, w, l.pc.value, e.choice);
    } else if e.Prepare? {
      MkdirIsConfined(o, w, o.Staging(), e.choice);
    }
  }

  lemma NoteIsProper(o: Owner, w: World, l: Ledger, e: Event)
    requires o.Layout() && Proper(o, w, l)
    requires e.Start? ==> o.Suits(e.call)
    ensures Proper(o, Do(w, Touch(o, w, l, e)), Note(o, w, l, e))
  {
    TouchIsConfined(o, w, l, e);
    OwnStepTidy(o, w, Touch(o, w, l, e));
    match e {
      case Start(call) => BeginFits(o, call);
      case Prepare(_) =>
      case Step(c) => if l.pc.Some? { NextFits(o, l.pc.value, VerdictOf(o.cfg, w, l.pc.value, c)); }
      case Crash =>
    }
  }

  lemma ApplySound(site: Site, s: Sys, d: Deed)
    requires site.Separate() && Sound(site, s) && Addressed(site, [d])
    ensures Sound(site, Apply(site, s, d))
  {
    assert d == [d][0];
    forall id | id in site.volumes
      ensures Proper(site.At(id), Apply(site, s, d).world, Apply(site, s, d).books[id])
    {
      var o := site.At(id);
      if d.PruneCache? {
        PruneStep(o, s.world, d.choice);
      } else if d.id == id {
        NoteIsProper(o, s.world, s.books[id], d.event);
      } else if d.id in site.volumes {
        var u := site.At(d.id);
        TouchIsConfined(u, s.world, s.books[d.id], d.event);
        StrangerStep(o, u, s.world, Touch(u, s.world, s.books[d.id], d.event));
      }
    }
  }

  /** A deed changes the view of its own volume as it would change it alone, and no other view. */
  lemma ApplyView(site: Site, s: Sys, d: Deed, id: string)
    requires site.Separate() && Sound(site, s) && id in site.volumes
    ensures Apply(site, s, d).books.Keys == s.books.Keys
    ensures Look(site.At(id), Apply(site, s, d)) ==
      if d.Of? && d.id == id then VStep(site.At(id), Look(site.At(id), s), d.event) else Look(site.At(id), s)
  {
    var o := site.At(id);
    if d.PruneCache? {
      PruneStep(o, s.world, d.choice);
    } else if d.id == id {
      SameOnSlice(o, s.world, s.books[id], d.event);
      TouchIsConfined(o, s.world, s.books[id], d.event);
      OwnStep(o, s.world, Touch(o, s.world, s.books[id], d.event));
    } else if d.id in site.volumes {
      var u := site.At(d.id);
      TouchIsConfined(u, s.world, s.books[d.id], d.event);
      StrangerStep(o, u, s.world, Touch(u, s.world, s.books[d.id], d.event));
    }
  }

  /** Any run keeps every call on its own volume's paths. */
  lemma {:induction false} RunSound(site: Site, s: Sys, ds: seq<Deed>)
    requires site.Separate() && Sound(site, s) && Addressed(site, ds)
    ensures Sound(site, Exec(site, s, ds))
    decreases |ds|
  {
    if ds == [] {
    } else {
      AddressedParts(site, ds);
      ApplySound(site, s, ds[0]);
      RunSound(site, Apply(site, s, ds[0]), ds[1..]);
    }
  }

  lemma AddressedParts(site: Site, ds: seq<Deed>)
    requires Addressed(site, ds) && ds != []
    ensures Addressed(site, [ds[0]]) && Addressed(site, ds[1..])
  {
  }

  /** Any run shows each volume what it would see running alone. */
  lemma {:induction false} RunView(site: Site, s: Sys, ds: seq<Deed>, id: string)
    requires site.Separate() && Sound(site, s) && Addressed(site, ds) && id in site.volumes
    ensures Exec(site, s, ds).books.Keys == s.books.Keys
    ensures Look(site.At(id), Exec(site, s, ds)) == VExec(site.At(id), Look(site.At(id), s), Proj(ds, id))
    decreases |ds|
  {
    if ds == [] {
    } else {
      AddressedParts(site, ds);
      ApplySound(site, s, ds[0]);
      ApplyView(site, s, ds[0], id);
      RunView(site, Apply(site, s, ds[0]), ds[1..], id);
      VExecFirst(site.At(id), Look(site.At(id), s), ds, id);
    }
  }

  lemma VExecFirst(o: Owner, v: View, ds: seq<Deed>, id: string)
    requires ds != []
    ensures VExec(o, v, Proj(ds, id)) ==
      VExec(o, if ds[0].Of? && ds[0].id == id then VStep(o, v, ds[0].event) else v, Proj(ds[1..], id))
  {
    if ds[0].Of? && ds[0].id == id {
      assert ([ds[0].event] + Proj(ds[1..], id))[1..] == Proj(ds[1..], id);
    } else {
      assert Proj(ds, id) == Proj(ds[1..], id);
    }
  }
}
