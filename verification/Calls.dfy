/** Whole RPCs: what they amount to when run alone, when repeated, and when undone. */
module Calls {
  import opened Credentials
  import opened FileSystem
  import opened Finishing
  import opened Isolation
  import opened Lifecycle
  import opened Node
  import opened NodeSteps
  import opened Paths
  import opened Retry
  import opened Safety
  import opened Text
  import opened Volumes

  /** The steps of a call that nothing interrupts. */
  function StepDeeds(cfg: Config, w: World, pc: Pc, env: Env, id: string): seq<Deed>
    decreases Rank(pc)
  {
    if pc.Done? then []
    else
      var c := Pick(env, pc);
      [Of(id, Step(c))] + StepDeeds(cfg, Do(w, EffectOf(cfg, w, pc, c)), NextOf(cfg, w, pc, c), env, id)
  }

  function CallDeeds(cfg: Config, w: World, id: string, call: Call, env: Env): seq<Deed> {
    [Of(id, Start(call))] + StepDeeds(cfg, w, Begin(cfg, call), env, id)
  }

  /** After these deeds the call has answered, and nothing else has happened. */
  ghost predicate Answered(site: Site, s: Sys, ds: seq<Deed>, id: string, result: (World, Response)) {
    var n := Exec(site, s, ds);
    && n.world == result.0
    && n.books.Keys == s.books.Keys
    && (forall other :: other in s.books && other != id ==> n.books[other] == s.books[other])
    && id in s.books && n.books[id].pc.None? && n.books[id].log == s.books[id].log + [result.1]
  }

  lemma {:induction false} StepsAnswer(site: Site, s: Sys, id: string, env: Env)
    requires id in site.volumes && id in s.books && s.books[id].pc.Some? && !s.books[id].pc.value.Done?
    ensures Answered(site, s, StepDeeds(site.cfg, s.world, s.books[id].pc.value, env, id), id,
                     Finish(site.cfg, s.world, s.books[id].pc.value, env))
    decreases Rank(s.books[id].pc.value)
  {
    var pc := s.books[id].pc.value;
    var c := Pick(env, pc);
    var d := Of(id, Step(c));
    var next := NextOf(site.cfg, s.world, pc, c);
    var n := Apply(site, s, d);
    var rest := StepDeeds(site.cfg, n.world, next, env, id);
    StepApplied(site, s, id, c);
    assert ([d] + rest)[1..] == rest;
    if next.Done? {
      assert rest == [];
    } else {
      StepsAnswer(site, n, id, env);
    }
  }

  /** Run alone, the steps of a call amount to the RPC as a whole. */
  lemma CallAnswers(site: Site, s: Sys, id: string, call: Call, env: Env)
    requires id in site.volumes && id in s.books && s.books[id].pc.None?
    ensures Answered(site, s, CallDeeds(site.cfg, s.world, id, call, env), id, Run(site.cfg, s.world, call, env))
  {
    var d := Of(id, Start(call));
    var rest := StepDeeds(site.cfg, s.world, Begin(site.cfg, call), env, id);
    var n := Apply(site, s, d);
    StartApplied(site, s, id, call);
    assert ([d] + rest)[1..] == rest;
    if Begin(site.cfg, call).Done? {
      assert rest == [];
    } else {
      StepsAnswer(site, n, id, env);
    }
  }

  /** A Publish that succeeds has its target mounted. */
  lemma {:induction false} PublishMounts(cfg: Config, w: World, pc: Pc, env: Env, t: Path)
    requires Publishing(pc, t)
    ensures Finish(cfg, w, pc, env).1 == OK ==> t in Finish(cfg, w, pc, env).0.mounts
    decreases Rank(pc)
  {
    if pc.Done? {
    } else {
      var c := Pick(env, pc);
      var n, next := Do(w, EffectOf(cfg, w, pc, c)), NextOf(cfg, w, pc, c);
      if next == Done(OK) {
        assert pc.Checking? || pc.Mounting?;
        if pc.Checking? {
          DoNothing(w);
        }
      } else {
        PublishMounts(cfg, n, next, env, t);
      }
    }
  }

  /** The staging part of a Publish mounts nothing and goes on to the mount check. */
  lemma StagingMountsNothing(cfg: Config, w: World, pc: Pc, c: Choice, t: Path)
    requires Publishing(pc, t) && (pc.Resolving? || pc.Pulling? || pc.Notifying?)
    ensures Do(w, EffectOf(cfg, w, pc, c)).mounts == w.mounts
    ensures var next := NextOf(cfg, w, pc, c); Publishing(next, t) && !next.Making? && !next.Mounting?
  {
    assert EffectOf(cfg, w, pc, c).mnt == map[];
    MountsStay(w, EffectOf(cfg, w, pc, c));
  }

  /** A Publish whose target is mounted already changes no mount; past the staging part it changes nothing. */
  lemma {:induction false} PublishMounted(cfg: Config, w: World, pc: Pc, env: Env, t: Path)
    requires Publishing(pc, t) && !pc.Making? && !pc.Mounting? && t in w.mounts
    ensures Finish(cfg, w, pc, env).0.mounts == w.mounts
    ensures pc.Checking? ==> Finish(cfg, w, pc, env).0 == w
    decreases Rank(pc)
  {
    if pc.Done? {
    } else if pc.Checking? {
      FinishChecking(cfg, w, pc.source, t, pc.readOnly, env);
    } else {
      var c := Pick(env, pc);
      StagingMountsNothing(cfg, w, pc, c, t);
      FinishNext(cfg, w, pc, env);
      PublishMounted(cfg, Do(w, EffectOf(cfg, w, pc, c)), NextOf(cfg, w, pc, c), env, t);
    }
  }

  /**
   * Idempotence of Publish: after a success, repeating the call, however it turns out, leaves the
   * mount table as it is, and for a persistent volume everything.
   */
  lemma PublishTwice(cfg: Config, w: World, call: Call, first: Env, second: Env)
    requires call.PublishVolume? && Run(cfg, w, call, first).1 == OK
    ensures var n := Run(cfg, w, call, first).0;
      && Run(cfg, n, call, second).0.mounts == n.mounts
      && (!IsEphemeral(call.context) ==> Run(cfg, n, call, second).0 == n)
      && call.targetPath.Some? && call.targetPath.value in n.mounts
  {
    var t := call.targetPath.value;
    PublishMounts(cfg, w, Begin(cfg, call), first, t);
    PublishMounted(cfg, Run(cfg, w, call, first).0, Begin(cfg, call), second, t);
  }

  /** Staging succeeds exactly when the request is complete and every one of its parts succeeds. */
  lemma StageSucceedsExactly(cfg: Config, w: World, call: Call, env: Env)
    requires call.StageVolume?
    ensures Run(cfg, w, call, env).1 == OK <==>
      && call.volumeId != "" && call.stagingPath.Some? && call.hasCapability && Loads(call.secrets)
      && env.resolve.outcome.Success? && Wanted(call.context) in cfg.catalog
      && env.pull.outcome.Success? && !Blocked(w.tree, Resolve(w.mounts, call.stagingPath.value))
      && env.notify.outcome.Success?
  {
    if call.stagingPath.Some? {
      DoNothing(w);
      var pc := Resolving(call.stagingPath.value, Wanted(call.context), EndStage);
      var pulling := Pulling(call.stagingPath.value, Wanted(call.context), EndStage);
      assert Finish(cfg, w, pc, env).1 == OK <==>
        env.resolve.outcome.Success? && Wanted(call.context) in cfg.catalog && Finish(cfg, w, pulling, env).1 == OK;
      PullSucceedsExactly(cfg, w, pulling, env);
    }
  }

  lemma PullSucceedsExactly(cfg: Config, w: World, pc: Pc, env: Env)
    requires pc.Pulling? && pc.next.EndStage?
    ensures Finish(cfg, w, pc, env).1 == OK <==>
      env.pull.outcome.Success? && !Blocked(w.tree, Resolve(w.mounts, pc.staging)) && env.notify.outcome.Success?
  {
    FinishNext(cfg, w, pc, env);
    FinishNext(cfg, Do(w, EffectOf(cfg, w, pc, env.pull)), Notifying(pc.staging, EndStage), env);
  }

  lemma MakeSucceeds(o: Owner, w: World, t: Path)
    requires o.Layout() && o.Tidy(w) && t in o.vol.targets && t !in w.mounts && !Blocked(w.tree, t)
    ensures var (e, ok) := MkdirAll(w, t, SMOOTH);
      && ok && o.Tidy(Do(w, e)) && Do(w, e).mounts == w.mounts && t in Do(w, e).tree
      && (forall q :: q in w.tree ==> q in Do(w, e).tree)
      && (forall p :: Blocked(Do(w, e).tree, p) ==> Blocked(w.tree, p))
  {
    var e := MkdirAll(w, t, SMOOTH).0;
    ResolveRoot(o, w, t);
    MountsStay(w, e);
    assert t <= t;
    MkdirIsConfined(o, w, t, SMOOTH);
    OwnStepTidy(o, w, e);
  }

  /** From where the mount is checked on, a faultless Publish of an unmounted target whose source is there succeeds. */
  lemma MountSucceeds(o: Owner, w: World, t: Path)
    requires o.Layout() && o.Tidy(w) && t in o.vol.targets && t !in w.mounts
    requires o.Staging() in w.tree && !Blocked(w.tree, t)
    ensures var (n, r) := Finish(o.cfg, w, Checking(o.Staging(), t, t in o.vol.readOnly), FAULTLESS);
      && r == OK && n.mounts == w.mounts[t := [o.Right(t)]]
      && forall p :: Blocked(n.tree, p) ==> Blocked(w.tree, p)
  {
    ResolveRoot(o, w, t);
    FinishChecking(o.cfg, w, o.Staging(), t, t in o.vol.readOnly, FAULTLESS);
    if t in w.tree {
      BindSucceeds(o, w, t);
    } else {
      MakeSucceeds(o, w, t);
      FinishMaking(o.cfg, w, o.Staging(), t, t in o.vol.readOnly, FAULTLESS);
      BindSucceeds(o, Do(w, MkdirAll(w, t, SMOOTH).0), t);
    }
  }

  lemma BindSucceeds(o: Owner, w: World, t: Path)
    requires o.Layout() && o.Tidy(w) && t in o.vol.targets && t !in w.mounts && o.Staging() in w.tree && t in w.tree
    ensures var (n, r) := Finish(o.cfg, w, Mounting(o.Staging(), t, t in o.vol.readOnly), FAULTLESS);
      r == OK && n.mounts == w.mounts[t := [o.Right(t)]] && n.tree == w.tree
  {
    ResolveRoot(o, w, t);
    ResolveRoot(o, w, o.Staging());
    MountChanges(o, w, t, SMOOTH);
    FinishMounting(o.cfg, w, o.Staging(), t, t in o.vol.readOnly, FAULTLESS);
  }

  /** A faultless pull of a bottle the registry has leaves the staging directory in place, and the way to a target free. */
  lemma PullSucceeds(o: Owner, w: World, t: Path)
    requires o.Layout() && o.Tidy(w) && StagedPart(o, w.tree) && Wanted(o.vol.context) in o.cfg.catalog
    requires t in o.vol.targets && !Blocked(w.tree, o.Staging()) && !Blocked(w.tree, t)
    requires !(o.cfg.cacheDir <= t)
    ensures var (e, ok) := Pull(w, o.Staging(), o.cfg.cacheDir, o.Contents(), SMOOTH);
      && ok && o.Staging() in Do(w, e).tree && Do(w, e).mounts == w.mounts && o.Tidy(Do(w, e)) && !Blocked(Do(w, e).tree, t)
  {
    var (e, ok) := Pull(w, o.Staging(), o.cfg.cacheDir, o.Contents(), SMOOTH);
    ResolveRoot(o, w, o.Staging());
    PullKeeps(o, w, SMOOTH);
    PullIsConfined(o, w, o.Staging(), o.Contents(), SMOOTH);
    OwnStepTidy(o, w, e);
    forall q | q in Do(w, e).tree && q <= t
      ensures !Do(w, e).tree[q].File?
    {
      PullOffTheWay(o, w, t, q);
    }
  }

  lemma PullOffTheWay(o: Owner, w: World, t: Path, q: Path)
    requires o.Layout() && o.Tidy(w) && t in o.vol.targets && q <= t
    ensures q !in Pull(w, o.Staging(), o.cfg.cacheDir, o.Contents(), SMOOTH).0.put
  {
    ResolveRoot(o, w, o.Staging());
    PullWrites(w, o.Staging(), o.cfg.cacheDir, o.Contents(), SMOOTH, q);
    assert Apart(o.Staging(), t) && Apart(t, o.cfg.cacheDir);
    if o.Staging() <= q {
      PrefixTransitive(o.Staging(), q, t);
    }
    if o.cfg.cacheDir <= q {
      PrefixTransitive(o.cfg.cacheDir, q, t);
    }
  }

  /**
   * Publish works: with a bottle the registry has, readable credentials and no file in the way, a
   * faultless ephemeral Publish of an unmounted target succeeds and mounts the staging directory as asked.
   */
  lemma PublishSucceeds(o: Owner, w: World, call: Call)
    requires o.Layout() && o.Tidy(w) && StagedPart(o, w.tree) && o.Ephemeral() && Wanted(o.vol.context) in o.cfg.catalog
    requires call.PublishVolume? && o.Suits(call) && call.volumeId == o.id != "" && call.hasCapability && Loads(call.secrets)
    requires call.targetPath.Some? && call.targetPath.value !in w.mounts
    requires !Blocked(w.tree, o.Staging()) && !Blocked(w.tree, call.targetPath.value)
    ensures var (n, r) := Run(o.cfg, w, call, FAULTLESS);
      r == OK && call.targetPath.value in n.mounts && n.mounts[call.targetPath.value] == [o.Right(call.targetPath.value)]
  {
    var t := call.targetPath.value;
    var (e, ok) := Pull(w, o.Staging(), o.cfg.cacheDir, o.Contents(), SMOOTH);
    assert Apart(t, o.cfg.cacheDir);
    PullSucceeds(o, w, t);
    MountSucceeds(o, Do(w, e), t);
    BeginEphemeral(o, call);
    StagingGoesOn(o, w, t);
  }

  lemma BeginEphemeral(o: Owner, call: Call)
    requires o.Layout() && o.Ephemeral() && call.PublishVolume? && o.Suits(call) && call.volumeId == o.id != ""
    requires call.hasCapability && Loads(call.secrets) && call.targetPath.Some?
    ensures Begin(o.cfg, call) ==
      Resolving(o.Staging(), Wanted(o.vol.context), ThenMount(call.targetPath.value, call.targetPath.value in o.vol.readOnly))
  {
  }

  lemma StagingGoesOn(o: Owner, w: World, t: Path)
    requires Wanted(o.vol.context) in o.cfg.catalog && Pull(w, o.Staging(), o.cfg.cacheDir, o.Contents(), SMOOTH).1
    ensures var next := ThenMount(t, t in o.vol.readOnly);
      Finish(o.cfg, w, Resolving(o.Staging(), Wanted(o.vol.context), next), FAULTLESS) ==
      Finish(o.cfg, Do(w, Pull(w, o.Staging(), o.cfg.cacheDir, o.Contents(), SMOOTH).0),
             Checking(o.Staging(), t, t in o.vol.readOnly), FAULTLESS)
  {
    var next := ThenMount(t, t in o.vol.readOnly);
    FinishResolving(o.cfg, w, o.Staging(), Wanted(o.vol.context), next, FAULTLESS);
    FinishPulled(o.cfg, w, o.Staging(), Wanted(o.vol.context), next, FAULTLESS);
    FinishNotifying(o.cfg, Do(w, Pull(w, o.Staging(), o.cfg.cacheDir, o.Contents(), SMOOTH).0), o.Staging(), next, FAULTLESS);
  }

  /** Where an Unpublish call may stand, and what it has achieved by then. */
  ghost predicate Unpublishing(w: World, pc: Pc, t: Path, staging: Path) {
    match pc
    case Probing(u, s) => u == t && s == staging
    case Unmounting(u, s) => u == t && s == staging
    case Clearing(u, s) => u == t && s == staging
    case Statting(u, s) => u == t && s == staging && TargetGone(w, t)
    case Purging(u, s) => u == t && s == staging && TargetGone(w, t)
    case Done(r) => r != OK
    case _ => false
  }

  ghost predicate TargetGone(w: World, t: Path) {
    t !in w.mounts && NoneBelow(w.tree, Resolve(w.mounts, t))
  }

  lemma RemoveAllGone(w: World, p: Path, c: Choice)
    ensures var (e, outcome) := RemoveAll(w, p, c);
      && Do(w, e).mounts == w.mounts
      && (forall q :: q in Do(w, e).tree ==> q in w.tree)
      && (!outcome.Failure? ==> TargetGone(Do(w, e), p))
  {
    assert Do(w, RemoveAll(w, p, c).0).mounts == w.mounts;
  }

  /** A successful Unpublish has removed the target, and the ephemeral content unless it failed to look for it. */
  lemma {:induction false} UnpublishRemoves(cfg: Config, w: World, pc: Pc, env: Env, t: Path, staging: Path)
    requires Unpublishing(w, pc, t, staging)
    ensures var (n, r) := Finish(cfg, w, pc, env);
      r == OK ==> TargetGone(n, t) && (env.stat.outcome.Success? ==> Resolve(n.mounts, staging) !in n.tree)
    decreases Rank(pc)
  {
    if pc.Done? {
    } else {
      var c := Pick(env, pc);
      var n, next := Do(w, EffectOf(cfg, w, pc, c)), NextOf(cfg, w, pc, c);
      match pc {
        case Probing(_, _) => DoNothing(w);
        case Unmounting(_, _) =>
        case Clearing(_, _) => RemoveAllGone(w, t, c);
        case Statting(_, _) => DoNothing(w);
        case Purging(_, _) => RemoveAllGone(w, staging, c);
      }
      if next == Done(OK) {
        assert Resolve(n.mounts, staging) <= Resolve(n.mounts, staging);
      } else {
        UnpublishRemoves(cfg, n, next, env, t, staging);
      }
    }
  }

  /** With nothing left, no step of Unpublish changes anything. */
  lemma {:induction false} UnpublishOfNothing(cfg: Config, w: World, pc: Pc, env: Env, t: Path, staging: Path)
    requires Unpublishing(w, pc, t, staging) && !pc.Unmounting? && !pc.Purging?
    requires TargetGone(w, t) && Resolve(w.mounts, staging) !in w.tree
    ensures Finish(cfg, w, pc, env).0 == w
    ensures env == FAULTLESS && !pc.Done? ==> Finish(cfg, w, pc, env).1 == OK
    decreases Rank(pc)
  {
    if pc.Done? {
    } else {
      var c := Pick(env, pc);
      var next := NextOf(cfg, w, pc, c);
      DoNothing(w);
      if pc.Clearing? {
        assert Below(w.tree, Resolve(w.mounts, t)) == {};
        assert EffectOf(cfg, w, pc, c) == NOTHING;
      }
      if next != Done(OK) {
        UnpublishOfNothing(cfg, w, next, env, t, staging);
      }
    }
  }

  /**
   * Idempotence of Unpublish: after a success that leaves nothing at the ephemeral staging path,
   * repeating the call changes nothing at all, however it turns out, and without faults it succeeds. A
   * success leaves nothing there if its look for ephemeral content did not fail.
   */
  lemma UnpublishTwice(cfg: Config, w: World, id: string, t: Path, first: Env, second: Env)
    requires Run(cfg, w, UnpublishVolume(id, Some(t)), first).1 == OK
    ensures var n := Run(cfg, w, UnpublishVolume(id, Some(t)), first).0;
      && (first.stat.outcome.Success? ==> Resolve(n.mounts, EphemeralPath(cfg, id)) !in n.tree)
      && (Resolve(n.mounts, EphemeralPath(cfg, id)) !in n.tree ==>
            && Run(cfg, n, UnpublishVolume(id, Some(t)), second).0 == n
            && Run(cfg, n, UnpublishVolume(id, Some(t)), FAULTLESS) == (n, OK))
  {
    var call := UnpublishVolume(id, Some(t));
    var n := Run(cfg, w, call, first).0;
    UnpublishRemoves(cfg, w, Begin(cfg, call), first, t, EphemeralPath(cfg, id));
    if Resolve(n.mounts, EphemeralPath(cfg, id)) !in n.tree {
      UnpublishOfNothing(cfg, n, Begin(cfg, call), second, t, EphemeralPath(cfg, id));
      UnpublishOfNothing(cfg, n, Begin(cfg, call), FAULTLESS, t, EphemeralPath(cfg, id));
    }
  }

  /** The look for ephemeral content decides whether a successful Unpublish leaves any. */
  lemma {:induction false} StatDecides(o: Owner, w: World, pc: Pc, env: Env, t: Path)
    requires o.Layout() && o.Tidy(w) && t in o.vol.targets && Cleaning(pc, t) && o.Fits(pc)
    requires pc.Purging? ==> env.stat.outcome.Success?
    ensures var (n, r) := Finish(o.cfg, w, pc, env);
      r == OK ==> (o.shelter in n.tree <==> o.shelter in w.tree && !env.stat.outcome.Success?)
    decreases Rank(pc)
  {
    var c := Pick(env, pc);
    var n, next := Do(w, EffectOf(o.cfg, w, pc, c)), NextOf(o.cfg, w, pc, c);
    ShelterDuring(o, w, pc, c, t);
    if next.Done? {
    } else {
      StepIsConfined(o, w, pc, c);
      OwnStepTidy(o, w, EffectOf(o.cfg, w, pc, c));
      NextFits(o, pc, VerdictOf(o.cfg, w, pc, c));
      StatDecides(o, n, next, env, t);
    }
  }

  lemma ShelterWhileClearing(o: Owner, w: World, t: Path, c: Choice)
    requires o.Layout() && o.Tidy(w) && t in o.vol.targets
    ensures var (e, outcome) := RemoveAll(w, t, c);
      !outcome.Failure? ==> (o.shelter in Do(w, e).tree <==> o.shelter in w.tree)
  {
    if t !in w.mounts {
      RemoveKeeps(o, w, t, c);
      assert Apart(t, o.shelter);
    }
  }

  lemma ShelterAfterPurge(o: Owner, w: World, c: Choice)
    requires o.Layout() && o.Tidy(w)
    ensures var (e, outcome) := RemoveAll(w, o.shelter, c);
      !outcome.Failure? ==> o.shelter !in Do(w, e).tree
  {
    ResolveRoot(o, w, o.shelter);
    RemoveKeeps(o, w, o.shelter, c);
    assert o.shelter <= o.shelter;
  }

  lemma ShelterDuring(o: Owner, w: World, pc: Pc, c: Choice, t: Path)
    requires o.Layout() && o.Tidy(w) && t in o.vol.targets && Cleaning(pc, t) && o.Fits(pc)
    ensures var n, next := Do(w, EffectOf(o.cfg, w, pc, c)), NextOf(o.cfg, w, pc, c);
      && (next == Done(Internal) || Cleaning(next, t) || next == Done(OK))
      && (!pc.Purging? && next != Done(Internal) ==> (o.shelter in n.tree <==> o.shelter in w.tree))
      && (pc.Purging? && next == Done(OK) ==> o.shelter !in n.tree)
      && (next.Purging? ==> pc.Statting? && c.outcome.Success?)
      && (next == Done(OK) ==> pc.Purging? || (pc.Statting? && (c.outcome.Success? ==> o.shelter !in w.tree)))
  {
    match pc {
      case Probing(_, _) => DoNothing(w);
      case Unmounting(_, _) => assert Do(w, Unmount(w, t, c).0).tree == w.tree;
      case Clearing(_, _) => ShelterWhileClearing(o, w, t, c);
      case Statting(_, _) =>
        DoNothing(w);
        ResolveRoot(o, w, o.shelter);
      case Purging(_, _) => ShelterAfterPurge(o, w, c);
    }
  }

  const STAT_FAULT := FAULTLESS.(stat := Choice(Failure, {}, 0, map[]))

  lemma SkippedCleanup(o: Owner, w: World, t: Path)
    requires Apart(t, o.shelter) && forall m :: m in w.mounts ==> !(m <= t)
    ensures var (n, r) := Finish(o.cfg, w, Clearing(t, o.shelter), STAT_FAULT);
      r == OK && n.mounts == w.mounts && SameBelow(w.tree, n.tree, o.shelter)
  {
    RemoveFree(w, t);
    FinishClearing(o.cfg, w, t, o.shelter, STAT_FAULT);
    FinishStatting(o.cfg, Do(w, RemoveAll(w, t, SMOOTH).0), t, o.shelter, STAT_FAULT);
    forall q | q in w.tree && o.shelter <= q
      ensures !(t <= q)
    {
      if t <= q {
        PrefixLinear(t, o.shelter, q);
      }
    }
  }

  lemma SkippedAfterUnmount(o: Owner, w: World, t: Path)
    requires Apart(t, o.shelter) && forall m :: m in w.mounts && m <= t ==> m == t
    requires t in w.mounts && |w.mounts[t]| == 1
    ensures var (n, r) := Finish(o.cfg, w, Unmounting(t, o.shelter), STAT_FAULT);
      r == OK && t !in n.mounts && SameBelow(w.tree, n.tree, o.shelter)
  {
    UnmountChanges(w, t, SMOOTH);
    FinishUnmounting(o.cfg, w, t, o.shelter, STAT_FAULT);
    SkippedCleanup(o, Do(w, Unmount(w, t, SMOOTH).0), t);
  }

  lemma SkippedFromProbe(o: Owner, w: World, t: Path)
    requires Apart(t, o.shelter) && forall m :: m in w.mounts && m <= t ==> m == t
    requires t in w.mounts ==> |w.mounts[t]| == 1
    ensures var (n, r) := Finish(o.cfg, w, Probing(t, o.shelter), STAT_FAULT);
      r == OK && t !in n.mounts && SameBelow(w.tree, n.tree, o.shelter)
  {
    FinishProbing(o.cfg, w, t, o.shelter, STAT_FAULT);
    if t in w.mounts {
      SkippedAfterUnmount(o, w, t);
    } else {
      SkippedCleanup(o, w, t);
    }
  }

  lemma OnlyOwnMount(o: Owner, w: World, t: Path)
    requires o.Layout() && o.Tidy(w) && t in o.vol.targets
    ensures Apart(t, o.shelter) && forall m :: m in w.mounts && m <= t ==> m == t
  {
    assert t in o.Roots() && o.shelter in o.Roots();
  }

  /** The trees agree at and below the path. */
  ghost predicate SameBelow(a: Tree, b: Tree, p: Path) {
    forall q :: p <= q ==> (q in a <==> q in b) && (q in a ==> a[q] == b[q])
  }

  /**
   * And it may fail: on any node on which the target is mounted at most once, an Unpublish in which
   * nothing fails but this look answers OK and leaves all there is at the ephemeral staging path.
   */
  lemma StatFaultLeaves(o: Owner, w: World, t: Path)
    requires o.Layout() && o.Tidy(w) && o.id != "" && t in o.vol.targets
    requires t in w.mounts ==> |w.mounts[t]| == 1
    ensures var (n, r) := Run(o.cfg, w, UnpublishVolume(o.id, Some(t)), STAT_FAULT);
      r == OK && t !in n.mounts && SameBelow(w.tree, n.tree, o.shelter)
  {
    BeginUnpublish(o.cfg, o.id, t);
    OnlyOwnMount(o, w, t);
    SkippedFromProbe(o, w, t);
  }

  /** An Unpublish keeps all mounts the volume's own. */
  lemma {:induction false} CleaningTidy(o: Owner, w: World, pc: Pc, env: Env, t: Path)
    requires o.Layout() && o.Tidy(w) && t in o.vol.targets && Cleaning(pc, t) && o.Fits(pc)
    ensures o.Tidy(Finish(o.cfg, w, pc, env).0)
    decreases Rank(pc)
  {
    var c := Pick(env, pc);
    var n, next := Do(w, EffectOf(o.cfg, w, pc, c)), NextOf(o.cfg, w, pc, c);
    StepIsConfined(o, w, pc, c);
    OwnStepTidy(o, w, EffectOf(o.cfg, w, pc, c));
    NextFits(o, pc, VerdictOf(o.cfg, w, pc, c));
    ShelterDuring(o, w, pc, c, t);
    if next.Done? {
    } else {
      CleaningTidy(o, n, next, env, t);
    }
  }

  /**
   * Exactly: after a successful Unpublish a faultless repetition changes nothing if and only if there
   * was no ephemeral content to begin with or the look for it did not fail.
   */
  lemma UnpublishTwiceExactly(o: Owner, w: World, t: Path, first: Env)
    requires o.Layout() && o.Tidy(w) && o.id != "" && t in o.vol.targets
    requires Run(o.cfg, w, UnpublishVolume(o.id, Some(t)), first).1 == OK
    ensures var n := Run(o.cfg, w, UnpublishVolume(o.id, Some(t)), first).0;
      && (Run(o.cfg, n, UnpublishVolume(o.id, Some(t)), FAULTLESS).0 == n <==> o.shelter !in n.tree)
      && (o.shelter !in n.tree <==> o.shelter !in w.tree || first.stat.outcome.Success?)
  {
    var n := Run(o.cfg, w, UnpublishVolume(o.id, Some(t)), first).0;
    BeginUnpublish(o.cfg, o.id, t);
    StatDecides(o, w, Probing(t, o.shelter), first, t);
    CleaningTidy(o, w, Probing(t, o.shelter), first, t);
    ResolveRoot(o, n, o.shelter);
    UnpublishRemoves(o.cfg, w, Probing(t, o.shelter), first, t, o.shelter);
    if o.shelter in n.tree {
      FreePurges(o, n, t);
    } else {
      UnpublishTwice(o.cfg, w, o.id, t, first, FAULTLESS);
    }
  }

  lemma FreePurges(o: Owner, w: World, t: Path)
    requires o.Layout() && o.Tidy(w) && t in o.vol.targets && t !in w.mounts && o.shelter in w.tree
    ensures Finish(o.cfg, w, Probing(t, o.shelter), FAULTLESS).0 != w
  {
    assert t in o.Roots() && o.shelter in o.Roots() && Apart(t, o.shelter);
    UnpublishPurges(o.cfg, w, t, o.shelter);
    assert o.shelter <= o.shelter;
  }

  lemma BeginUnpublish(cfg: Config, id: string, t: Path)
    requires id != ""
    ensures Begin(cfg, UnpublishVolume(id, Some(t))) == Probing(t, EphemeralPath(cfg, id))
  {
  }

  /** Going on with calls is always permitted. */
  lemma {:induction false} StepsConform(site: Site, s: Sys, cfg: Config, w: World, pc: Pc, env: Env, id: string)
    ensures ConformingRun(site, s, StepDeeds(cfg, w, pc, env, id))
    decreases Rank(pc)
  {
    if pc.Done? {
    } else {
      var c := Pick(env, pc);
      var d := Of(id, Step(c));
      var rest := StepDeeds(cfg, Do(w, EffectOf(cfg, w, pc, c)), NextOf(cfg, w, pc, c), env, id);
      assert ([d] + rest)[1..] == rest;
      StepsConform(site, Apply(site, s, d), cfg, Do(w, EffectOf(cfg, w, pc, c)), NextOf(cfg, w, pc, c), env, id);
    }
  }

  lemma CallConforms(site: Site, s: Sys, id: string, call: Call, env: Env)
    requires Permitted(site, s, Of(id, Start(call)))
    ensures ConformingRun(site, s, CallDeeds(site.cfg, s.world, id, call, env))
  {
    var d := Of(id, Start(call));
    var rest := StepDeeds(site.cfg, s.world, Begin(site.cfg, call), env, id);
    assert ([d] + rest)[1..] == rest;
    StepsConform(site, Apply(site, s, d), site.cfg, s.world, Begin(site.cfg, call), env, id);
  }

  lemma ReadyGoesOn(o: Owner, w: World, l: Ledger, c: Choice)
    requires Ready(o, w, l) && Proceed(o, w, l, c).pc.Some?
    ensures Ready(o, Do(w, EffectOf(o.cfg, w, l.pc.value, c)), Proceed(o, w, l, c))
    ensures Proceed(o, w, l, c).pc == Some(NextOf(o.cfg, w, l.pc.value, c))
  {
    EventIsSafe(o, w, l, Step(c));
    NoteIsProper(o, w, l, Step(c));
  }

  /** A faultless Unpublish of a safe volume succeeds and leaves nothing. */
  lemma {:induction false} SmoothFinish(o: Owner, w: World, l: Ledger, t: Path)
    requires Ready(o, w, l) && Cleaning(l.pc.value, t)
    ensures Finish(o.cfg, w, l.pc.value, FAULTLESS).1 == OK && Cleared(o, Finish(o.cfg, w, l.pc.value, FAULTLESS).0, t)
    decreases Rank(l.pc.value)
  {
    SmoothCleaning(o, w, l, t);
    if Proceed(o, w, l, SMOOTH).pc.Some? {
      ReadyGoesOn(o, w, l, SMOOTH);
      SmoothFinish(o, Do(w, EffectOf(o.cfg, w, l.pc.value, SMOOTH)), Proceed(o, w, l, SMOOTH), t);
    } else {
      SmoothLast(o, l, VerdictOf(o.cfg, w, l.pc.value, SMOOTH), EffectOf(o.cfg, w, l.pc.value, SMOOTH));
    }
  }

  lemma SmoothLast(o: Owner, l: Ledger, v: Verdict, e: Effect)
    requires l.pc.Some? && !l.pc.value.Done?
    requires var l' := Settle(o, l, SMOOTH, After(l.pc.value, v), e); l'.pc.None? && l'.log == l.log + [OK]
    ensures After(l.pc.value, v) == Done(OK)
  {
    assert (l.log + [After(l.pc.value, v).response])[|l.log|] == (l.log + [OK])[|l.log|];
  }

  lemma SafeUnpublishFinishes(o: Owner, w: World, l: Ledger, t: Path)
    requires o.Layout() && Proper(o, w, l) && Safe(o, w, l) && l.pc.None?
    requires o.id != "" && t in o.vol.targets
    ensures var (n, r) := Run(o.cfg, w, UnpublishVolume(o.id, Some(t)), FAULTLESS);
      r == OK && Cleared(o, n, t)
  {
    var call := UnpublishVolume(o.id, Some(t));
    var l' := Note(o, w, l, Start(call));
    DoNothing(w);
    EventIsSafe(o, w, l, Start(call));
    NoteIsProper(o, w, l, Start(call));
    StartUnpublish(o, w, l, t);
    BeginUnpublish(o.cfg, o.id, t);
    SmoothFinish(o, w, l', t);
  }

  /**
   * Inverse: on a node without the volume, an ephemeral Publish, whether it succeeds or fails at any
   * step, followed by a faultless Unpublish, which succeeds, leaves the node as it was.
   */
  lemma UnpublishUndoesPublish(site: Site, w: World, id: string, call: Call, env: Env)
    requires site.Separate() && Fresh(site, w) && site.volumes.Keys == {id} && id != "" && site.At(id).Ephemeral()
    requires call.PublishVolume? && call.targetPath.Some? && site.At(id).Suits(call)
    ensures var m := Run(site.cfg, w, call, env).0;
      var (n, r) := Run(site.cfg, m, UnpublishVolume(id, Some(call.targetPath.value)), FAULTLESS);
      r == OK && Restored(site, w, n)
  {
    var s := Initial(site, w);
    var t := call.targetPath.value;
    var undo := UnpublishVolume(id, Some(t));
    var a := CallDeeds(site.cfg, w, id, call, env);
    CallConforms(site, s, id, call, env);
    CallAnswers(site, s, id, call, env);
    var m := Exec(site, s, a);
    var b := CallDeeds(site.cfg, m.world, id, undo, FAULTLESS);
    CallConforms(site, m, id, undo, FAULTLESS);
    CallAnswers(site, m, id, undo, FAULTLESS);
    ExecConcat(site, s, a, b);
    ReachedIsSafe(site, w, a);
    SafeUnpublishFinishes(site.At(id), m.world, m.books[id], t);
    CleanIsGone(site, Reached(site, w, a + b).world, id, t);
    GoneIsRestored(site, w, a + b);
  }

  lemma CleanIsGone(site: Site, w: World, id: string, t: Path)
    requires site.Separate() && site.volumes.Keys == {id} && site.At(id).Ephemeral() && t in site.volumes[id].targets
    requires Cleared(site.At(id), w, t)
    ensures Gone(site, w)
  {
    forall other, r | other in site.volumes && r in site.At(other).Roots()
      ensures NoneBelow(w.tree, r) && (r in site.volumes[other].targets ==> r !in w.mounts)
    {
      assert other == id && (r == t || r == site.At(id).shelter);
    }
  }

  /**
   * A conforming run in which a target gets mounted: a faultless ephemeral Publish on a fresh node
   * with no file in the way.
   */
  lemma PublishRunMounts(site: Site, w: World, id: string, call: Call)
    requires site.Separate() && Fresh(site, w) && id in site.volumes && site.At(id).Ephemeral()
    requires call.PublishVolume? && site.At(id).Suits(call) && call.volumeId == id != ""
    requires call.hasCapability && Loads(call.secrets)
    requires call.targetPath.Some? && Wanted(call.context) in site.cfg.catalog
    requires !Blocked(w.tree, site.At(id).Staging()) && !Blocked(w.tree, call.targetPath.value)
    ensures var ds := CallDeeds(site.cfg, w, id, call, FAULTLESS);
      var n := Reached(site, w, ds);
      && Conforming(site, w, ds)
      && call.targetPath.value in n.world.mounts
      && id in n.books && n.books[id].pc.None? && n.books[id].log == [OK]
  {
    var o, t := site.At(id), call.targetPath.value;
    InitialIsSafe(site, w);
    CallConforms(site, Initial(site, w), id, call, FAULTLESS);
    CallAnswers(site, Initial(site, w), id, call, FAULTLESS);
    assert t in o.Roots() && Vacant(o, w, t) && t <= t;
    PublishSucceeds(o, w, call);
  }

  /** A complete Publish request for a persistent volume. */
  ghost predicate StagedPublishRequest(o: Owner, call: Call, t: Path) {
    && call.PublishVolume? && o.Suits(call) && !o.Ephemeral() && call.volumeId == o.id != "" && call.hasCapability
    && call.targetPath == Some(t) && call.stagingPath.Some?
  }

  lemma BeginStagedPublish(o: Owner, call: Call, t: Path)
    requires StagedPublishRequest(o, call, t)
    ensures Begin(o.cfg, call) == Checking(o.Staging(), t, t in o.vol.readOnly) && t in o.vol.targets
  {
  }

  const HALF_MOUNT := FAULTLESS.(mount := Choice(Failure, {}, 1, map[]))

  /**
   * Mount options may be lost: when the mount helper fails between binding and applying the options,
   * Publish of a staged volume fails and leaves the bare mount, and the repeated Publish answers OK
   * without changing it.
   */
  lemma HalfMountIsKept(o: Owner, w: World, call: Call, t: Path)
    requires o.Layout() && o.Tidy(w) && StagedPublishRequest(o, call, t)
    requires o.Staging() in w.tree && t in w.tree && t !in w.mounts
    ensures var (m, first) := Run(o.cfg, w, call, HALF_MOUNT);
      && first == Internal && t in m.mounts && m.mounts[t] == [o.Unfinished()] && o.Unfinished() != o.Right(t)
      && Run(o.cfg, m, call, FAULTLESS) == (m, OK)
  {
    var source, readOnly := o.Staging(), t in o.vol.readOnly;
    BeginStagedPublish(o, call, t);
    ResolveRoot(o, w, t);
    ResolveRoot(o, w, source);
    FinishChecking(o.cfg, w, source, t, readOnly, HALF_MOUNT);
    FinishMounting(o.cfg, w, source, t, readOnly, HALF_MOUNT);
    MountChanges(o, w, t, HALF_MOUNT.mount);
    FinishChecking(o.cfg, Run(o.cfg, w, call, HALF_MOUNT).0, source, t, readOnly, FAULTLESS);
    assert |UNFINISHED| < |Options(readOnly)|;
  }
}
