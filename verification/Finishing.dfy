/** How a call that is run to its end goes on from each of its system calls. */
module Finishing {
  import opened FileSystem
  import opened NodeSteps
  import opened Paths

  /** The next step of a call that is run to its end. */
  lemma FinishNext(cfg: Config, w: World, pc: Pc, env: Env)
    requires !pc.Done?
    ensures var c := Pick(env, pc);
      var n, next := Do(w, EffectOf(cfg, w, pc, c)), NextOf(cfg, w, pc, c);
      Finish(cfg, w, pc, env) == if next.Done? then (n, next.response) else Finish(cfg, n, next, env)
    ensures Do(w, NOTHING) == w
  {
    DoNothing(w);
  }

  lemma FinishResolving(cfg: Config, w: World, staging: Path, wanted: (string, seq<string>), next: Next, env: Env)
    requires env.resolve.outcome.Success? && wanted in cfg.catalog
    ensures Finish(cfg, w, Resolving(staging, wanted, next), env) == Finish(cfg, w, Pulling(staging, wanted, next), env)
  {
    FinishNext(cfg, w, Resolving(staging, wanted, next), env);
  }

  lemma FinishPulled(cfg: Config, w: World, staging: Path, wanted: (string, seq<string>), next: Next, env: Env)
    requires wanted in cfg.catalog && Pull(w, staging, cfg.cacheDir, cfg.catalog[wanted], env.pull).1
    ensures Finish(cfg, w, Pulling(staging, wanted, next), env) ==
      Finish(cfg, Do(w, Pull(w, staging, cfg.cacheDir, cfg.catalog[wanted], env.pull).0), Notifying(staging, next), env)
  {
    FinishNext(cfg, w, Pulling(staging, wanted, next), env);
  }

  lemma FinishNotifying(cfg: Config, w: World, staging: Path, next: Next, env: Env)
    requires env.notify.outcome.Success? && next.ThenMount?
    ensures Finish(cfg, w, Notifying(staging, next), env) == Finish(cfg, w, Checking(staging, next.target, next.readOnly), env)
  {
    FinishNext(cfg, w, Notifying(staging, next), env);
  }

  lemma FinishChecking(cfg: Config, w: World, source: Path, t: Path, readOnly: bool, env: Env)
    ensures Finish(cfg, w, Checking(source, t, readOnly), env) ==
      match ProbeMount(w, t, env.probe)
      case Unknown => (w, Internal)
      case Mounted => (w, OK)
      case Absent => Finish(cfg, w, Making(source, t, readOnly), env)
      case Plain => Finish(cfg, w, Mounting(source, t, readOnly), env)
  {
    FinishNext(cfg, w, Checking(source, t, readOnly), env);
  }

  lemma FinishMaking(cfg: Config, w: World, source: Path, t: Path, readOnly: bool, env: Env)
    ensures var (effect, made) := MkdirAll(w, t, env.mkdir);
      Finish(cfg, w, Making(source, t, readOnly), env) ==
        if made then Finish(cfg, Do(w, effect), Mounting(source, t, readOnly), env) else (Do(w, effect), Internal)
  {
    FinishNext(cfg, w, Making(source, t, readOnly), env);
  }

  lemma FinishMounting(cfg: Config, w: World, source: Path, t: Path, readOnly: bool, env: Env)
    ensures var (effect, mounted) := BindMount(w, source, t, Options(readOnly), env.mount);
      Finish(cfg, w, Mounting(source, t, readOnly), env) == (Do(w, effect), if mounted then OK else Internal)
  {
    FinishNext(cfg, w, Mounting(source, t, readOnly), env);
  }

  lemma FinishProbing(cfg: Config, w: World, t: Path, staging: Path, env: Env)
    ensures Finish(cfg, w, Probing(t, staging), env) ==
      match ProbeMount(w, t, env.probe)
      case Unknown => (w, Internal)
      case Mounted => Finish(cfg, w, Unmounting(t, staging), env)
      case Absent => Finish(cfg, w, Clearing(t, staging), env)
      case Plain => Finish(cfg, w, Clearing(t, staging), env)
  {
    FinishNext(cfg, w, Probing(t, staging), env);
  }

  lemma FinishUnmounting(cfg: Config, w: World, t: Path, staging: Path, env: Env)
    ensures var (effect, unmounted) := Unmount(w, t, env.unmount);
      Finish(cfg, w, Unmounting(t, staging), env) ==
        if unmounted then Finish(cfg, Do(w, effect), Clearing(t, staging), env) else (Do(w, effect), Internal)
  {
    FinishNext(cfg, w, Unmounting(t, staging), env);
  }

  lemma FinishClearing(cfg: Config, w: World, t: Path, staging: Path, env: Env)
    ensures var (effect, outcome) := RemoveAll(w, t, env.clear);
      Finish(cfg, w, Clearing(t, staging), env) ==
        if outcome.Failure? then (Do(w, effect), Internal) else Finish(cfg, Do(w, effect), Statting(t, staging), env)
  {
    FinishNext(cfg, w, Clearing(t, staging), env);
  }

  lemma FinishStatting(cfg: Config, w: World, t: Path, staging: Path, env: Env)
    ensures Finish(cfg, w, Statting(t, staging), env) ==
      if env.stat.outcome.Success? && Resolve(w.mounts, staging) in w.tree then Finish(cfg, w, Purging(t, staging), env)
      else (w, OK)
  {
    FinishNext(cfg, w, Statting(t, staging), env);
  }

  lemma FinishPurging(cfg: Config, w: World, t: Path, staging: Path, env: Env)
    ensures var (effect, outcome) := RemoveAll(w, staging, env.purge);
      Finish(cfg, w, Purging(t, staging), env) == (Do(w, effect), if outcome.Failure? then Internal else OK)
  {
    FinishNext(cfg, w, Purging(t, staging), env);
  }

  lemma FinishUnstaging(cfg: Config, w: World, staging: Path, env: Env)
    ensures var (effect, outcome) := RemoveAll(w, staging, env.purge);
      Finish(cfg, w, Unstaging(staging), env) == (Do(w, effect), if outcome.Failure? then Internal else OK)
  {
    FinishNext(cfg, w, Unstaging(staging), env);
  }

  lemma FinishStage(cfg: Config, w: World, staging: Path, env: Env)
    ensures Finish(cfg, w, Notifying(staging, EndStage), env) == (w, if env.notify.outcome.Success? then OK else Internal)
  {
    FinishNext(cfg, w, Notifying(staging, EndStage), env);
  }

  lemma FinishPulling(cfg: Config, w: World, staging: Path, wanted: (string, seq<string>), env: Env)
    requires wanted in cfg.catalog
    ensures var (effect, pulled) := Pull(w, staging, cfg.cacheDir, cfg.catalog[wanted], env.pull);
      Finish(cfg, w, Pulling(staging, wanted, EndStage), env) ==
        (Do(w, effect), if pulled && env.notify.outcome.Success? then OK else Internal)
  {
    var (effect, pulled) := Pull(w, staging, cfg.cacheDir, cfg.catalog[wanted], env.pull);
    if pulled {
      FinishPulled(cfg, w, staging, wanted, EndStage, env);
      FinishStage(cfg, Do(w, effect), staging, env);
    } else {
      FinishNext(cfg, w, Pulling(staging, wanted, EndStage), env);
    }
  }

  /** A removal with no mount in the way takes all there is at the path. */
  lemma RemoveFree(w: World, p: Path)
    requires forall m :: m in w.mounts ==> !(m <= p)
    ensures var (e, outcome) := RemoveAll(w, p, SMOOTH);
      && outcome.Success? && Do(w, e).mounts == w.mounts && Resolve(w.mounts, p) == p
      && (forall q :: q in Do(w, e).tree <==> q in w.tree && !(p <= q))
  {
    assert p <= p;
    ResolveAt(w.mounts, p, |p|);
    assert Do(w, RemoveAll(w, p, SMOOTH).0).mounts == w.mounts;
  }

  /** A faultless Unpublish of a target that is not mounted removes all there is at the ephemeral staging path. */
  lemma UnpublishPurges(cfg: Config, w: World, t: Path, staging: Path)
    requires Apart(t, staging) && staging in w.tree
    requires forall m :: m in w.mounts ==> !(m <= t) && !(m <= staging)
    ensures var (n, r) := Finish(cfg, w, Probing(t, staging), FAULTLESS);
      r == OK && n.mounts == w.mounts && forall q :: q in n.tree ==> !(staging <= q)
  {
    var m := Do(w, RemoveAll(w, t, SMOOTH).0);
    RemoveFree(w, t);
    RemoveFree(m, staging);
    assert t <= t;
    FinishProbing(cfg, w, t, staging, FAULTLESS);
    FinishClearing(cfg, w, t, staging, FAULTLESS);
    FinishStatting(cfg, m, t, staging, FAULTLESS);
    FinishPurging(cfg, m, t, staging, FAULTLESS);
  }
}
