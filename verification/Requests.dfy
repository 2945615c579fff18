/** What a node makes of the text of a request: which bottle it stages, where it stages it, and what it mounts. */
module Requests {
  import opened Calls
  import opened Credentials
  import opened FileSystem
  import opened Finishing
  import opened Isolation
  import opened Lifecycle
  import opened NodeSteps
  import opened Paths
  import opened Safety
  import opened Text

  /** Staging for an ephemeral Publish is staging, followed by the mounting part if it succeeds. */
  lemma StageThenMount(cfg: Config, w: World, pc: Pc, env: Env, t: Path, readOnly: bool)
    requires Publishing(pc, t) && (pc.Resolving? || pc.Pulling? || pc.Notifying?) && pc.next.readOnly == readOnly
    ensures var (n, r) := Finish(cfg, w, AsStage(pc), env);
      Finish(cfg, w, pc, env) == if r == OK then Finish(cfg, n, Checking(pc.staging, t, readOnly), env) else (n, Internal)
    decreases Rank(pc)
  {
    var c := Pick(env, pc);
    var n := Do(w, EffectOf(cfg, w, pc, c));
    var next := NextOf(cfg, w, pc, c);
    assert EffectOf(cfg, w, AsStage(pc), c) == EffectOf(cfg, w, pc, c);
    if next.Pulling? || next.Notifying? {
      StageThenMount(cfg, n, next, env, t, readOnly);
    }
  }

  function AsStage(pc: Pc): Pc
    requires pc.Resolving? || pc.Pulling? || pc.Notifying?
  {
    match pc
    case Resolving(s, wanted, _) => Resolving(s, wanted, EndStage)
    case Pulling(s, wanted, _) => Pulling(s, wanted, EndStage)
    case Notifying(s, _) => Notifying(s, EndStage)
  }

  /** The bottle's entries are at and below the place. */
  ghost predicate Delivered(tree: Tree, place: Path, bottle: Bottle) {
    forall r :: r in bottle ==> place + r in tree && tree[place + r] == bottle[r]
  }

  lemma PullDelivers(w: World, p: Path, cacheDir: Path, b: Bottle, c: Choice)
    ensures var (e, ok) := Pull(w, p, cacheDir, b, c);
      Do(w, e).mounts == w.mounts && (ok ==> Delivered(Do(w, e).tree, Resolve(w.mounts, p), b))
  {
    var (e, ok) := Pull(w, p, cacheDir, b, c);
    var place := Resolve(w.mounts, p);
    MountsStay(w, e);
    if ok {
      forall r | r in b
        ensures place + r in e.put && e.put[place + r] == b[r]
      {
        assert (place + r)[|place|..] == r && place <= place + r;
      }
    }
  }

  /** Staging delivers the wanted bottle or fails, and without one nothing is touched. */
  lemma StageDelivers(cfg: Config, w: World, staging: Path, wanted: (string, seq<string>), env: Env)
    ensures var (n, r) := Finish(cfg, w, Resolving(staging, wanted, EndStage), env);
      && n.mounts == w.mounts && (r == OK || r == Internal)
      && (r == OK ==> wanted in cfg.catalog && Delivered(n.tree, Resolve(w.mounts, staging), cfg.catalog[wanted]))
      && (wanted !in cfg.catalog ==> n == w && r == Internal)
  {
    if env.resolve.outcome.Success? && wanted in cfg.catalog {
      FinishResolving(cfg, w, staging, wanted, EndStage, env);
      FinishPulling(cfg, w, staging, wanted, env);
      PullDelivers(w, staging, cfg.cacheDir, cfg.catalog[wanted], env.pull);
    } else {
      FinishNext(cfg, w, Resolving(staging, wanted, EndStage), env);
    }
  }

  lemma StageDeliversAsked(cfg: Config, w: World, staging: Path, context: Context, env: Env)
    ensures var (n, r) := Finish(cfg, w, Resolving(staging, Wanted(context), EndStage), env);
      && n.mounts == w.mounts
      && forall ref, labels :: Asks(context, ref, labels) ==>
           && (r == OK ==> (ref, labels) in cfg.catalog && Delivered(n.tree, Resolve(w.mounts, staging), cfg.catalog[(ref, labels)]))
           && ((ref, labels) !in cfg.catalog ==> n == w && r == Internal)
  {
    StageDelivers(cfg, w, staging, Wanted(context), env);
    forall ref, labels | Asks(context, ref, labels)
      ensures Wanted(context) == (ref, labels)
    {
      WantedMeans(context, ref, labels);
    }
  }

  lemma StageCallDelivers(cfg: Config, w: World, call: Call, env: Env)
    requires call.StageVolume?
    ensures var (n, r) := Run(cfg, w, call, env);
      && n.mounts == w.mounts
      && (r == OK ==> call.stagingPath.Some?)
      && (r == OK ==> forall ref, labels :: Asks(call.context, ref, labels) ==>
            && (ref, labels) in cfg.catalog
            && Delivered(n.tree, Resolve(w.mounts, call.stagingPath.value), cfg.catalog[(ref, labels)]))
  {
    if call.stagingPath.Some? {
      StageDeliversAsked(cfg, w, call.stagingPath.value, call.context, env);
    }
  }

  /** The tree only gains directories on the way to the target. */
  ghost predicate OnlyMakes(w: World, n: World, t: Path) {
    && (forall q :: q in w.tree ==> q in n.tree && n.tree[q] == w.tree[q])
    && (forall q :: q in n.tree && q !in w.tree ==> n.tree[q] == Dir && q <= Resolve(w.mounts, t))
  }

  /**
   * What a Publish does to the mount table: with the answer OK a target that is not mounted gets one
   * mount of the source, with the options asked for; a failure mounts nothing, or leaves that mount
   * without its options.
   */
  ghost predicate MountedAs(before: map<Path, seq<Mount>>, after: map<Path, seq<Mount>>, t: Path, source: Path,
                            readOnly: bool, answer: Response) {
    if after == before then answer == OK ==> t in before
    else
      && t !in before
      && after == before[t := [Mount(Resolve(before, source),
                                     if answer == OK then ["bind", "noexec"] + (if readOnly then ["ro"] else []) else ["bind"])]]
  }

  lemma BindOnly(cfg: Config, w: World, source: Path, t: Path, readOnly: bool, env: Env)
    requires t !in w.mounts
    ensures var (n, r) := Finish(cfg, w, Mounting(source, t, readOnly), env);
      n.tree == w.tree && MountedAs(w.mounts, n.mounts, t, source, readOnly, r)
  {
    FinishMounting(cfg, w, source, t, readOnly, env);
    var (e, ok) := BindMount(w, source, t, Options(readOnly), env.mount);
    if e.mnt == map[] {
      DoNothing(w);
    } else {
      var m := Mount(Resolve(w.mounts, source), if ok then Options(readOnly) else UNFINISHED);
      assert [] + [m] == [m];
      assert t in e.mnt;
      SetStack(w, t, [m]);
      assert t in w.mounts[t := [m]];
    }
  }

  /** From the mount check on. */
  lemma MountingOnly(cfg: Config, w: World, source: Path, t: Path, readOnly: bool, env: Env)
    ensures var (n, r) := Finish(cfg, w, Checking(source, t, readOnly), env);
      OnlyMakes(w, n, t) && MountedAs(w.mounts, n.mounts, t, source, readOnly, r)
  {
    FinishChecking(cfg, w, source, t, readOnly, env);
    match ProbeMount(w, t, env.probe) {
      case Unknown =>
      case Mounted =>
      case Absent =>
        FinishMaking(cfg, w, source, t, readOnly, env);
        var m := Do(w, MkdirAll(w, t, env.mkdir).0);
        MkdirOnlyMakes(w, t, env.mkdir);
        BindOnly(cfg, m, source, t, readOnly, env);
      case Plain => BindOnly(cfg, w, source, t, readOnly, env);
    }
  }

  lemma MkdirOnlyMakes(w: World, t: Path, c: Choice)
    ensures var n := Do(w, MkdirAll(w, t, c).0); OnlyMakes(w, n, t) && n.mounts == w.mounts
  {
    MountsStay(w, MkdirAll(w, t, c).0);
  }

  /** A complete Publish request. */
  predicate CompletePublish(call: Call) {
    call.PublishVolume? && call.hasCapability && call.volumeId != "" && call.targetPath.Some?
  }

  /**
   * A Publish whose context does not have the value "true" under the key for ephemeral volumes: without
   * a staging path it is refused; otherwise it mounts the staging path of the request, and the tree
   * gains nothing but the target.
   */
  lemma PersistentPublish(cfg: Config, w: World, call: Call, env: Env)
    requires CompletePublish(call)
    requires "csi.storage.k8s.io/ephemeral" !in call.context || call.context["csi.storage.k8s.io/ephemeral"] != "true"
    ensures call.stagingPath.None? ==> Run(cfg, w, call, env) == (w, InvalidArgument)
    ensures call.stagingPath.Some? ==>
      var (n, r) := Run(cfg, w, call, env);
      && OnlyMakes(w, n, call.targetPath.value)
      && MountedAs(w.mounts, n.mounts, call.targetPath.value, call.stagingPath.value, call.readOnly, r)
  {
    if call.stagingPath.Some? {
      MountingOnly(cfg, w, call.stagingPath.value, call.targetPath.value, call.readOnly, env);
    }
  }

  /** It asks nobody: neither the registry, its answers, the credentials nor telemetry make a difference. */
  lemma PersistentPublishAsksNobody(cfg: Config, w: World, call: Call, env: Env,
                                    catalog: map<(string, seq<string>), Bottle>, secrets: DockerConfig,
                                    resolve: Choice, pull: Choice, notify: Choice)
    requires CompletePublish(call)
    requires "csi.storage.k8s.io/ephemeral" !in call.context || call.context["csi.storage.k8s.io/ephemeral"] != "true"
    ensures Run(cfg.(catalog := catalog), w, call.(secrets := secrets), env.(resolve := resolve, pull := pull, notify := notify)) ==
      Run(cfg, w, call, env)
  {
    if call.stagingPath.Some? {
      MountingIsLocal(cfg, cfg.(catalog := catalog), w, call.stagingPath.value, call.targetPath.value, call.readOnly,
                      env, env.(resolve := resolve, pull := pull, notify := notify));
    }
  }

  lemma MountingIsLocal(a: Config, b: Config, w: World, source: Path, t: Path, readOnly: bool, first: Env, second: Env)
    requires first.probe == second.probe && first.mkdir == second.mkdir && first.mount == second.mount
    ensures Finish(a, w, Checking(source, t, readOnly), first) == Finish(b, w, Checking(source, t, readOnly), second)
  {
    FinishChecking(a, w, source, t, readOnly, first);
    FinishChecking(b, w, source, t, readOnly, second);
    FinishMaking(a, w, source, t, readOnly, first);
    FinishMaking(b, w, source, t, readOnly, second);
    var m := Do(w, MkdirAll(w, t, first.mkdir).0);
    FinishMounting(a, w, source, t, readOnly, first);
    FinishMounting(b, w, source, t, readOnly, second);
    FinishMounting(a, m, source, t, readOnly, first);
    FinishMounting(b, m, source, t, readOnly, second);
  }

  /**
   * A Publish whose context has the value "true" there: the bottle it asks for is staged in the
   * directory of the volume's ID, and that directory is mounted.
   */
  lemma EphemeralPublish(cfg: Config, w: World, call: Call, env: Env)
    requires CompletePublish(call)
    requires "csi.storage.k8s.io/ephemeral" in call.context && call.context["csi.storage.k8s.io/ephemeral"] == "true"
    ensures var (n, r) := Run(cfg, w, call, env);
      var staging := JoinPath(cfg.ephemeralStagingDir, call.volumeId);
      && MountedAs(w.mounts, n.mounts, call.targetPath.value, staging, call.readOnly, r)
      && (r == OK ==> forall ref, labels :: Asks(call.context, ref, labels) ==>
            (ref, labels) in cfg.catalog && Delivered(n.tree, Resolve(w.mounts, staging), cfg.catalog[(ref, labels)]))
  {
    if Loads(call.secrets) {
      StagedPublishing(cfg, w, JoinPath(cfg.ephemeralStagingDir, call.volumeId), call.context, call.targetPath.value, call.readOnly, env);
    }
  }

  /** Whatever staging path it gives. */
  lemma EphemeralPublishIgnoresPath(cfg: Config, w: World, id: string, t: Option<Path>, given: Option<Path>, hasCapability: bool,
                                    context: Context, secrets: DockerConfig, readOnly: bool, env: Env)
    requires "csi.storage.k8s.io/ephemeral" in context && context["csi.storage.k8s.io/ephemeral"] == "true"
    ensures Run(cfg, w, PublishVolume(id, t, given, hasCapability, context, secrets, readOnly), env) ==
      Run(cfg, w, PublishVolume(id, t, None, hasCapability, context, secrets, readOnly), env)
  {
  }

  lemma StagedPublishing(cfg: Config, w: World, staging: Path, context: Context, t: Path, readOnly: bool, env: Env)
    ensures var (n, r) := Finish(cfg, w, Resolving(staging, Wanted(context), ThenMount(t, readOnly)), env);
      && MountedAs(w.mounts, n.mounts, t, staging, readOnly, r)
      && (r == OK ==> forall ref, labels :: Asks(context, ref, labels) ==>
            (ref, labels) in cfg.catalog && Delivered(n.tree, Resolve(w.mounts, staging), cfg.catalog[(ref, labels)]))
  {
    var (m, staged) := Finish(cfg, w, Resolving(staging, Wanted(context), EndStage), env);
    StageThenMount(cfg, w, Resolving(staging, Wanted(context), ThenMount(t, readOnly)), env, t, readOnly);
    StageDeliversAsked(cfg, w, staging, context, env);
    MountingOnly(cfg, m, staging, t, readOnly, env);
  }

  /** Both kinds of Publish at once, with the refusals. */
  lemma PublishMeans(cfg: Config, w: World, call: Call, env: Env)
    requires call.PublishVolume? && call.targetPath.Some?
    ensures var (n, r) := Run(cfg, w, call, env);
      var staging := JoinPath(cfg.ephemeralStagingDir, call.volumeId);
      if "csi.storage.k8s.io/ephemeral" in call.context && call.context["csi.storage.k8s.io/ephemeral"] == "true" then
        && MountedAs(w.mounts, n.mounts, call.targetPath.value, staging, call.readOnly, r)
        && (r == OK ==> forall ref, labels :: Asks(call.context, ref, labels) ==>
              (ref, labels) in cfg.catalog && Delivered(n.tree, Resolve(w.mounts, staging), cfg.catalog[(ref, labels)]))
      else if call.stagingPath.Some? then
        && OnlyMakes(w, n, call.targetPath.value)
        && MountedAs(w.mounts, n.mounts, call.targetPath.value, call.stagingPath.value, call.readOnly, r)
      else n == w && r == InvalidArgument
  {
    if CompletePublish(call) {
      if "csi.storage.k8s.io/ephemeral" in call.context && call.context["csi.storage.k8s.io/ephemeral"] == "true" {
        EphemeralPublish(cfg, w, call, env);
      } else {
        PersistentPublish(cfg, w, call, env);
      }
    }
  }

  /** A path with nothing on it, no mount over it and no file in its way, apart from the cache. */
  ghost predicate Free(w: World, cacheDir: Path, p: Path) {
    && (forall m :: m in w.mounts ==> !(m <= p)) && !Blocked(w.tree, p) && NoneBelow(w.tree, p) && Apart(p, cacheDir)
  }

  lemma ResolveFree(w: World, cacheDir: Path, p: Path)
    requires Free(w, cacheDir, p)
    ensures Resolve(w.mounts, p) == p
  {
    ResolveAt(w.mounts, p, |p|);
  }

  /** A faultless pull to a free path delivers the bottle and nothing else there. */
  lemma PullToFree(w: World, p: Path, cacheDir: Path, b: Bottle)
    requires Free(w, cacheDir, p) && BottleOK(b)
    ensures var (e, ok) := Pull(w, p, cacheDir, b, SMOOTH);
      ok && Do(w, e).mounts == w.mounts && ShowsBottle(Do(w, e).tree, p, b)
  {
    var (e, ok) := Pull(w, p, cacheDir, b, SMOOTH);
    ResolveFree(w, cacheDir, p);
    PullDelivers(w, p, cacheDir, b, SMOOTH);
    forall r | p + r in Do(w, e).tree
      ensures r in b
    {
      PulledToFree(w, p, cacheDir, b, r);
    }
  }

  lemma PulledToFree(w: World, p: Path, cacheDir: Path, b: Bottle, r: Path)
    requires Free(w, cacheDir, p) && BottleOK(b) && p + r in Do(w, Pull(w, p, cacheDir, b, SMOOTH).0).tree
    ensures r in b
  {
    var q := p + r;
    ResolveFree(w, cacheDir, p);
    assert p <= q && q[|p|..] == r;
    if cacheDir <= q {
      PrefixLinear(p, cacheDir, q);
    }
    if q <= cacheDir {
      PrefixTransitive(p, q, cacheDir);
    }
    PullAt(w, p, cacheDir, b, SMOOTH, q);
    PullWrites(w, p, cacheDir, b, SMOOTH, q);
    if q <= p {
      assert r == [];
    }
  }

  /** A faultless Stage at a free path delivers exactly the bottle its context asks for, if the registry has it. */
  lemma StageAtFree(cfg: Config, w: World, call: Call, ref: string, labels: seq<string>)
    requires call.StageVolume? && call.volumeId != "" && call.hasCapability && Loads(call.secrets)
    requires call.stagingPath.Some? && Free(w, cfg.cacheDir, call.stagingPath.value) && Asks(call.context, ref, labels)
    requires (ref, labels) in cfg.catalog ==> BottleOK(cfg.catalog[(ref, labels)])
    ensures var (n, r) := Run(cfg, w, call, FAULTLESS);
      if (ref, labels) in cfg.catalog then
        r == OK && n.mounts == w.mounts && ShowsBottle(n.tree, call.stagingPath.value, cfg.catalog[(ref, labels)])
      else (n, r) == (w, Internal)
  {
    WantedMeans(call.context, ref, labels);
    var p := call.stagingPath.value;
    if (ref, labels) in cfg.catalog {
      PullToFree(w, p, cfg.cacheDir, cfg.catalog[(ref, labels)]);
      FinishResolving(cfg, w, p, (ref, labels), EndStage, FAULTLESS);
      FinishPulling(cfg, w, p, (ref, labels), FAULTLESS);
    } else {
      StageDelivers(cfg, w, p, (ref, labels), FAULTLESS);
    }
  }

  /**
   * The text of a Stage request: "bottle" gives the reference and "selector" the selectors; without
   * "selector" all parts are asked for, and without "bottle" the empty reference.
   */
  lemma StageByText(cfg: Config, w: World, id: string, p: Path, base: Context, secrets: DockerConfig, ref: string, labels: seq<string>)
    requires id != "" && Loads(secrets) && Free(w, cfg.cacheDir, p)
    requires |labels| >= 1 && forall i :: 0 <= i < |labels| ==> '|' !in labels[i]
    requires forall key :: key in cfg.catalog ==> BottleOK(cfg.catalog[key])
    ensures var (n, r) := Run(cfg, w, StageVolume(id, Some(p), true, base["bottle" := ref]["selector" := Join(labels, '|')], secrets), FAULTLESS);
      if (ref, labels) in cfg.catalog then r == OK && ShowsBottle(n.tree, p, cfg.catalog[(ref, labels)]) else (n, r) == (w, Internal)
    ensures var (n, r) := Run(cfg, w, StageVolume(id, Some(p), true, (base - {"selector"})["bottle" := ref], secrets), FAULTLESS);
      if (ref, []) in cfg.catalog then r == OK && ShowsBottle(n.tree, p, cfg.catalog[(ref, [])]) else (n, r) == (w, Internal)
    ensures var (n, r) := Run(cfg, w, StageVolume(id, Some(p), true, base - {"selector", "bottle"}, secrets), FAULTLESS);
      if ("", []) in cfg.catalog then r == OK && ShowsBottle(n.tree, p, cfg.catalog[("", [])]) else (n, r) == (w, Internal)
  {
    AsksByText(base, ref, labels);
    StageAtFree(cfg, w, StageVolume(id, Some(p), true, base["bottle" := ref]["selector" := Join(labels, '|')], secrets), ref, labels);
    StageAtFree(cfg, w, StageVolume(id, Some(p), true, (base - {"selector"})["bottle" := ref], secrets), ref, []);
    StageAtFree(cfg, w, StageVolume(id, Some(p), true, base - {"selector", "bottle"}, secrets), "", []);
  }

  lemma AsksByText(base: Context, ref: string, labels: seq<string>)
    requires |labels| >= 1 && forall i :: 0 <= i < |labels| ==> '|' !in labels[i]
    ensures Asks(base["bottle" := ref]["selector" := Join(labels, '|')], ref, labels)
    ensures Asks((base - {"selector"})["bottle" := ref], ref, [])
    ensures Asks(base - {"selector", "bottle"}, "", [])
  {
    assert "bottle" != "selector";
  }

  /** A target that can be mounted apart from a staging path. */
  ghost predicate FreeTarget(w: World, cacheDir: Path, p: Path, t: Path) {
    (forall m :: m in w.mounts ==> !(m <= t)) && !Blocked(w.tree, t) && Apart(p, t) && Apart(t, cacheDir)
  }

  lemma PullLeavesTarget(w: World, p: Path, cacheDir: Path, b: Bottle, t: Path)
    requires Free(w, cacheDir, p) && FreeTarget(w, cacheDir, p, t)
    ensures !Blocked(Do(w, Pull(w, p, cacheDir, b, SMOOTH).0).tree, t)
  {
    ResolveFree(w, cacheDir, p);
    var e := Pull(w, p, cacheDir, b, SMOOTH).0;
    forall q | q <= t
      ensures q !in e.put
    {
      PullWrites(w, p, cacheDir, b, SMOOTH, q);
      if p <= q {
        PrefixTransitive(p, q, t);
      }
      if cacheDir <= q {
        PrefixTransitive(cacheDir, q, t);
      }
    }
  }

  /** A faultless mount of a directory on a free target. */
  lemma MountOnFree(cfg: Config, w: World, p: Path, t: Path, readOnly: bool)
    requires (forall m :: m in w.mounts ==> !(m <= t) && !(m <= p)) && !Blocked(w.tree, t) && p in w.tree
    ensures var (n, r) := Finish(cfg, w, Checking(p, t, readOnly), FAULTLESS);
      r == OK && n.mounts == w.mounts[t := [Mount(p, Options(readOnly))]]
  {
    assert t <= t;
    ResolveAt(w.mounts, t, |t|);
    ResolveAt(w.mounts, p, |p|);
    FinishChecking(cfg, w, p, t, readOnly, FAULTLESS);
    if t in w.tree {
      BindOnFree(cfg, w, p, t, readOnly);
    } else {
      var m := Do(w, MkdirAll(w, t, SMOOTH).0);
      MkdirOnlyMakes(w, t, SMOOTH);
      FinishMaking(cfg, w, p, t, readOnly, FAULTLESS);
      BindOnFree(cfg, m, p, t, readOnly);
    }
  }

  lemma BindOnFree(cfg: Config, w: World, p: Path, t: Path, readOnly: bool)
    requires t !in w.mounts && Resolve(w.mounts, t) == t && Resolve(w.mounts, p) == p && p in w.tree && t in w.tree
    ensures var (n, r) := Finish(cfg, w, Mounting(p, t, readOnly), FAULTLESS);
      r == OK && n.mounts == w.mounts[t := [Mount(p, Options(readOnly))]]
  {
    FinishMounting(cfg, w, p, t, readOnly, FAULTLESS);
    assert [] + [Mount(p, Options(readOnly))] == [Mount(p, Options(readOnly))];
    SetStack(w, t, [Mount(p, Options(readOnly))]);
  }

  lemma ShowsStill(w: World, n: World, p: Path, b: Bottle, t: Path)
    requires ShowsBottle(w.tree, p, b) && OnlyMakes(w, n, t) && Resolve(w.mounts, t) == t && Apart(p, t)
    ensures ShowsBottle(n.tree, p, b)
  {
    forall r | p + r in n.tree
      ensures p + r in w.tree
    {
      assert p <= p + r;
      if p + r <= t {
        PrefixTransitive(p, p + r, t);
      }
    }
  }

  /**
   * A faultless ephemeral Publish on a free node stages exactly the bottle its context asks for in the
   * directory of its ID and mounts it with the options asked for.
   */
  lemma PublishByText(cfg: Config, w: World, id: string, t: Path, given: Option<Path>, base: Context, secrets: DockerConfig,
                      readOnly: bool, ref: string, labels: seq<string>)
    requires id != "" && Loads(secrets) && |labels| >= 1 && forall i :: 0 <= i < |labels| ==> '|' !in labels[i]
    requires (ref, labels) in cfg.catalog && BottleOK(cfg.catalog[(ref, labels)])
    requires Free(w, cfg.cacheDir, JoinPath(cfg.ephemeralStagingDir, id))
    requires FreeTarget(w, cfg.cacheDir, JoinPath(cfg.ephemeralStagingDir, id), t)
    ensures var context := base["csi.storage.k8s.io/ephemeral" := "true"]["bottle" := ref]["selector" := Join(labels, '|')];
      var (n, r) := Run(cfg, w, PublishVolume(id, Some(t), given, true, context, secrets, readOnly), FAULTLESS);
      var p := JoinPath(cfg.ephemeralStagingDir, id);
      && r == OK
      && n.mounts == w.mounts[t := [Mount(p, ["bind", "noexec"] + (if readOnly then ["ro"] else []))]]
      && ShowsBottle(n.tree, p, cfg.catalog[(ref, labels)])
  {
    var context := base["csi.storage.k8s.io/ephemeral" := "true"]["bottle" := ref]["selector" := Join(labels, '|')];
    AsksByText(base["csi.storage.k8s.io/ephemeral" := "true"], ref, labels);
    BeginByText(cfg, id, t, given, context, secrets, readOnly, ref, labels);
    PublishAtFree(cfg, w, JoinPath(cfg.ephemeralStagingDir, id), t, (ref, labels), readOnly);
  }

  lemma BeginByText(cfg: Config, id: string, t: Path, given: Option<Path>, context: Context, secrets: DockerConfig,
                    readOnly: bool, ref: string, labels: seq<string>)
    requires id != "" && Loads(secrets) && Asks(context, ref, labels)
    requires "csi.storage.k8s.io/ephemeral" in context && context["csi.storage.k8s.io/ephemeral"] == "true"
    ensures Begin(cfg, PublishVolume(id, Some(t), given, true, context, secrets, readOnly)) ==
      Resolving(JoinPath(cfg.ephemeralStagingDir, id), (ref, labels), ThenMount(t, readOnly))
  {
    WantedMeans(context, ref, labels);
  }

  lemma PublishAtFree(cfg: Config, w: World, p: Path, t: Path, wanted: (string, seq<string>), readOnly: bool)
    requires wanted in cfg.catalog && BottleOK(cfg.catalog[wanted])
    requires Free(w, cfg.cacheDir, p) && FreeTarget(w, cfg.cacheDir, p, t)
    ensures var (n, r) := Finish(cfg, w, Resolving(p, wanted, ThenMount(t, readOnly)), FAULTLESS);
      && r == OK && n.mounts == w.mounts[t := [Mount(p, Options(readOnly))]]
      && ShowsBottle(n.tree, p, cfg.catalog[wanted])
  {
    var b, next := cfg.catalog[wanted], ThenMount(t, readOnly);
    var m := Do(w, Pull(w, p, cfg.cacheDir, b, SMOOTH).0);
    PullToFree(w, p, cfg.cacheDir, b);
    PullLeavesTarget(w, p, cfg.cacheDir, b, t);
    FinishResolving(cfg, w, p, wanted, next, FAULTLESS);
    FinishPulled(cfg, w, p, wanted, next, FAULTLESS);
    FinishNotifying(cfg, m, p, next, FAULTLESS);
    MountShows(cfg, m, p, t, readOnly, b);
  }

  lemma MountShows(cfg: Config, w: World, p: Path, t: Path, readOnly: bool, b: Bottle)
    requires (forall m :: m in w.mounts ==> !(m <= t) && !(m <= p)) && !Blocked(w.tree, t) && Apart(p, t)
    requires ShowsBottle(w.tree, p, b) && BottleOK(b)
    ensures var (n, r) := Finish(cfg, w, Checking(p, t, readOnly), FAULTLESS);
      r == OK && n.mounts == w.mounts[t := [Mount(p, Options(readOnly))]] && ShowsBottle(n.tree, p, b)
  {
    assert p + [] == p && p in w.tree;
    MountOnFree(cfg, w, p, t, readOnly);
    MountingOnly(cfg, w, p, t, readOnly, FAULTLESS);
    ResolveAt(w.mounts, t, |t|);
    ShowsStill(w, Finish(cfg, w, Checking(p, t, readOnly), FAULTLESS).0, p, b, t);
  }
}
