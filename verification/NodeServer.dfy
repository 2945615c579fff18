/** The node server and the driver around it, with their state updated in place. */
module NodeServer {
  import opened Calls
  import opened Credentials
  import opened FileSystem
  import opened Finishing
  import opened NodeSteps
  import opened Paths
  import opened Requests
  import opened Text

  /** A request that lacks an argument. */
  predicate Incomplete(call: Call) {
    || call.volumeId == ""
    || match call
       case StageVolume(_, staging, hasCapability, _, _) => staging.None? || !hasCapability
       case PublishVolume(_, target, staging, hasCapability, context, _, _) =>
         target.None? || !hasCapability || (!IsEphemeral(context) && staging.None?)
       case UnpublishVolume(_, target) => target.None?
       case UnstageVolume(_, staging) => staging.None?
  }

  /** A complete request to stage something with credentials that cannot be read. */
  predicate BadCredentials(call: Call) {
    !Incomplete(call)
    && ((call.StageVolume? && !Loads(call.secrets)) || (call.PublishVolume? && IsEphemeral(call.context) && !Loads(call.secrets)))
  }

  lemma {:induction false} StepsAreNotInvalid(cfg: Config, w: World, pc: Pc, env: Env)
    requires pc != Done(InvalidArgument)
    ensures Finish(cfg, w, pc, env).1 != InvalidArgument
    decreases Rank(pc)
  {
    if pc.Done? {
    } else {
      var c := Pick(env, pc);
      StepsAreNotInvalid(cfg, Do(w, EffectOf(cfg, w, pc, c)), NextOf(cfg, w, pc, c), env);
    }
  }

  /** Exactly the incomplete requests are answered InvalidArgument; they and those with bad credentials change nothing. */
  lemma Refusals(cfg: Config, w: World, call: Call, env: Env)
    ensures Run(cfg, w, call, env).1 == InvalidArgument <==> Incomplete(call)
    ensures Incomplete(call) ==> Run(cfg, w, call, env).0 == w
    ensures BadCredentials(call) ==> Run(cfg, w, call, env) == (w, Internal)
  {
    if !Incomplete(call) {
      StepsAreNotInvalid(cfg, w, Begin(cfg, call), env);
    }
  }

  class NodeServer {
    const cfg: Config
    var tree: Tree
    var mounts: map<Path, seq<Mount>>

    function Snapshot(): World
      reads this
    {
      World(tree, mounts)
    }

    /** `NewNodeServer`, on a node in whatever state it is found. */
    constructor (storageDir: Path, catalog: map<(string, seq<string>), Bottle>, w: World)
      ensures Snapshot() == w && cfg == NewConfig(storageDir, catalog)
    {
      cfg := NewConfig(storageDir, catalog);
      tree := w.tree;
      mounts := w.mounts;
    }

    method Perform(e: Effect)
      modifies this
      ensures Snapshot() == Do(old(Snapshot()), e)
    {
      var w := Do(Snapshot(), e);
      tree := w.tree;
      mounts := w.mounts;
    }

    /** `stageVolume`: loads the credentials, resolves and pulls the bottle, and notifies telemetry. */
    method StageContents(stagingPath: Path, context: Context, secrets: DockerConfig, env: Env) returns (ok: bool)
      modifies this
      ensures !Loads(secrets) ==> !ok && Snapshot() == old(Snapshot())
      ensures Loads(secrets) ==>
        var (w, r) := Finish(cfg, old(Snapshot()), Resolving(stagingPath, Wanted(context), EndStage), env);
        Snapshot() == w && (ok <==> r == OK) && (!ok <==> r == Internal)
      ensures forall ref, labels :: Asks(context, ref, labels) ==>
        if ok then
          (ref, labels) in cfg.catalog && Delivered(tree, Resolve(old(mounts), stagingPath), cfg.catalog[(ref, labels)])
        else (ref, labels) !in cfg.catalog ==> Snapshot() == old(Snapshot())
    {
      StageDeliversAsked(cfg, Snapshot(), stagingPath, context, env);
      var loaded := LoadCredentials(secrets);
      if loaded.Err? {
        return false;
      }
      var wanted := Wanted(context);
      FinishNext(cfg, Snapshot(), Resolving(stagingPath, wanted, EndStage), env);
      if !env.resolve.outcome.Success? || wanted !in cfg.catalog {
        return false;
      }
      ok := PullContents(stagingPath, wanted, env);
    }

    /** The part of `stageVolume` from the pull on. */
    method PullContents(stagingPath: Path, wanted: (string, seq<string>), env: Env) returns (ok: bool)
      requires wanted in cfg.catalog
      modifies this
      ensures var (w, r) := Finish(cfg, old(Snapshot()), Pulling(stagingPath, wanted, EndStage), env);
        Snapshot() == w && (ok <==> r == OK) && (!ok <==> r == Internal)
    {
      FinishPulling(cfg, Snapshot(), stagingPath, wanted, env);
      var (effect, pulled) := Pull(Snapshot(), stagingPath, cfg.cacheDir, cfg.catalog[wanted], env.pull);
      Perform(effect);
      if !pulled {
        return false;
      }
      ok := env.notify.outcome.Success?;
    }

    method NodeStageVolume(req: Call, env: Env) returns (resp: Response)
      requires req.StageVolume?
      modifies this
      ensures (Snapshot(), resp) == Run(cfg, old(Snapshot()), req, env)
      ensures resp == InvalidArgument <==> Incomplete(req)
      ensures Incomplete(req) || BadCredentials(req) ==> Snapshot() == old(Snapshot()) && resp != OK
      ensures mounts == old(mounts)
      ensures resp == OK ==> forall ref, labels :: Asks(req.context, ref, labels) ==>
        && (ref, labels) in cfg.catalog
        && Delivered(tree, Resolve(old(mounts), req.stagingPath.value), cfg.catalog[(ref, labels)])
    {
      Refusals(cfg, Snapshot(), req, env);
      StageCallDelivers(cfg, Snapshot(), req, env);
      if req.volumeId == "" {
        return InvalidArgument;
      }
      if req.stagingPath.None? {
        return InvalidArgument;
      }
      if !req.hasCapability {
        return InvalidArgument;
      }
      var ok := StageContents(req.stagingPath.value, req.context, req.secrets, env);
      if !ok {
        return Internal;
      }
      return OK;
    }

    method NodePublishVolume(req: Call, env: Env) returns (resp: Response)
      requires req.PublishVolume?
      modifies this
      ensures (Snapshot(), resp) == Run(cfg, old(Snapshot()), req, env)
      ensures resp == InvalidArgument <==> Incomplete(req)
      ensures Incomplete(req) || BadCredentials(req) ==> Snapshot() == old(Snapshot()) && resp != OK
      ensures resp == OK ==> req.targetPath.Some? && req.targetPath.value in mounts
      ensures req.targetPath.Some? ==>
        if "csi.storage.k8s.io/ephemeral" in req.context && req.context["csi.storage.k8s.io/ephemeral"] == "true" then
          && MountedAs(old(mounts), mounts, req.targetPath.value, JoinPath(cfg.ephemeralStagingDir, req.volumeId), req.readOnly, resp)
          && (resp == OK ==> forall ref, labels :: Asks(req.context, ref, labels) ==>
                && (ref, labels) in cfg.catalog
                && Delivered(tree, Resolve(old(mounts), JoinPath(cfg.ephemeralStagingDir, req.volumeId)), cfg.catalog[(ref, labels)]))
        else if req.stagingPath.Some? then
          && MountedAs(old(mounts), mounts, req.targetPath.value, req.stagingPath.value, req.readOnly, resp)
          && OnlyMakes(old(Snapshot()), Snapshot(), req.targetPath.value)
        else Snapshot() == old(Snapshot()) && resp == InvalidArgument
    {
      Refusals(cfg, Snapshot(), req, env);
      if req.targetPath.Some? {
        PublishMeans(cfg, Snapshot(), req, env);
      }
      ghost var w0 := Snapshot();
      if !req.hasCapability {
        return InvalidArgument;
      }
      if req.volumeId == "" {
        return InvalidArgument;
      }
      if req.targetPath.None? {
        return InvalidArgument;
      }
      var targetPath := req.targetPath.value;
      ghost var begin := Begin(cfg, req);
      if begin.Resolving? {
        StageThenMount(cfg, w0, begin, env, targetPath, req.readOnly);
      }
      PublishMounts(cfg, w0, begin, env, targetPath);
      var stagingPath := req.stagingPath;
      if IsEphemeral(req.context) {
        stagingPath := Some(EphemeralPath(cfg, req.volumeId));
        var ok := StageContents(stagingPath.value, req.context, req.secrets, env);
        if !ok {
          return Internal;
        }
      }
      if stagingPath.None? {
        return InvalidArgument;
      }
      resp := MountContents(stagingPath.value, targetPath, req.readOnly, env);
    }

    /** The mounting part of `NodePublishVolume`. */
    method MountContents(stagingPath: Path, targetPath: Path, readOnly: bool, env: Env) returns (resp: Response)
      modifies this
      ensures (Snapshot(), resp) == Finish(cfg, old(Snapshot()), Checking(stagingPath, targetPath, readOnly), env)
    {
      FinishChecking(cfg, Snapshot(), stagingPath, targetPath, readOnly, env);
      var found := ProbeMount(Snapshot(), targetPath, env.probe);
      var notMnt := found.Plain?;
      if found.Unknown? {
        return Internal;
      }
      if found.Absent? {
        FinishMaking(cfg, Snapshot(), stagingPath, targetPath, readOnly, env);
        var (effect, made) := MkdirAll(Snapshot(), targetPath, env.mkdir);
        Perform(effect);
        if !made {
          return Internal;
        }
        notMnt := true;
      }
      if !notMnt {
        return OK;
      }
      resp := BindContents(stagingPath, targetPath, readOnly, env);
    }

    /** The bind mount itself. */
    method BindContents(stagingPath: Path, targetPath: Path, readOnly: bool, env: Env) returns (resp: Response)
      modifies this
      ensures (Snapshot(), resp) == Finish(cfg, old(Snapshot()), Mounting(stagingPath, targetPath, readOnly), env)
    {
      var options := ["bind", "noexec"];
      if readOnly {
        options := options + ["ro"];
      }
      assert options == Options(readOnly);
      FinishMounting(cfg, Snapshot(), stagingPath, targetPath, readOnly, env);
      var (effect, mounted) := BindMount(Snapshot(), stagingPath, targetPath, options, env.mount);
      Perform(effect);
      if !mounted {
        return Internal;
      }
      return OK;
    }

    method NodeUnpublishVolume(req: Call, env: Env) returns (resp: Response)
      requires req.UnpublishVolume?
      modifies this
      ensures (Snapshot(), resp) == Run(cfg, old(Snapshot()), req, env)
      ensures resp == InvalidArgument <==> Incomplete(req)
      ensures Incomplete(req) || BadCredentials(req) ==> Snapshot() == old(Snapshot()) && resp != OK
      ensures resp == OK ==> req.targetPath.Some? && TargetGone(Snapshot(), req.targetPath.value)
      ensures resp == OK && env.stat.outcome.Success? ==> Resolve(mounts, EphemeralPath(cfg, req.volumeId)) !in tree
    {
      Refusals(cfg, Snapshot(), req, env);
      if req.volumeId == "" {
        return InvalidArgument;
      }
      if req.targetPath.None? {
        return InvalidArgument;
      }
      var targetPath := req.targetPath.value;
      var stagingPath := EphemeralPath(cfg, req.volumeId);
      UnpublishRemoves(cfg, Snapshot(), Probing(targetPath, stagingPath), env, targetPath, stagingPath);
      resp := Detach(targetPath, stagingPath, env);
    }

    /** `NodeUnpublishVolume` after its argument checks. */
    method Detach(targetPath: Path, stagingPath: Path, env: Env) returns (resp: Response)
      modifies this
      ensures (Snapshot(), resp) == Finish(cfg, old(Snapshot()), Probing(targetPath, stagingPath), env)
    {
      FinishProbing(cfg, Snapshot(), targetPath, stagingPath, env);
      var found := ProbeMount(Snapshot(), targetPath, env.probe);
      if found.Unknown? {
        return Internal;
      } else if found.Mounted? {
        FinishUnmounting(cfg, Snapshot(), targetPath, stagingPath, env);
        var (effect, unmounted) := Unmount(Snapshot(), targetPath, env.unmount);
        Perform(effect);
        if !unmounted {
          return Internal;
        }
      }
      resp := RemoveTarget(targetPath, stagingPath, env);
    }

    /** The removal of the mount point. */
    method RemoveTarget(targetPath: Path, stagingPath: Path, env: Env) returns (resp: Response)
      modifies this
      ensures (Snapshot(), resp) == Finish(cfg, old(Snapshot()), Clearing(targetPath, stagingPath), env)
    {
      FinishClearing(cfg, Snapshot(), targetPath, stagingPath, env);
      var (effect, outcome) := RemoveAll(Snapshot(), targetPath, env.clear);
      Perform(effect);
      if outcome.Failure? {
        return Internal;
      }
      resp := PurgeContents(targetPath, stagingPath, env);
    }

    /** The cleanup of ephemeral content, if there is any. */
    method PurgeContents(targetPath: Path, stagingPath: Path, env: Env) returns (resp: Response)
      modifies this
      ensures (Snapshot(), resp) == Finish(cfg, old(Snapshot()), Statting(targetPath, stagingPath), env)
    {
      FinishNext(cfg, Snapshot(), Statting(targetPath, stagingPath), env);
      if env.stat.outcome.Success? && Resolve(mounts, stagingPath) in tree {
        FinishNext(cfg, Snapshot(), Purging(targetPath, stagingPath), env);
        var (purge, purged) := RemoveAll(Snapshot(), stagingPath, env.purge);
        Perform(purge);
        if purged.Failure? {
          return Internal;
        }
      }
      return OK;
    }

    method NodeUnstageVolume(req: Call, env: Env) returns (resp: Response)
      requires req.UnstageVolume?
      modifies this
      ensures (Snapshot(), resp) == Run(cfg, old(Snapshot()), req, env)
      ensures resp == InvalidArgument <==> Incomplete(req)
      ensures Incomplete(req) || BadCredentials(req) ==> Snapshot() == old(Snapshot()) && resp != OK
      ensures resp == OK ==> req.stagingPath.Some? && TargetGone(Snapshot(), req.stagingPath.value)
    {
      Refusals(cfg, Snapshot(), req, env);
      if req.volumeId == "" {
        return InvalidArgument;
      }
      if req.stagingPath.None? {
        return InvalidArgument;
      }
      FinishUnstaging(cfg, Snapshot(), req.stagingPath.value, env);
      RemoveAllGone(Snapshot(), req.stagingPath.value, env.purge);
      var (effect, outcome) := RemoveAll(Snapshot(), req.stagingPath.value, env.purge);
      Perform(effect);
      if outcome.Failure? {
        return Internal;
      }
      return OK;
    }
  }

  class Driver {
    const ns: NodeServer

    constructor (ns: NodeServer)
      ensures this.ns == ns
    {
      this.ns := ns;
    }

    /** One pass of the pruner: nothing outside the cache directory changes. */
    method PruneOnce(c: Choice)
      modifies ns
      ensures ns.Snapshot() == Do(old(ns.Snapshot()), Prune(old(ns.Snapshot()), ns.cfg.cacheDir, c))
      ensures ns.mounts == old(ns.mounts)
      ensures forall q :: !(ns.cfg.cacheDir <= q) ==>
        (q in ns.tree <==> q in old(ns.tree)) && (q in ns.tree ==> ns.tree[q] == old(ns.tree)[q])
      ensures forall q :: q in ns.tree <==>
        q in old(ns.tree) && !(ns.cfg.cacheDir <= q && |ns.cfg.cacheDir| < |q| && q[|ns.cfg.cacheDir|..] in c.part)
      ensures forall q :: q in ns.tree ==> ns.tree[q] == old(ns.tree)[q]
    {
      PruneMeans(ns.Snapshot(), ns.cfg.cacheDir, c);
      ns.Perform(Prune(ns.Snapshot(), ns.cfg.cacheDir, c));
      assert ns.mounts == old(ns.mounts);
    }
  }
}
