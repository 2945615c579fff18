/**
 * The four node RPCs as step machines: between two steps of a call other calls may run, the
 * process may crash, and every step may fail.
 */
module NodeSteps {
  import opened Credentials
  import opened FileSystem
  import opened Paths
  import opened Text

  /**
   * The directories of the node server, and what the registry holds for a bottle reference and a
   * list of selectors.
   */
  datatype Config = Config(ephemeralStagingDir: Path, cacheDir: Path, catalog: map<(string, seq<string>), Bottle>)

  /** The layout `NewNodeServer` chooses under the storage directory. */
  function NewConfig(storageDir: Path, catalog: map<(string, seq<string>), Bottle>): Config {
    Config(JoinPath(JoinPath(storageDir, "ephemeral"), "staging"), JoinPath(storageDir, "cache"), catalog)
  }

  function EphemeralPath(cfg: Config, volumeId: string): Path {
    JoinPath(cfg.ephemeralStagingDir, volumeId)
  }

  type Context = map<string, string>

  const EPHEMERAL_KEY := "csi.storage.k8s.io/ephemeral"

  predicate IsEphemeral(context: Context) {
    EPHEMERAL_KEY in context && context[EPHEMERAL_KEY] == "true"
  }

  /** Which bottle and which of its parts a volume context asks for. */
  function Wanted(context: Context): (string, seq<string>) {
    (if "bottle" in context then context["bottle"] else "", Selectors(context))
  }

  /**
   * A context asks for a bottle by its reference, under the key "bottle", and for its parts by selectors,
   * written under the key "selector" with `|` between them; without that key for all parts.
   */
  ghost predicate Asks(context: Context, ref: string, labels: seq<string>) {
    && ref == (if "bottle" in context then context["bottle"] else "")
    && if "selector" in context then
         |labels| >= 1 && (forall i :: 0 <= i < |labels| ==> '|' !in labels[i]) && Join(labels, '|') == context["selector"]
       else labels == []
  }

  /** What is pulled for a context is what it asks for. */
  lemma WantedMeans(context: Context, ref: string, labels: seq<string>)
    ensures Wanted(context) == (ref, labels) <==> Asks(context, ref, labels)
  {
    SelectorsDetermineText(context);
    if "selector" in context && Asks(context, ref, labels) {
      SplitOfJoin(labels, '|');
    }
  }

  /** Requests; a path or capability missing from one is `None` or `false`, a missing volume ID is "". */
  datatype Call =
    | StageVolume(volumeId: string, stagingPath: Option<Path>, hasCapability: bool, context: Context, secrets: DockerConfig)
    | PublishVolume(volumeId: string, targetPath: Option<Path>, stagingPath: Option<Path>, hasCapability: bool,
                    context: Context, secrets: DockerConfig, readOnly: bool)
    | UnpublishVolume(volumeId: string, targetPath: Option<Path>)
    | UnstageVolume(volumeId: string, stagingPath: Option<Path>)

  datatype Response = OK | InvalidArgument | Internal

  /** What follows a pull: the end of a Stage call, or the mounting part of an ephemeral Publish call. */
  datatype Next = EndStage | ThenMount(target: Path, readOnly: bool)

  /** Where a call stands: the system call it does next, with the values it has computed. */
  datatype Pc =
    | Resolving(staging: Path, wanted: (string, seq<string>), next: Next)
    | Pulling(staging: Path, wanted: (string, seq<string>), next: Next)
    | Notifying(staging: Path, next: Next)
    | Checking(source: Path, target: Path, readOnly: bool)
    | Making(source: Path, target: Path, readOnly: bool)
    | Mounting(source: Path, target: Path, readOnly: bool)
    | Probing(target: Path, staging: Path)
    | Unmounting(target: Path, staging: Path)
    | Clearing(target: Path, staging: Path)
    | Statting(target: Path, staging: Path)
    | Purging(target: Path, staging: Path)
    | Unstaging(staging: Path)
    | Done(response: Response)

  /** Argument checks and credential loading, up to the first system call. */
  function Begin(cfg: Config, call: Call): Pc {
    match call
    case StageVolume(id, staging, hasCapability, context, secrets) =>
      if id == "" || staging.None? || !hasCapability then Done(InvalidArgument)
      else if !Loads(secrets) then Done(Internal)
      else Resolving(staging.value, Wanted(context), EndStage)
    case PublishVolume(id, target, staging, hasCapability, context, secrets, readOnly) =>
      if !hasCapability || id == "" || target.None? then Done(InvalidArgument)
      else if IsEphemeral(context) then
        if !Loads(secrets) then Done(Internal)
        else Resolving(EphemeralPath(cfg, id), Wanted(context), ThenMount(target.value, readOnly))
      else if staging.None? then Done(InvalidArgument)
      else Checking(staging.value, target.value, readOnly)
    case UnpublishVolume(id, target) =>
      if id == "" || target.None? then Done(InvalidArgument)
      else Probing(target.value, EphemeralPath(cfg, id))
    case UnstageVolume(id, staging) =>
      if id == "" || staging.None? then Done(InvalidArgument)
      else Unstaging(staging.value)
  }

  function Options(readOnly: bool): seq<string> {
    ["bind", "noexec"] + (if readOnly then ["ro"] else [])
  }

  function Rank(pc: Pc): nat {
    match pc
    case Resolving(_, _, _) => 6
    case Pulling(_, _, _) => 5
    case Notifying(_, _) => 4
    case Checking(_, _, _) => 3
    case Making(_, _, _) => 2
    case Mounting(_, _, _) => 1
    case Probing(_, _) => 5
    case Unmounting(_, _) => 4
    case Clearing(_, _) => 3
    case Statting(_, _) => 2
    case Purging(_, _) => 1
    case Unstaging(_) => 1
    case Done(_) => 0
  }

  function BottleOf(cfg: Config, wanted: (string, seq<string>)): Bottle {
    if wanted in cfg.catalog then cfg.catalog[wanted] else map[]
  }

  /** What the next step of a call does to the node. */
  function EffectOf(cfg: Config, w: World, pc: Pc, c: Choice): Effect {
    match pc
    case Pulling(staging, wanted, _) => Pull(w, staging, cfg.cacheDir, BottleOf(cfg, wanted), c).0
    case Making(_, target, _) => MkdirAll(w, target, c).0
    case Mounting(source, target, readOnly) => BindMount(w, source, target, Options(readOnly), c).0
    case Unmounting(target, _) => Unmount(w, target, c).0
    case Clearing(target, _) => RemoveAll(w, target, c).0
    case Purging(_, staging) => RemoveAll(w, staging, c).0
    case Unstaging(staging) => RemoveAll(w, staging, c).0
    case _ => NOTHING
  }

  /** What the call learns from its next step: whether it worked, and what stands at the target. */
  datatype Verdict = Verdict(ok: bool, found: Probe)

  function VerdictOf(cfg: Config, w: World, pc: Pc, c: Choice): Verdict {
    match pc
    case Resolving(_, wanted, _) => Verdict(c.outcome.Success? && wanted in cfg.catalog, Unknown)
    case Pulling(staging, wanted, _) => Verdict(Pull(w, staging, cfg.cacheDir, BottleOf(cfg, wanted), c).1, Unknown)
    case Notifying(_, _) => Verdict(c.outcome.Success?, Unknown)
    case Checking(_, target, _) => Verdict(c.outcome.Success?, ProbeMount(w, target, c))
    case Making(_, target, _) => Verdict(MkdirAll(w, target, c).1, Unknown)
    case Mounting(source, target, readOnly) => Verdict(BindMount(w, source, target, Options(readOnly), c).1, Unknown)
    case Probing(target, _) => Verdict(c.outcome.Success?, ProbeMount(w, target, c))
    case Unmounting(target, _) => Verdict(Unmount(w, target, c).1, Unknown)
    case Clearing(target, _) => Verdict(!RemoveAll(w, target, c).1.Failure?, Unknown)
    case Statting(_, staging) => Verdict(c.outcome.Success? && Resolve(w.mounts, staging) in w.tree, Unknown)
    case Purging(_, staging) => Verdict(!RemoveAll(w, staging, c).1.Failure?, Unknown)
    case Unstaging(staging) => Verdict(!RemoveAll(w, staging, c).1.Failure?, Unknown)
    case Done(_) => Verdict(true, Unknown)
  }

  /** Where the call goes with that. */
  function After(pc: Pc, v: Verdict): (next: Pc)
    ensures !pc.Done? ==> Rank(next) < Rank(pc)
  {
    match pc
    case Resolving(staging, wanted, next) => if v.ok then Pulling(staging, wanted, next) else Done(Internal)
    case Pulling(staging, wanted, next) => if v.ok then Notifying(staging, next) else Done(Internal)
    case Notifying(staging, next) =>
      if !v.ok then Done(Internal)
      else if next.EndStage? then Done(OK)
      else Checking(staging, next.target, next.readOnly)
    case Checking(source, target, readOnly) =>
      (match v.found
       case Unknown => Done(Internal)
       case Absent => Making(source, target, readOnly)
       case Mounted => Done(OK)
       case Plain => Mounting(source, target, readOnly))
    case Making(source, target, readOnly) => if v.ok then Mounting(source, target, readOnly) else Done(Internal)
    case Mounting(_, _, _) => Done(if v.ok then OK else Internal)
    case Probing(target, staging) =>
      (match v.found
       case Unknown => Done(Internal)
       case Mounted => Unmounting(target, staging)
       case Absent => Clearing(target, staging)
       case Plain => Clearing(target, staging))
    case Unmounting(target, staging) => if v.ok then Clearing(target, staging) else Done(Internal)
    case Clearing(target, staging) => if v.ok then Statting(target, staging) else Done(Internal)
    case Statting(target, staging) => if v.ok then Purging(target, staging) else Done(OK)
    case Purging(_, _) => Done(if v.ok then OK else Internal)
    case Unstaging(_) => Done(if v.ok then OK else Internal)
    case Done(_) => pc
  }

  function NextOf(cfg: Config, w: World, pc: Pc, c: Choice): Pc {
    After(pc, VerdictOf(cfg, w, pc, c))
  }

  /** Where a Publish call for this target may stand. */
  predicate Publishing(pc: Pc, t: Path) {
    match pc
    case Resolving(_, _, next) => next.ThenMount? && next.target == t
    case Pulling(_, _, next) => next.ThenMount? && next.target == t
    case Notifying(_, next) => next.ThenMount? && next.target == t
    case Checking(_, u, _) => u == t
    case Making(_, u, _) => u == t
    case Mounting(_, u, _) => u == t
    case Done(r) => r != OK
    case _ => false
  }

  /** How each system call of one RPC turns out. */
  datatype Env = Env(resolve: Choice, pull: Choice, notify: Choice, probe: Choice, mkdir: Choice, mount: Choice,
                     unmount: Choice, clear: Choice, stat: Choice, purge: Choice)

  const FAULTLESS := Env(SMOOTH, SMOOTH, SMOOTH, SMOOTH, SMOOTH, SMOOTH, SMOOTH, SMOOTH, SMOOTH, SMOOTH)

  function Pick(env: Env, pc: Pc): Choice {
    match pc
    case Resolving(_, _, _) => env.resolve
    case Pulling(_, _, _) => env.pull
    case Notifying(_, _) => env.notify
    case Checking(_, _, _) => env.probe
    case Making(_, _, _) => env.mkdir
    case Mounting(_, _, _) => env.mount
    case Probing(_, _) => env.probe
    case Unmounting(_, _) => env.unmount
    case Clearing(_, _) => env.clear
    case Statting(_, _) => env.stat
    case Purging(_, _) => env.purge
    case Unstaging(_) => env.purge
    case Done(_) => SMOOTH
  }

  /** A call run alone from where it stands to its response. */
  function Finish(cfg: Config, w: World, pc: Pc, env: Env): (World, Response)
    decreases Rank(pc)
  {
    if pc.Done? then (w, pc.response)
    else
      var c := Pick(env, pc);
      Finish(cfg, Do(w, EffectOf(cfg, w, pc, c)), NextOf(cfg, w, pc, c), env)
  }

  /** A whole RPC run alone. */
  function Run(cfg: Config, w: World, call: Call, env: Env): (World, Response) {
    Finish(cfg, w, Begin(cfg, call), env)
  }
}
