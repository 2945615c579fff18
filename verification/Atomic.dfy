/** A run in which every call is answered amounts to whole RPCs taken one after the other. */
module Atomic {
  import opened Calls
  import opened FileSystem
  import opened Node
  import opened NodeSteps
  import opened Safety
  import opened Serial

  /** An RPC with the way its system calls turn out, the making of a staging directory by the caller, or a pruner pass. */
  datatype Job = Rpc(id: string, call: Call, env: Env) | Preparing(id: string, choice: Choice) | Pruning(choice: Choice)

  function RunJob(site: Site, w: World, job: Job): World {
    match job
    case Rpc(_, call, env) => Run(site.cfg, w, call, env).0
    case Preparing(id, c) => if id in site.volumes then Do(w, Preparation(site.At(id), w, c)) else w
    case Pruning(c) => Do(w, Prune(w, site.cfg.cacheDir, c))
  }

  /** What a volume is answered by a job. */
  function Answer(site: Site, w: World, job: Job, id: string): seq<Response> {
    if job.Rpc? && job.id == id then [Run(site.cfg, w, job.call, job.env).1] else []
  }

  /** The jobs one after the other. */
  function RunJobs(site: Site, w: World, jobs: seq<Job>): World
    decreases |jobs|
  {
    if jobs == [] then w else RunJobs(site, RunJob(site, w, jobs[0]), jobs[1..])
  }

  /** The answers a volume gets from them. */
  function Answers(site: Site, w: World, jobs: seq<Job>, id: string): seq<Response>
    decreases |jobs|
  {
    if jobs == [] then []
    else Answer(site, w, jobs[0], id) + Answers(site, RunJob(site, w, jobs[0]), jobs[1..], id)
  }

  /** How a job starts. */
  function Opening(job: Job): Deed {
    match job
    case Rpc(id, call, _) => Of(id, Start(call))
    case Preparing(id, c) => Of(id, Prepare(c))
    case Pruning(c) => PruneCache(c)
  }

  function Openings(jobs: seq<Job>): seq<Deed> {
    if jobs == [] then [] else [Opening(jobs[0])] + Openings(jobs[1..])
  }

  /** Which system call of an RPC a step makes; later steps make later ones. */
  function Slot(pc: Pc): nat {
    match pc
    case Resolving(_, _, _) => 0
    case Pulling(_, _, _) => 1
    case Notifying(_, _) => 2
    case Checking(_, _, _) => 3
    case Making(_, _, _) => 4
    case Mounting(_, _, _) => 5
    case Probing(_, _) => 3
    case Unmounting(_, _) => 6
    case Clearing(_, _) => 7
    case Statting(_, _) => 8
    case Purging(_, _) => 9
    case Unstaging(_) => 9
    case Done(_) => 10
  }

  function Put(env: Env, slot: nat, c: Choice): Env {
    match slot
    case 0 => env.(resolve := c)
    case 1 => env.(pull := c)
    case 2 => env.(notify := c)
    case 3 => env.(probe := c)
    case 4 => env.(mkdir := c)
    case 5 => env.(mount := c)
    case 6 => env.(unmount := c)
    case 7 => env.(clear := c)
    case 8 => env.(stat := c)
    case 9 => env.(purge := c)
    case _ => env
  }

  lemma PickPut(env: Env, pc: Pc, slot: nat, c: Choice)
    ensures Slot(pc) == slot && !pc.Done? ==> Pick(Put(env, slot, c), pc) == c
    ensures Slot(pc) > slot ==> Pick(Put(env, slot, c), pc) == Pick(env, pc)
  {
  }

  lemma SlotsGrow(pc: Pc, v: Verdict)
    ensures !pc.Done? ==> Slot(After(pc, v)) > Slot(pc)
  {
  }

  /** How an earlier system call turned out does not matter any more. */
  lemma {:induction false} FinishPut(cfg: Config, w: World, pc: Pc, env: Env, slot: nat, c: Choice)
    requires Slot(pc) > slot
    ensures Finish(cfg, w, pc, Put(env, slot, c)) == Finish(cfg, w, pc, env)
    decreases Rank(pc)
  {
    if pc.Done? {
    } else {
      var d := Pick(env, pc);
      PickPut(env, pc, slot, c);
      SlotsGrow(pc, VerdictOf(cfg, w, pc, d));
      FinishPut(cfg, Do(w, EffectOf(cfg, w, pc, d)), NextOf(cfg, w, pc, d), env, slot, c);
    }
  }

  predicate AllSteps(ds: seq<Deed>, id: string) {
    forall i :: 0 <= i < |ds| ==> ds[i].Of? && ds[i].id == id && ds[i].event.Step?
  }

  /** The system calls of an RPC as the steps of a run made them turn out. */
  function EnvOf(cfg: Config, w: World, pc: Pc, ds: seq<Deed>, id: string): Env
    requires AllSteps(ds, id)
    decreases |ds|
  {
    if ds == [] || pc.Done? then FAULTLESS
    else
      var c := ds[0].event.choice;
      Put(EnvOf(cfg, Do(w, EffectOf(cfg, w, pc, c)), NextOf(cfg, w, pc, c), ds[1..], id), Slot(pc), c)
  }

  /** Steps for a volume without a call in flight do nothing. */
  lemma {:induction false} IdleSteps(site: Site, s: Sys, ds: seq<Deed>, id: string)
    requires AllSteps(ds, id) && id in site.volumes && id in s.books && s.books[id].pc.None?
    ensures Exec(site, s, ds) == s
    decreases |ds|
  {
    if ds == [] {
    } else {
      DoNothing(s.world);
      assert Apply(site, s, ds[0]) == s;
      IdleSteps(site, s, ds[1..], id);
    }
  }

  lemma FinishFirst(cfg: Config, w: World, pc: Pc, env: Env, c: Choice)
    requires !pc.Done?
    ensures var n, next := Do(w, EffectOf(cfg, w, pc, c)), NextOf(cfg, w, pc, c);
      Finish(cfg, w, pc, Put(env, Slot(pc), c)) == if next.Done? then (n, next.response) else Finish(cfg, n, next, env)
  {
    var n, next := Do(w, EffectOf(cfg, w, pc, c)), NextOf(cfg, w, pc, c);
    PickPut(env, pc, Slot(pc), c);
    SlotsGrow(pc, VerdictOf(cfg, w, pc, c));
    FinishPut(cfg, n, next, env, Slot(pc), c);
  }

  /** Uninterrupted steps that bring a call to its end are the RPC. */
  lemma {:induction false} StepsAreRpc(site: Site, s: Sys, ds: seq<Deed>, id: string)
    requires AllSteps(ds, id) && id in site.volumes && id in s.books
    requires s.books[id].pc.Some? && !s.books[id].pc.value.Done?
    requires id in Exec(site, s, ds).books && Exec(site, s, ds).books[id].pc.None?
    ensures Answered(site, s, ds, id,
                     Finish(site.cfg, s.world, s.books[id].pc.value, EnvOf(site.cfg, s.world, s.books[id].pc.value, ds, id)))
    decreases |ds|
  {
    if ds == [] {
    } else {
      var pc := s.books[id].pc.value;
      var c := ds[0].event.choice;
      var n := Apply(site, s, ds[0]);
      var next := NextOf(site.cfg, s.world, pc, c);
      var env := EnvOf(site.cfg, n.world, next, ds[1..], id);
      StepApplied(site, s, id, c);
      FinishFirst(site.cfg, s.world, pc, env, c);
      if next.Done? {
        IdleSteps(site, n, ds[1..], id);
      } else {
        StepsAreRpc(site, n, ds[1..], id);
      }
    }
  }

  /** A started call and its uninterrupted steps to the end are the RPC. */
  lemma BlockIsRpc(site: Site, s: Sys, call: Call, ds: seq<Deed>, id: string)
    requires AllSteps(ds, id) && id in site.volumes && id in s.books && s.books[id].pc.None?
    requires id in Exec(site, s, [Of(id, Start(call))] + ds).books && Exec(site, s, [Of(id, Start(call))] + ds).books[id].pc.None?
    ensures Answered(site, s, [Of(id, Start(call))] + ds, id,
                     Run(site.cfg, s.world, call, EnvOf(site.cfg, s.world, Begin(site.cfg, call), ds, id)))
  {
    var d := Of(id, Start(call));
    assert ([d] + ds)[1..] == ds;
    var n := Apply(site, s, d);
    StartApplied(site, s, id, call);
    if Begin(site.cfg, call).Done? {
      IdleSteps(site, n, ds, id);
    } else {
      StepsAreRpc(site, n, ds, id);
    }
  }

  ghost predicate AllIdle(s: Sys) {
    forall id :: id in s.books ==> s.books[id].pc.None?
  }

  /** No process crash, and no request for an unknown volume. */
  ghost predicate Orderly(site: Site, ds: seq<Deed>) {
    forall d :: d in ds && d.Of? ==> d.id in site.volumes && !d.event.Crash?
  }

  /** The jobs do what the deeds do: to the node, and for every volume's answers. */
  ghost predicate Explains(site: Site, s: Sys, ds: seq<Deed>, jobs: seq<Job>) {
    var n := Exec(site, s, ds);
    && RunJobs(site, s.world, jobs) == n.world
    && n.books.Keys == s.books.Keys
    && forall id :: id in s.books ==> n.books[id].log == s.books[id].log + Answers(site, s.world, jobs, id)
  }

  lemma {:induction false} PartsOf(ds: seq<Deed>, id: string, d: Deed)
    ensures d in Going(ds, id) ==> d in ds
    ensures d in Without(ds, id) ==> d in ds
  {
    if ds == [] {
    } else {
      PartsOf(ds[1..], id, d);
    }
  }

  /** A call that is not answered before the volume's next call, or at all, stays in flight. */
  lemma {:induction false} StuckCall(site: Site, s: Sys, ds: seq<Deed>, id: string)
    requires id in site.volumes && id in s.books && s.books[id].pc.Some? && ConformingRun(site, s, ds)
    requires Proj(ds, id) != [] ==> Begins(Proj(ds, id)[0])
    ensures id in Exec(site, s, ds).books && Exec(site, s, ds).books[id].pc.Some?
    decreases |ds|
  {
    if ds == [] {
    } else {
      if !(ds[0].Of? && ds[0].id == id) {
        assert Proj(ds, id) == Proj(ds[1..], id);
        StuckCall(site, Apply(site, s, ds[0]), ds[1..], id);
      }
    }
  }

  /** The deeds do what the job does, and leave no call in flight. */
  ghost predicate Does(site: Site, s: Sys, ds: seq<Deed>, job: Job) {
    var n := Exec(site, s, ds);
    && n.world == RunJob(site, s.world, job)
    && n.books.Keys == s.books.Keys && AllIdle(n)
    && forall id :: id in s.books ==> n.books[id].log == s.books[id].log + Answer(site, s.world, job, id)
  }

  lemma AnswersFirst(site: Site, w: World, job: Job, jobs: seq<Job>, id: string)
    ensures RunJobs(site, w, [job] + jobs) == RunJobs(site, RunJob(site, w, job), jobs)
    ensures Answers(site, w, [job] + jobs, id) == Answer(site, w, job, id) + Answers(site, RunJob(site, w, job), jobs, id)
  {
    assert ([job] + jobs)[1..] == jobs;
  }

  lemma ExplainsAnswers(site: Site, s: Sys, m: Sys, n: Sys, job: Job, jobs: seq<Job>, id: string)
    requires id in s.books && id in m.books && id in n.books && m.world == RunJob(site, s.world, job)
    requires m.books[id].log == s.books[id].log + Answer(site, s.world, job, id)
    requires n.books[id].log == m.books[id].log + Answers(site, m.world, jobs, id)
    ensures n.books[id].log == s.books[id].log + Answers(site, s.world, [job] + jobs, id)
  {
    AnswersFirst(site, s.world, job, jobs, id);
  }

  lemma ExplainsFirst(site: Site, s: Sys, block: seq<Deed>, job: Job, ds: seq<Deed>, jobs: seq<Job>)
    requires Does(site, s, block, job) && Explains(site, Exec(site, s, block), ds, jobs)
    ensures Explains(site, s, block + ds, [job] + jobs)
  {
    var m := Exec(site, s, block);
    ExecConcat(site, s, block, ds);
    AnswersFirst(site, s.world, job, jobs, "");
    forall id | id in s.books
      ensures Exec(site, m, ds).books[id].log == s.books[id].log + Answers(site, s.world, [job] + jobs, id)
    {
      ExplainsAnswers(site, s, m, Exec(site, m, ds), job, jobs, id);
    }
  }

  /** The first block of a serialised run starts with an event of the caller, and the volume's other blocks come after it. */
  lemma FirstBlockStarts(site: Site, ds: seq<Deed>)
    requires FromRest(ds) && Orderly(site, ds) && ds != [] && ds[0].Of?
    ensures Begins(ds[0].event) && ds[0].id in site.volumes && AllSteps(Going(ds[1..], ds[0].id), ds[0].id)
    ensures FromRest(Without(ds[1..], ds[0].id)) && Orderly(site, Without(ds[1..], ds[0].id))
    ensures var later := Proj(Serialised(Without(ds[1..], ds[0].id)), ds[0].id); later != [] ==> Begins(later[0])
  {
    var id := ds[0].id;
    FromRestParts(ds);
    GoingIsOwn(ds[1..], id);
    forall d
      ensures d in Going(ds[1..], id) || d in Without(ds[1..], id) ==> d in ds
    {
      PartsOf(ds[1..], id, d);
    }
    GoingAndWithoutProj(ds[1..], id, id);
    SerialisedProj(Without(ds[1..], id), id);
  }

  /** A call is answered within its block. */
  lemma CallBlock(site: Site, s: Sys, id: string, call: Call, going: seq<Deed>, rest: seq<Deed>) returns (job: Job)
    requires s.books.Keys == site.volumes.Keys && AllIdle(s) && id in site.volumes && AllSteps(going, id)
    requires ConformingRun(site, s, [Of(id, Start(call))] + going + rest)
    requires AllIdle(Exec(site, s, [Of(id, Start(call))] + going + rest))
    requires Proj(rest, id) != [] ==> Begins(Proj(rest, id)[0])
    ensures Opening(job) == Of(id, Start(call)) && Does(site, s, [Of(id, Start(call))] + going, job)
  {
    var block := [Of(id, Start(call))] + going;
    var m := Exec(site, s, block);
    ExecConcat(site, s, block, rest);
    BlockKeys(site, s, block);
    if m.books[id].pc.Some? {
      StuckCall(site, m, rest, id);
    }
    BlockIsRpc(site, s, call, going, id);
    job := Rpc(id, call, EnvOf(site.cfg, s.world, Begin(site.cfg, call), going, id));
    AnsweredDoes(site, s, block, job);
  }

  lemma AnsweredDoes(site: Site, s: Sys, block: seq<Deed>, job: Job)
    requires AllIdle(s) && job.Rpc? && Answered(site, s, block, job.id, Run(site.cfg, s.world, job.call, job.env))
    ensures Does(site, s, block, job)
  {
  }

  /** The caller makes a staging directory at once. */
  lemma PrepareBlock(site: Site, s: Sys, id: string, c: Choice, going: seq<Deed>)
    requires s.books.Keys == site.volumes.Keys && AllIdle(s) && id in site.volumes && AllSteps(going, id)
    ensures Does(site, s, [Of(id, Prepare(c))] + going, Preparing(id, c))
  {
    var d := Of(id, Prepare(c));
    assert ([d] + going)[1..] == going;
    IdleSteps(site, Apply(site, s, d), going, id);
  }

  lemma {:induction false} BlockKeys(site: Site, s: Sys, ds: seq<Deed>)
    ensures Exec(site, s, ds).books.Keys == s.books.Keys
    decreases |ds|
  {
    if ds == [] {
    } else {
      BlockKeys(site, Apply(site, s, ds[0]), ds[1..]);
      assert Apply(site, s, ds[0]).books.Keys == s.books.Keys;
    }
  }

  /** A serialised run in which every call is answered. */
  ghost predicate Whole(site: Site, s: Sys, ds: seq<Deed>) {
    && FromRest(ds) && Orderly(site, ds) && s.books.Keys == site.volumes.Keys
    && AllIdle(s) && ConformingRun(site, s, Serialised(ds)) && AllIdle(Exec(site, s, Serialised(ds)))
  }

  ghost predicate Explained(site: Site, s: Sys, ds: seq<Deed>, jobs: seq<Job>) {
    Explains(site, s, Serialised(ds), jobs) && Openings(jobs) == Starts(ds)
  }

  lemma PruneIsFirst(site: Site, s: Sys, ds: seq<Deed>)
    requires Whole(site, s, ds) && ds != [] && ds[0].PruneCache?
    ensures Does(site, s, [ds[0]], Pruning(ds[0].choice))
    ensures Whole(site, Exec(site, s, [ds[0]]), ds[1..])
  {
    FromRestParts(ds);
    assert [ds[0]][1..] == [];
    ExecConcat(site, s, [ds[0]], Serialised(ds[1..]));
  }

  function FirstBlock(ds: seq<Deed>): seq<Deed>
    requires ds != [] && ds[0].Of?
  {
    [ds[0]] + Going(ds[1..], ds[0].id)
  }

  lemma JobIsFirst(site: Site, s: Sys, ds: seq<Deed>) returns (job: Job)
    requires Whole(site, s, ds) && ds != [] && ds[0].Of?
    ensures Opening(job) == ds[0] && Does(site, s, FirstBlock(ds), job)
    ensures Whole(site, Exec(site, s, FirstBlock(ds)), Without(ds[1..], ds[0].id))
  {
    FirstBlockStarts(site, ds);
    var id, going, rest := ds[0].id, Going(ds[1..], ds[0].id), Serialised(Without(ds[1..], ds[0].id));
    ExecConcat(site, s, FirstBlock(ds), rest);
    if ds[0].event.Start? {
      job := CallBlock(site, s, id, ds[0].event.call, going, rest);
    } else {
      job := Preparing(id, ds[0].event.choice);
      PrepareBlock(site, s, id, ds[0].event.choice, going);
    }
  }

  lemma JobThenJobs(site: Site, s: Sys, ds: seq<Deed>, job: Job, jobs: seq<Job>)
    requires ds != [] && ds[0].Of? && Opening(job) == ds[0] && Opens(ds[0]) && Does(site, s, FirstBlock(ds), job)
    requires Explained(site, Exec(site, s, FirstBlock(ds)), Without(ds[1..], ds[0].id), jobs)
    ensures Explained(site, s, ds, [job] + jobs)
  {
    ExplainsFirst(site, s, FirstBlock(ds), job, Serialised(Without(ds[1..], ds[0].id)), jobs);
    GoingAndWithoutStarts(ds[1..], ds[0].id);
    assert ([job] + jobs)[1..] == jobs;
  }

  lemma PruneThenJobs(site: Site, s: Sys, ds: seq<Deed>, job: Job, jobs: seq<Job>)
    requires ds != [] && ds[0].PruneCache? && Opening(job) == ds[0] && Does(site, s, [ds[0]], job)
    requires Explained(site, Exec(site, s, [ds[0]]), ds[1..], jobs)
    ensures Explained(site, s, ds, [job] + jobs)
  {
    ExplainsFirst(site, s, [ds[0]], job, Serialised(ds[1..]), jobs);
    assert ([job] + jobs)[1..] == jobs;
  }

  /** It is a sequence of RPCs, prepared staging directories and pruner passes. */
  lemma {:induction false} WholeRunIsJobs(site: Site, s: Sys, ds: seq<Deed>) returns (jobs: seq<Job>)
    requires Whole(site, s, ds)
    ensures Explained(site, s, ds, jobs)
    decreases |ds|
  {
    if ds == [] {
      jobs := [];
    } else if ds[0].PruneCache? {
      var job := Pruning(ds[0].choice);
      PruneIsFirst(site, s, ds);
      jobs := WholeRunIsJobs(site, Exec(site, s, [ds[0]]), ds[1..]);
      PruneThenJobs(site, s, ds, job, jobs);
      jobs := [job] + jobs;
    } else {
      var job := JobIsFirst(site, s, ds);
      jobs := WholeRunIsJobs(site, Exec(site, s, FirstBlock(ds)), Without(ds[1..], ds[0].id));
      JobThenJobs(site, s, ds, job, jobs);
      jobs := [job] + jobs;
    }
  }

  /**
   * Atomicity: take any conforming run from a fresh node, the steps of different volumes' calls and
   * of the pruner interleaved at will and failing at will, in which every call is answered. There are
   * whole RPCs, prepared staging directories and pruner passes, those that were started, in the order
   * in which they started, that run one after the other give the same mounts, the same tree outside the
   * cache, and every volume the same answers.
   */
  lemma AnsweredRunIsAtomic(site: Site, w: World, ds: seq<Deed>)
    requires Conforming(site, w, ds) && FromRest(ds) && Orderly(site, ds) && AllIdle(Reached(site, w, ds))
    ensures exists jobs :: Openings(jobs) == Starts(ds) && SameOutcome(site, w, Reached(site, w, ds), jobs)
  {
    SerialisedConforms(site, w, ds);
    var jobs := WholeRunIsJobs(site, Initial(site, w), ds);
    ExplainedIsOutcome(site, w, ds, jobs);
  }

  lemma ExplainedIsOutcome(site: Site, w: World, ds: seq<Deed>, jobs: seq<Job>)
    requires Explained(site, Initial(site, w), ds, jobs)
    requires SameButCache(site.cfg.cacheDir, Reached(site, w, Serialised(ds)).world, Reached(site, w, ds).world)
    requires Reached(site, w, Serialised(ds)).books == Reached(site, w, ds).books
    ensures SameOutcome(site, w, Reached(site, w, ds), jobs)
  {
    forall id | id in site.volumes
      ensures [] + Answers(site, w, jobs, id) == Answers(site, w, jobs, id)
    {
    }
  }

  ghost predicate SameOutcome(site: Site, w: World, s: Sys, jobs: seq<Job>) {
    && SameButCache(site.cfg.cacheDir, RunJobs(site, w, jobs), s.world)
    && s.books.Keys == site.volumes.Keys
    && forall id :: id in s.books ==> s.books[id].log == Answers(site, w, jobs, id)
  }
}
