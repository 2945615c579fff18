/** Several pods on one persistent volume: runs in which the caller stages it once and publishes it many times. */
module Pods {
  import opened Calls
  import opened Credentials
  import opened FileSystem
  import opened Finishing
  import opened Lifecycle
  import opened Node
  import opened NodeSteps
  import opened Paths
  import opened Safety
  import opened Text
  import opened Volumes

  /** Where a Stage call may stand. */
  predicate StagingOnly(pc: Pc) {
    match pc
    case Resolving(_, _, next) => next.EndStage?
    case Pulling(_, _, next) => next.EndStage?
    case Notifying(_, next) => next.EndStage?
    case Done(r) => r != OK
    case _ => false
  }

  lemma StagingGoesOnOrEnds(o: Owner, l: Ledger, c: Choice, v: Verdict, e: Effect)
    requires l.pc.Some? && !l.pc.value.Done? && StagingOnly(l.pc.value)
    ensures var next := After(l.pc.value, v);
      (next == Done(OK) && Settle(o, l, c, next, e).ready) || StagingOnly(next)
  {
  }

  /** A Stage answered OK has made the volume ready for Publish. */
  lemma {:induction false} StageMakesReady(site: Site, s: Sys, id: string, env: Env)
    requires id in site.volumes && id in s.books && s.books[id].pc.Some? && !s.books[id].pc.value.Done?
    requires StagingOnly(s.books[id].pc.value) && Finish(site.cfg, s.world, s.books[id].pc.value, env).1 == OK
    ensures var n := Exec(site, s, StepDeeds(site.cfg, s.world, s.books[id].pc.value, env, id));
      id in n.books && n.books[id].ready
    decreases Rank(s.books[id].pc.value)
  {
    var pc := s.books[id].pc.value;
    var c := Pick(env, pc);
    var d, next := Of(id, Step(c)), NextOf(site.cfg, s.world, pc, c);
    var n := Apply(site, s, d);
    var rest := StepDeeds(site.cfg, n.world, next, env, id);
    assert ([d] + rest)[1..] == rest;
    StagingGoesOnOrEnds(site.At(id), s.books[id], c, VerdictOf(site.cfg, s.world, pc, c), EffectOf(site.cfg, s.world, pc, c));
    if next.Done? {
      assert rest == [];
    } else {
      StageMakesReady(site, n, id, env);
    }
  }

  /** What was published and staged still is. */
  predicate Keeps(l: Ledger, n: Ledger) {
    l.shown <= n.shown && (l.ready ==> n.ready)
  }

  lemma PublishingGoesOnOrEnds(o: Owner, l: Ledger, c: Choice, v: Verdict, e: Effect, t: Path)
    requires l.pc.Some? && !l.pc.value.Done? && Publishing(l.pc.value, t)
    ensures var next := After(l.pc.value, v);
      (next == Done(OK) && t in Settle(o, l, c, next, e).shown) || Publishing(next, t)
    ensures Keeps(l, Settle(o, l, c, After(l.pc.value, v), e))
  {
  }

  /** A Publish answered OK is noted as shown. */
  lemma {:induction false} PublishIsShown(site: Site, s: Sys, id: string, env: Env, t: Path)
    requires id in site.volumes && id in s.books && s.books[id].pc.Some? && !s.books[id].pc.value.Done?
    requires Publishing(s.books[id].pc.value, t) && Finish(site.cfg, s.world, s.books[id].pc.value, env).1 == OK
    ensures var n := Exec(site, s, StepDeeds(site.cfg, s.world, s.books[id].pc.value, env, id));
      id in n.books && t in n.books[id].shown && Keeps(s.books[id], n.books[id])
    decreases Rank(s.books[id].pc.value)
  {
    var pc := s.books[id].pc.value;
    var c := Pick(env, pc);
    var d, next := Of(id, Step(c)), NextOf(site.cfg, s.world, pc, c);
    var n := Apply(site, s, d);
    var rest := StepDeeds(site.cfg, n.world, next, env, id);
    assert ([d] + rest)[1..] == rest;
    PublishingGoesOnOrEnds(site.At(id), s.books[id], c, VerdictOf(site.cfg, s.world, pc, c), EffectOf(site.cfg, s.world, pc, c), t);
    if next.Done? {
      assert rest == [];
    } else {
      PublishIsShown(site, n, id, env, t);
    }
  }

  /** A complete Stage request for a persistent volume whose bottle the registry has. */
  ghost predicate StageRequest(o: Owner, call: Call) {
    && call.StageVolume? && o.Suits(call) && call.volumeId == o.id != "" && call.hasCapability && Loads(call.secrets)
    && call.stagingPath.Some? && Wanted(o.vol.context) in o.cfg.catalog
  }

  lemma BeginStage(o: Owner, call: Call)
    requires StageRequest(o, call)
    ensures Begin(o.cfg, call) == Resolving(o.Staging(), Wanted(o.vol.context), EndStage)
  {
  }

  /** A target that can be mounted: no mount on it and no file in the way. */
  ghost predicate Open(o: Owner, w: World, t: Path) {
    t in o.vol.targets && t !in w.mounts && !Blocked(w.tree, t)
  }

  /** A faultless Stage of a safe volume with no file in the way succeeds, and leaves open targets open. */
  lemma StageRuns(o: Owner, w: World, call: Call)
    requires o.Layout() && o.Tidy(w) && StagedPart(o, w.tree) && StageRequest(o, call) && !Blocked(w.tree, o.Staging())
    ensures var (n, r) := Run(o.cfg, w, call, FAULTLESS);
      r == OK && forall t :: Open(o, w, t) ==> Open(o, n, t)
  {
    BeginStage(o, call);
    FinishResolving(o.cfg, w, o.Staging(), Wanted(o.vol.context), EndStage, FAULTLESS);
    FinishPulling(o.cfg, w, o.Staging(), Wanted(o.vol.context), FAULTLESS);
    ResolveRoot(o, w, o.Staging());
    forall t | Open(o, w, t)
      ensures Open(o, Run(o.cfg, w, call, FAULTLESS).0, t)
    {
      assert Apart(t, o.cfg.cacheDir);
      PullSucceeds(o, w, t);
    }
  }

  /** Stage as a part of a run. */
  lemma StageInRun(site: Site, s: Sys, id: string, call: Call)
    requires site.Separate() && AllSafe(site, s) && id in site.volumes && s.books[id].pc.None?
    requires StageRequest(site.At(id), call) && !Blocked(s.world.tree, site.At(id).Staging())
    ensures var ds := CallDeeds(site.cfg, s.world, id, call, FAULTLESS);
      var n := Exec(site, s, ds);
      && ConformingRun(site, s, ds) && AllSafe(site, n)
      && (forall t :: Open(site.At(id), s.world, t) ==> Open(site.At(id), n.world, t))
      && n.books[id].pc.None? && n.books[id].ready && n.books[id].log == s.books[id].log + [OK]
  {
    var d := Of(id, Start(call));
    var rest := StepDeeds(site.cfg, s.world, Begin(site.cfg, call), FAULTLESS, id);
    var m := Apply(site, s, d);
    CallConforms(site, s, id, call, FAULTLESS);
    CallAnswers(site, s, id, call, FAULTLESS);
    RunIsSafe(site, s, CallDeeds(site.cfg, s.world, id, call, FAULTLESS));
    StageRuns(site.At(id), s.world, call);
    BeginStage(site.At(id), call);
    StartApplied(site, s, id, call);
    StageMakesReady(site, m, id, FAULTLESS);
    assert ([d] + rest)[1..] == rest;
  }

  /** A whole Publish call answered OK is noted as shown. */
  lemma PublishCallIsShown(site: Site, s: Sys, id: string, call: Call, env: Env, t: Path)
    requires id in site.volumes && id in s.books && s.books[id].pc.None?
    requires Publishing(Begin(site.cfg, call), t) && Run(site.cfg, s.world, call, env).1 == OK
    ensures var n := Exec(site, s, CallDeeds(site.cfg, s.world, id, call, env));
      id in n.books && t in n.books[id].shown && Keeps(s.books[id], n.books[id])
  {
    var d := Of(id, Start(call));
    var rest := StepDeeds(site.cfg, s.world, Begin(site.cfg, call), env, id);
    StartApplied(site, s, id, call);
    PublishIsShown(site, Apply(site, s, d), id, env, t);
    assert ([d] + rest)[1..] == rest;
  }

  /** A faultless Publish of a staged volume succeeds and leaves the other open targets open. */
  lemma PublishRuns(o: Owner, w: World, call: Call, t: Path)
    requires o.Layout() && o.Tidy(w) && StagedPublishRequest(o, call, t) && Open(o, w, t) && o.Staging() in w.tree
    ensures var (n, r) := Run(o.cfg, w, call, FAULTLESS);
      r == OK && forall u :: Open(o, w, u) && u != t ==> Open(o, n, u)
  {
    BeginStagedPublish(o, call, t);
    MountSucceeds(o, w, t);
  }

  /** Publish of a staged volume as a part of a run. */
  lemma StagedPublishInRun(site: Site, s: Sys, id: string, call: Call, t: Path)
    requires site.Separate() && AllSafe(site, s) && id in site.volumes && s.books[id].pc.None? && s.books[id].ready
    requires StagedPublishRequest(site.At(id), call, t) && Open(site.At(id), s.world, t)
    ensures var ds := CallDeeds(site.cfg, s.world, id, call, FAULTLESS);
      var n := Exec(site, s, ds);
      && ConformingRun(site, s, ds) && AllSafe(site, n)
      && (forall u :: Open(site.At(id), s.world, u) && u != t ==> Open(site.At(id), n.world, u))
      && n.books[id].pc.None? && t in n.books[id].shown && Keeps(s.books[id], n.books[id])
      && n.books[id].log == s.books[id].log + [OK]
  {
    CallConforms(site, s, id, call, FAULTLESS);
    CallAnswers(site, s, id, call, FAULTLESS);
    RunIsSafe(site, s, CallDeeds(site.cfg, s.world, id, call, FAULTLESS));
    PublishRuns(site.At(id), s.world, call, t);
    BeginStagedPublish(site.At(id), call, t);
    PublishCallIsShown(site, s, id, call, FAULTLESS, t);
  }

  /** Complete requests to publish the volume at different open targets, whatever their contexts say of the pods. */
  ghost predicate PublishRequests(o: Owner, w: World, calls: seq<Call>, targets: seq<Path>) {
    && |calls| == |targets|
    && (forall i :: 0 <= i < |calls| ==> StagedPublishRequest(o, calls[i], targets[i]) && Open(o, w, targets[i]))
    && (forall i, j :: 0 <= i < j < |targets| ==> targets[i] != targets[j])
  }

  predicate AllOK(log: seq<Response>) {
    forall r :: r in log ==> r == OK
  }

  /** Targets that can still be published one after the other. */
  ghost predicate CanPublish(site: Site, s: Sys, id: string, calls: seq<Call>, targets: seq<Path>) {
    && site.Separate() && AllSafe(site, s) && id in site.volumes && s.books[id].pc.None? && s.books[id].ready
    && PublishRequests(site.At(id), s.world, calls, targets)
  }

  lemma PublishFirst(site: Site, s: Sys, id: string, calls: seq<Call>, targets: seq<Path>)
    requires CanPublish(site, s, id, calls, targets) && AllOK(s.books[id].log) && calls != []
    ensures var ds := CallDeeds(site.cfg, s.world, id, calls[0], FAULTLESS);
      var n := Exec(site, s, ds);
      && ConformingRun(site, s, ds) && CanPublish(site, n, id, calls[1..], targets[1..])
      && targets[0] in n.books[id].shown && Keeps(s.books[id], n.books[id])
      && |n.books[id].log| == |s.books[id].log| + 1 && AllOK(n.books[id].log)
  {
    var n := Exec(site, s, CallDeeds(site.cfg, s.world, id, calls[0], FAULTLESS));
    StagedPublishInRun(site, s, id, calls[0], targets[0]);
    RequestsLeft(site.At(id), s.world, n.world, calls, targets);
    OneMoreOK(s.books[id], n.books[id]);
  }

  lemma OneMoreOK(l: Ledger, n: Ledger)
    requires n.log == l.log + [OK] && AllOK(l.log)
    ensures |n.log| == |l.log| + 1 && AllOK(n.log)
  {
  }

  /** A staged volume can be published at any number of targets. */
  lemma {:induction false} PublishAllInRun(site: Site, s: Sys, id: string, calls: seq<Call>, targets: seq<Path>)
    returns (ds: seq<Deed>)
    requires CanPublish(site, s, id, calls, targets) && AllOK(s.books[id].log)
    ensures ConformingRun(site, s, ds)
    ensures var n := Exec(site, s, ds);
      && id in n.books && n.books[id].pc.None? && Keeps(s.books[id], n.books[id])
      && (forall t :: t in targets ==> t in n.books[id].shown)
      && |n.books[id].log| == |s.books[id].log| + |calls| && AllOK(n.books[id].log)
    decreases |calls|
  {
    if calls == [] {
      ds := [];
    } else {
      var a := CallDeeds(site.cfg, s.world, id, calls[0], FAULTLESS);
      PublishFirst(site, s, id, calls, targets);
      var b := PublishAllInRun(site, Exec(site, s, a), id, calls[1..], targets[1..]);
      ds := a + b;
      ExecConcat(site, s, a, b);
      AllShown(s.books[id], Exec(site, s, a).books[id], Exec(site, s, ds).books[id], targets);
    }
  }

  lemma AllShown(l: Ledger, m: Ledger, n: Ledger, targets: seq<Path>)
    requires Keeps(l, m) && Keeps(m, n) && targets != [] && targets[0] in m.shown
    requires forall t :: t in targets[1..] ==> t in n.shown
    ensures Keeps(l, n) && forall t :: t in targets ==> t in n.shown
  {
    assert targets == [targets[0]] + targets[1..];
  }

  lemma RequestsLeft(o: Owner, w: World, n: World, calls: seq<Call>, targets: seq<Path>)
    requires PublishRequests(o, w, calls, targets) && calls != []
    requires forall u :: Open(o, w, u) && u != targets[0] ==> Open(o, n, u)
    ensures PublishRequests(o, n, calls[1..], targets[1..])
  {
  }

  /** On a fresh node the caller makes the staging directory of a persistent volume. */
  lemma PrepareInRun(site: Site, w: World, id: string)
    requires site.Separate() && Fresh(site, w) && id in site.volumes && !site.At(id).Ephemeral()
    requires !Blocked(w.tree, site.At(id).Staging())
    ensures var s, d := Initial(site, w), Of(id, Prepare(SMOOTH));
      var n := Apply(site, s, d);
      && Permitted(site, s, d) && AllSafe(site, n) && n.books[id].pc.None? && n.books[id].log == []
      && !Blocked(n.world.tree, site.At(id).Staging())
      && (forall t :: Open(site.At(id), w, t) ==> Open(site.At(id), n.world, t))
  {
    InitialIsSafe(site, w);
    DeedIsSafe(site, Initial(site, w), Of(id, Prepare(SMOOTH)));
    PreparationIsGentle(site.At(id), w, SMOOTH);
    PreparationBlocksNothing(site.At(id), w, SMOOTH);
  }

  lemma PreparationBlocksNothing(o: Owner, w: World, c: Choice)
    ensures forall p :: Blocked(Do(w, Preparation(o, w, c)).tree, p) ==> Blocked(w.tree, p)
  {
  }

  lemma StageFirst(site: Site, s: Sys, id: string, stage: Call, calls: seq<Call>, targets: seq<Path>)
    requires site.Separate() && AllSafe(site, s) && id in site.volumes && s.books[id].pc.None? && AllOK(s.books[id].log)
    requires StageRequest(site.At(id), stage) && !Blocked(s.world.tree, site.At(id).Staging())
    requires PublishRequests(site.At(id), s.world, calls, targets)
    ensures var ds := CallDeeds(site.cfg, s.world, id, stage, FAULTLESS);
      var n := Exec(site, s, ds);
      && ConformingRun(site, s, ds) && CanPublish(site, n, id, calls, targets)
      && |n.books[id].log| == |s.books[id].log| + 1 && AllOK(n.books[id].log)
  {
    var n := Exec(site, s, CallDeeds(site.cfg, s.world, id, stage, FAULTLESS));
    StageInRun(site, s, id, stage);
    StillOpen(site.At(id), s.world, n.world, calls, targets);
    OneMoreOK(s.books[id], n.books[id]);
  }

  lemma StillOpen(o: Owner, w: World, n: World, calls: seq<Call>, targets: seq<Path>)
    requires PublishRequests(o, w, calls, targets) && forall t :: Open(o, w, t) ==> Open(o, n, t)
    ensures PublishRequests(o, n, calls, targets)
  {
  }

  /** From a safe state a volume can be staged and published at any number of targets. */
  lemma StageAndPublishInRun(site: Site, s: Sys, id: string, stage: Call, calls: seq<Call>, targets: seq<Path>)
    returns (ds: seq<Deed>)
    requires site.Separate() && AllSafe(site, s) && id in site.volumes && s.books[id].pc.None? && AllOK(s.books[id].log)
    requires StageRequest(site.At(id), stage) && !Blocked(s.world.tree, site.At(id).Staging())
    requires PublishRequests(site.At(id), s.world, calls, targets)
    ensures ConformingRun(site, s, ds)
    ensures var n := Exec(site, s, ds);
      && id in n.books && n.books[id].pc.None? && (forall t :: t in targets ==> t in n.books[id].shown)
      && |n.books[id].log| == |s.books[id].log| + 1 + |calls| && AllOK(n.books[id].log)
  {
    var a := CallDeeds(site.cfg, s.world, id, stage, FAULTLESS);
    StageFirst(site, s, id, stage, calls, targets);
    var b := PublishAllInRun(site, Exec(site, s, a), id, calls, targets);
    ds := a + b;
    ExecConcat(site, s, a, b);
  }

  /**
   * A conforming run in which targets of a persistent volume get mounted: on a fresh node with no file
   * in the way the caller makes the staging directory, stages the volume and publishes it at any number
   * of targets, each request with its own context, without faults. All calls are answered OK, and all
   * the targets are mounted.
   */
  lemma StagedPublishRunMounts(site: Site, w: World, id: string, stage: Call, calls: seq<Call>, targets: seq<Path>)
    returns (ds: seq<Deed>)
    requires site.Separate() && Fresh(site, w) && id in site.volumes
    requires StageRequest(site.At(id), stage) && !Blocked(w.tree, site.At(id).Staging())
    requires PublishRequests(site.At(id), w, calls, targets)
    ensures |ds| >= 1 && ds[0] == Of(id, Prepare(SMOOTH)) && Conforming(site, w, ds)
    ensures var n := Reached(site, w, ds);
      && id in n.books && n.books[id].pc.None? && |n.books[id].log| == 1 + |calls| && AllOK(n.books[id].log)
      && (forall t :: t in targets ==> t in n.books[id].shown && t in n.world.mounts)
  {
    var s, d := Initial(site, w), Of(id, Prepare(SMOOTH));
    PrepareInRun(site, w, id);
    StillOpen(site.At(id), w, Apply(site, s, d).world, calls, targets);
    var rest := StageAndPublishInRun(site, Apply(site, s, d), id, stage, calls, targets);
    ds := [d] + rest;
    assert ds[1..] == rest;
    forall t | t in targets
      ensures t in Reached(site, w, ds).world.mounts
    {
      ShownIsMounted(site, w, ds, id, t);
    }
  }

  const POD_NAME := "csi.storage.k8s.io/pod.name"

  /** The Publish request for another pod: its name in the context, and its target. */
  function ForPod(o: Owner, call: Call, pod: string, t: Path): Call
    requires call.PublishVolume?
  {
    call.(context := call.context[POD_NAME := pod], targetPath := Some(t), readOnly := t in o.vol.readOnly)
  }

  /** What a context says of the pod does not matter for what the request may ask. */
  lemma ForPodIsRequest(o: Owner, call: Call, pod: string, t: Path, u: Path)
    requires StagedPublishRequest(o, call, t) && u in o.vol.targets
    ensures StagedPublishRequest(o, ForPod(o, call, pod, u), u)
  {
    assert POD_NAME != EPHEMERAL_KEY;
  }

  /** Two pods on one persistent volume, each published with its own name in the context. */
  lemma TwoPodsMount(site: Site, w: World, id: string, stage: Call, publish: Call, t: Path, u: Path, a: string, b: string)
    returns (ds: seq<Deed>)
    requires site.Separate() && Fresh(site, w) && id in site.volumes && t != u && a != b
    requires StageRequest(site.At(id), stage) && StagedPublishRequest(site.At(id), publish, t)
    requires !Blocked(w.tree, site.At(id).Staging())
    requires Open(site.At(id), w, t) && Open(site.At(id), w, u)
    ensures ForPod(site.At(id), publish, a, t).context != ForPod(site.At(id), publish, b, u).context
    ensures Conforming(site, w, ds)
    ensures var n := Reached(site, w, ds);
      id in n.books && n.books[id].log == [OK, OK, OK] && t in n.world.mounts && u in n.world.mounts
  {
    var o := site.At(id);
    var calls, targets := [ForPod(o, publish, a, t), ForPod(o, publish, b, u)], [t, u];
    ForPodIsRequest(o, publish, a, t, t);
    ForPodIsRequest(o, publish, b, t, u);
    assert ForPod(o, publish, a, t).context[POD_NAME] == a && ForPod(o, publish, b, u).context[POD_NAME] == b;
    ds := StagedPublishRunMounts(site, w, id, stage, calls, targets);
    assert targets[0] == t && targets[1] == u;
    ThreeOK(Reached(site, w, ds).books[id].log);
  }

  lemma ThreeOK(log: seq<Response>)
    requires |log| == 3 && AllOK(log)
    ensures log == [OK, OK, OK]
  {
    assert log[0] in log && log[1] in log && log[2] in log;
  }
}
