/** Runs on one small site, to show that the premises of the run-wide results can be met. */
module Examples {
  import opened Atomic
  import opened Calls
  import opened Credentials
  import opened FileSystem
  import opened Layout
  import opened Node
  import opened NodeSteps
  import opened Paths
  import opened Pods
  import opened Safety
  import opened Serial
  import opened Text
  import opened Volumes

  const EMPTY_NODE := World(map[], map[])

  const POD_PUBLISH := PublishVolume("pod", Some(["pods", "a"]), None, true,
                                     map["csi.storage.k8s.io/ephemeral" := "true", "bottle" := "ref"], NoConfig, true)
  const PV_STAGE := StageVolume("pv", Some(["globalmount"]), true, map["bottle" := "ref"], NoConfig)
  const PV_PUBLISH := PublishVolume("pv", Some(["pods", "b"]), Some(["globalmount"]), true,
                                    map["csi.storage.k8s.io/ephemeral" := "false"], NoConfig, false)

  lemma EmptyIsFresh()
    ensures Fresh(ExampleSite(), EMPTY_NODE) && ExampleSite().Separate()
  {
    ExampleMeetsObligations();
  }

  lemma PodRequest()
    ensures var o := ExampleSite().At("pod");
      && o.Ephemeral() && o.Suits(POD_PUBLISH) && Wanted(POD_PUBLISH.context) in ExampleSite().cfg.catalog
  {
    assert "bottle" != "csi.storage.k8s.io/ephemeral" && "selector" != "bottle" && "selector" != "csi.storage.k8s.io/ephemeral";
  }

  lemma PvRequests()
    ensures var o := ExampleSite().At("pv");
      && StageRequest(o, PV_STAGE) && StagedPublishRequest(o, PV_PUBLISH, ["pods", "b"])
      && Open(o, EMPTY_NODE, ["pods", "b"]) && Open(o, EMPTY_NODE, ["pods", "c"])
  {
    assert "selector" != "bottle" && "bottle" != "csi.storage.k8s.io/ephemeral";
    assert "false" != "true" by {
      assert "false"[0] != "true"[0];
    }
  }

  /** All of one volume, opened first: from rest, orderly. */
  lemma OwnRun(site: Site, ds: seq<Deed>, id: string)
    requires id in site.volumes && ds != [] && ds[0].Of? && Begins(ds[0].event)
    requires forall i :: 0 <= i < |ds| ==> ds[i].Of? && ds[i].id == id && !ds[i].event.Crash?
    ensures FromRest(ds) && Orderly(site, ds)
  {
    forall other | Proj(ds, other) != []
      ensures Begins(Proj(ds, other)[0])
    {
      if other != id {
        NotOf(ds, id, other);
      }
    }
  }

  lemma {:induction false} NotOf(ds: seq<Deed>, id: string, other: string)
    requires other != id && forall i :: 0 <= i < |ds| ==> ds[i].Of? && ds[i].id == id
    ensures Proj(ds, other) == []
  {
    if ds == [] {
    } else {
      NotOf(ds[1..], id, other);
    }
  }

  lemma {:induction false} StepsAreSteps(cfg: Config, w: World, pc: Pc, env: Env, id: string)
    ensures AllSteps(StepDeeds(cfg, w, pc, env, id), id)
    decreases Rank(pc)
  {
    if pc.Done? {
    } else {
      var c := Pick(env, pc);
      StepsAreSteps(cfg, Do(w, EffectOf(cfg, w, pc, c)), NextOf(cfg, w, pc, c), env, id);
    }
  }

  /** One call run alone is a run from rest in which every call is answered. */
  lemma OneCall(site: Site, w: World, id: string, call: Call, env: Env)
    requires id in site.volumes
    ensures var ds := CallDeeds(site.cfg, w, id, call, env);
      FromRest(ds) && Orderly(site, ds) && AllIdle(Reached(site, w, ds))
  {
    var ds := CallDeeds(site.cfg, w, id, call, env);
    StepsAreSteps(site.cfg, w, Begin(site.cfg, call), env, id);
    OwnRun(site, ds, id);
    CallAnswers(site, Initial(site, w), id, call, env);
  }

  /** A conforming run from rest in which the one call is answered, and its target mounted. */
  lemma PodRun() returns (ds: seq<Deed>)
    ensures Conforming(ExampleSite(), EMPTY_NODE, ds) && FromRest(ds) && Orderly(ExampleSite(), ds)
    ensures AllIdle(Reached(ExampleSite(), EMPTY_NODE, ds))
    ensures ["pods", "a"] in Reached(ExampleSite(), EMPTY_NODE, ds).world.mounts
  {
    EmptyIsFresh();
    PodRequest();
    ds := PublishRun(ExampleSite(), EMPTY_NODE, "pod", POD_PUBLISH);
  }

  lemma PublishRun(site: Site, w: World, id: string, call: Call) returns (ds: seq<Deed>)
    requires site.Separate() && Fresh(site, w) && id in site.volumes && site.At(id).Ephemeral()
    requires call.PublishVolume? && site.At(id).Suits(call) && call.volumeId == id != ""
    requires call.hasCapability && Loads(call.secrets)
    requires call.targetPath.Some? && Wanted(call.context) in site.cfg.catalog
    requires !Blocked(w.tree, site.At(id).Staging()) && !Blocked(w.tree, call.targetPath.value)
    ensures Conforming(site, w, ds) && FromRest(ds) && Orderly(site, ds) && AllIdle(Reached(site, w, ds))
    ensures call.targetPath.value in Reached(site, w, ds).world.mounts
  {
    ds := CallDeeds(site.cfg, w, id, call, FAULTLESS);
    OneCall(site, w, id, call, FAULTLESS);
    PublishRunMounts(site, w, id, call);
  }

  /** A conforming run in which two pods share the persistent volume. */
  lemma PvRun() returns (ds: seq<Deed>)
    ensures Conforming(ExampleSite(), EMPTY_NODE, ds)
    ensures ["pods", "b"] in Reached(ExampleSite(), EMPTY_NODE, ds).world.mounts
    ensures ["pods", "c"] in Reached(ExampleSite(), EMPTY_NODE, ds).world.mounts
  {
    EmptyIsFresh();
    PvRequests();
    assert "b" != "c" && ["pods", "b"][1] != ["pods", "c"][1];
    ds := TwoPodsMount(ExampleSite(), EMPTY_NODE, "pv", PV_STAGE, PV_PUBLISH, ["pods", "b"], ["pods", "c"], "first", "other");
  }
}
