/** The directory layout under the storage directory keeps volumes, other paths and the cache apart. */
module Layout {
  import opened FileSystem
  import opened Finishing
  import opened Isolation
  import opened Node
  import opened NodeSteps
  import opened Paths
  import opened Text
  import opened Volumes

  lemma JoinOrdinary(base: Path, name: string)
    requires Ordinary(name)
    ensures JoinPath(base, name) == base + [name]
  {
    JoinIsChild(base, name);
  }

  lemma FixedNames()
    ensures Ordinary("ephemeral") && Ordinary("staging") && Ordinary("cache")
  {
  }

  lemma TwoComponents(base: Path, first: string, second: string)
    requires Ordinary(first) && Ordinary(second)
    ensures JoinPath(JoinPath(base, first), second) == base + [first, second]
  {
    JoinOrdinary(base, first);
    JoinOrdinary(base + [first], second);
    assert base + [first] + [second] == base + [first, second];
  }

  /** Where `NewNodeServer` puts things. */
  lemma NewConfigPaths(storageDir: Path, catalog: map<(string, seq<string>), Bottle>)
    ensures LaidOut(storageDir, NewConfig(storageDir, catalog)) && NewConfig(storageDir, catalog).catalog == catalog
  {
    FixedNames();
    TwoComponents(storageDir, "ephemeral", "staging");
    JoinOrdinary(storageDir, "cache");
  }

  /** The directories are laid out below the storage directory. */
  ghost predicate LaidOut(storageDir: Path, cfg: Config) {
    cfg.ephemeralStagingDir == storageDir + ["ephemeral", "staging"] && cfg.cacheDir == storageDir + ["cache"]
  }

  lemma ShelterPath(storageDir: Path, cfg: Config, id: string)
    requires Ordinary(id) && LaidOut(storageDir, cfg)
    ensures EphemeralPath(cfg, id) == storageDir + ["ephemeral", "staging", id]
  {
    JoinOrdinary(cfg.ephemeralStagingDir, id);
    assert storageDir + ["ephemeral", "staging"] + [id] == storageDir + ["ephemeral", "staging", id];
  }

  lemma ApartByComponent(a: Path, b: Path, n: nat)
    requires n < |a| && n < |b| && a[n] != b[n]
    ensures Apart(a, b)
  {
  }

  lemma ApartBelow(a: Path, dir: Path, p: Path)
    requires Apart(a, dir) && dir <= p
    ensures Apart(a, p)
  {
    if a <= p {
      PrefixLinear(a, dir, p);
    }
    if p <= a {
      PrefixTransitive(dir, p, a);
    }
  }

  /** Staging paths of ordinary volume IDs are distinct, none is under another, and none meets the cache. */
  lemma ShelterPaths(storageDir: Path, cfg: Config, id: string, other: string)
    requires Ordinary(id) && Ordinary(other) && LaidOut(storageDir, cfg)
    ensures storageDir <= EphemeralPath(cfg, id) && storageDir <= cfg.cacheDir
    ensures Apart(EphemeralPath(cfg, id), cfg.cacheDir)
    ensures id != other ==> Apart(EphemeralPath(cfg, id), EphemeralPath(cfg, other))
  {
    ShelterPath(storageDir, cfg, id);
    ShelterPath(storageDir, cfg, other);
    var a, b := storageDir + ["ephemeral", "staging", id], storageDir + ["ephemeral", "staging", other];
    ApartByComponent(a, storageDir + ["cache"], |storageDir|);
    if id != other {
      ApartByComponent(a, b, |storageDir| + 2);
    }
  }

  /** An ID is placed in a directory of its own name under the staging directory exactly if it is one ordinary component. */
  lemma OrdinaryIsNeeded(cfg: Config, id: string)
    ensures EphemeralPath(cfg, id) == cfg.ephemeralStagingDir + [id] <==> Ordinary(id)
  {
    JoinIsChild(cfg.ephemeralStagingDir, id);
  }

  /** The ephemeral staging path of an ID meets neither the cache nor that of any other ordinary ID. */
  ghost predicate Separated(cfg: Config, id: string) {
    && Apart(EphemeralPath(cfg, id), cfg.cacheDir)
    && forall other :: Ordinary(other) && other != id ==> Apart(EphemeralPath(cfg, id), EphemeralPath(cfg, other))
  }

  /** An ID whose path leads out of the staging directory, and not to the cache. */
  predicate Escapes(cfg: Config, id: string) {
    Apart(EphemeralPath(cfg, id), cfg.ephemeralStagingDir) && Apart(EphemeralPath(cfg, id), cfg.cacheDir)
  }

  /**
   * Separation holds exactly for IDs that are one ordinary component and for those that lead out of
   * the staging directory altogether. Any other ID meets the staging path of some ordinary ID.
   */
  lemma SeparatedExactly(storageDir: Path, cfg: Config, id: string)
    requires LaidOut(storageDir, cfg)
    ensures Separated(cfg, id) <==> Ordinary(id) || Escapes(cfg, id)
  {
    if Ordinary(id) {
      OrdinaryIsSeparated(storageDir, cfg, id);
    } else if Escapes(cfg, id) {
      forall other | Ordinary(other)
        ensures Apart(EphemeralPath(cfg, id), EphemeralPath(cfg, other))
      {
        JoinOrdinary(cfg.ephemeralStagingDir, other);
        ApartBelow(EphemeralPath(cfg, id), cfg.ephemeralStagingDir, EphemeralPath(cfg, other));
      }
    } else if Apart(EphemeralPath(cfg, id), cfg.cacheDir) {
      var other := Neighbour(cfg, id);
    }
  }

  lemma OrdinaryIsSeparated(storageDir: Path, cfg: Config, id: string)
    requires LaidOut(storageDir, cfg) && Ordinary(id)
    ensures Separated(cfg, id)
  {
    forall other | Ordinary(other) && other != id
      ensures Apart(EphemeralPath(cfg, id), EphemeralPath(cfg, other))
    {
      ShelterPaths(storageDir, cfg, id, other);
    }
    ShelterPaths(storageDir, cfg, id, id);
  }

  /** The ordinary ID whose staging path a badly placed ID meets. */
  lemma Neighbour(cfg: Config, id: string) returns (other: string)
    requires !Ordinary(id) && !Apart(EphemeralPath(cfg, id), cfg.ephemeralStagingDir)
    ensures Ordinary(other) && !Apart(EphemeralPath(cfg, id), EphemeralPath(cfg, other))
  {
    var base, p := cfg.ephemeralStagingDir, EphemeralPath(cfg, id);
    if p <= base {
      other := "a";
      JoinOrdinary(base, other);
      PrefixTransitive(p, base, base + [other]);
    } else {
      SplitPieces(id, '/');
      CleanKeepsOrdinary(base, Split(id, '/'), |base|);
      other := p[|base|];
      JoinOrdinary(base, other);
      assert base + [other] <= p;
    }
  }

  /** The ID "." is placed on the staging directory of all volumes. */
  lemma DotIsTheStagingDir(cfg: Config)
    ensures EphemeralPath(cfg, ".") == cfg.ephemeralStagingDir
  {
    SplitFree(".", '/');
    assert Clean(cfg.ephemeralStagingDir, ["."]) == Clean(cfg.ephemeralStagingDir, ["."][1..]);
  }

  /**
   * An ID that is not ordinary does harm: an Unpublish for "." whose steps all succeed answers OK and
   * removes the staging directory of any other ephemeral volume, also of one that is mounted.
   */
  lemma DotIdPurgesOthers(cfg: Config, w: World, t: Path, other: string, u: Path)
    requires Apart(t, cfg.ephemeralStagingDir) && cfg.ephemeralStagingDir in w.tree
    requires forall m :: m in w.mounts ==> !(m <= t) && !(m <= cfg.ephemeralStagingDir)
    requires Ordinary(other) && EphemeralPath(cfg, other) in w.tree
    requires u in w.mounts && w.mounts[u] == [Mount(EphemeralPath(cfg, other), Options(false))]
    ensures var (n, r) := Run(cfg, w, UnpublishVolume(".", Some(t)), FAULTLESS);
      && r == OK && EphemeralPath(cfg, other) !in n.tree
      && u in n.mounts && n.mounts[u] == [Mount(EphemeralPath(cfg, other), Options(false))]
  {
    DotIsTheStagingDir(cfg);
    JoinOrdinary(cfg.ephemeralStagingDir, other);
    assert cfg.ephemeralStagingDir <= EphemeralPath(cfg, other);
    UnpublishPurges(cfg, w, t, cfg.ephemeralStagingDir);
  }

  /** The paths the caller chooses for a volume. */
  function Chosen(vol: Volume): set<Path> {
    vol.targets + (if !IsEphemeral(vol.context) && vol.staging.Some? then {vol.staging.value} else {})
  }

  /**
   * What the Container Storage Interface and the driver ask of the caller: volume IDs are ordinary
   * path components; a persistent volume has a staging path; an ephemeral volume has one target; all
   * target and staging paths are apart from each other and from the storage directory.
   */
  ghost predicate Obligations(storageDir: Path, site: Site) {
    && LaidOut(storageDir, site.cfg)
    && (forall key :: key in site.cfg.catalog ==> BottleOK(site.cfg.catalog[key]))
    && (forall id :: id in site.volumes ==> Ordinary(id) && Duly(site.volumes[id]))
    && (forall id, a :: id in site.volumes && a in Chosen(site.volumes[id]) ==> Apart(a, storageDir))
    && (forall id, other :: id in site.volumes && other in site.volumes && id != other ==>
          forall a, b :: a in Chosen(site.volumes[id]) && b in Chosen(site.volumes[other]) ==> Apart(a, b))
  }

  ghost predicate Duly(vol: Volume) {
    && (forall a, b :: a in Chosen(vol) && b in Chosen(vol) && a != b ==> Apart(a, b))
    && (if IsEphemeral(vol.context) then forall t, u :: t in vol.targets && u in vol.targets ==> t == u
        else vol.staging.Some? && vol.staging.value !in vol.targets)
  }

  /** A root of a volume is its place under the staging directory or a path the caller chose. */
  lemma RootIsChosenOrShelter(storageDir: Path, site: Site, id: string, r: Path)
    requires Obligations(storageDir, site) && id in site.volumes && r in site.At(id).Roots()
    ensures r == site.At(id).shelter || r in Chosen(site.volumes[id])
    ensures storageDir <= site.At(id).shelter && storageDir <= site.cfg.cacheDir
    ensures Apart(r, site.cfg.cacheDir)
  {
    ShelterPaths(storageDir, site.cfg, id, id);
    if r in Chosen(site.volumes[id]) {
      ApartBelow(r, storageDir, site.cfg.cacheDir);
    }
  }

  lemma RootsApart(storageDir: Path, site: Site, id: string, other: string, a: Path, b: Path)
    requires Obligations(storageDir, site) && id in site.volumes && other in site.volumes
    requires a in site.At(id).Roots() && b in site.At(other).Roots() && (id != other || a != b)
    ensures Apart(a, b)
  {
    RootIsChosenOrShelter(storageDir, site, id, a);
    RootIsChosenOrShelter(storageDir, site, other, b);
    var s, u := site.At(id).shelter, site.At(other).shelter;
    if a in Chosen(site.volumes[id]) && b in Chosen(site.volumes[other]) {
      assert Duly(site.volumes[id]);
    } else if a in Chosen(site.volumes[id]) {
      ApartBelow(a, storageDir, u);
    } else if b in Chosen(site.volumes[other]) {
      ApartBelow(b, storageDir, s);
    } else {
      ShelterPaths(storageDir, site.cfg, id, other);
    }
  }

  /** A caller that meets its obligations keeps all volumes and the cache apart. */
  lemma ObligationsSeparate(storageDir: Path, site: Site)
    requires Obligations(storageDir, site)
    ensures site.Separate()
  {
    forall id | id in site.volumes
      ensures site.At(id).Layout()
    {
      LayoutOf(storageDir, site, id);
    }
    forall id, other | id in site.volumes && other in site.volumes && id != other
      ensures Strangers(site.At(id), site.At(other))
    {
      forall a, b | a in site.At(id).Roots() && b in site.At(other).Roots()
        ensures Apart(a, b)
      {
        RootsApart(storageDir, site, id, other, a, b);
      }
    }
  }

  lemma ShelterNotChosen(storageDir: Path, site: Site, id: string)
    requires Obligations(storageDir, site) && id in site.volumes
    ensures site.At(id).shelter !in Chosen(site.volumes[id])
  {
    var o := site.At(id);
    RootIsChosenOrShelter(storageDir, site, id, o.shelter);
    if o.shelter in Chosen(site.volumes[id]) {
      ApartBelow(o.shelter, storageDir, o.shelter);
    }
  }

  lemma SpacedByDuty(o: Owner)
    requires Duly(o.vol) && o.shelter !in Chosen(o.vol)
    requires forall a, b :: a in o.Roots() && b in o.Roots() && a != b ==> Apart(a, b)
    requires forall a :: a in o.Roots() ==> Apart(a, o.cfg.cacheDir)
    requires forall key :: key in o.cfg.catalog ==> BottleOK(o.cfg.catalog[key])
    ensures o.Spaced()
  {
  }

  lemma LayoutOf(storageDir: Path, site: Site, id: string)
    requires Obligations(storageDir, site) && id in site.volumes
    ensures site.At(id).Layout()
  {
    var o := site.At(id);
    forall a, b | a in o.Roots() && b in o.Roots() && a != b
      ensures Apart(a, b)
    {
      RootsApart(storageDir, site, id, id, a, b);
    }
    forall a | a in o.Roots()
      ensures Apart(a, site.cfg.cacheDir)
    {
      RootIsChosenOrShelter(storageDir, site, id, a);
    }
    ShelterNotChosen(storageDir, site, id);
    SpacedByDuty(o);
  }

  /** The obligations can be met: one ephemeral and one persistent volume with two targets. */
  function ExampleSite(): Site {
    var bottle := map[[] := Dir, ["data"] := File("content")];
    Site(Config(["srv", "ephemeral", "staging"], ["srv", "cache"], map[("ref", []) := bottle]),
         map["pod" := Volume(map[EPHEMERAL_KEY := "true", "bottle" := "ref"], None, {["pods", "a"]}, {["pods", "a"]}),
             "pv" := Volume(map["bottle" := "ref"], Some(["globalmount"]), {["pods", "b"], ["pods", "c"]}, {})])
  }

  lemma ExampleBottle()
    ensures BottleOK(map[[] := Dir, ["data"] := File("content")])
  {
    assert ["data"][..0] == [] && ["data"][..1] == ["data"];
  }

  lemma ExampleIsLaidOut()
    ensures LaidOut(["srv"], ExampleSite().cfg)
    ensures forall key :: key in ExampleSite().cfg.catalog ==> BottleOK(ExampleSite().cfg.catalog[key])
  {
    ExampleBottle();
    assert ["srv"] + ["ephemeral", "staging"] == ["srv", "ephemeral", "staging"] && ["srv"] + ["cache"] == ["srv", "cache"];
  }

  lemma ExamplePaths(a: Path)
    requires a in {["pods", "a"], ["pods", "b"], ["pods", "c"], ["globalmount"]}
    ensures Apart(a, ["srv"])
    ensures a != ["pods", "a"] ==> Apart(a, ["pods", "a"]) && Apart(["pods", "a"], a)
  {
    ApartByComponent(a, ["srv"], 0);
    if a == ["globalmount"] {
      ApartByComponent(a, ["pods", "a"], 0);
    } else if a != ["pods", "a"] {
      ApartByComponent(a, ["pods", "a"], 1);
    }
  }

  lemma ExampleMeetsObligations()
    ensures Obligations(["srv"], ExampleSite()) && ExampleSite().Separate()
  {
    ExampleIsLaidOut();
    ExampleVolumes();
    ExampleSpaced(ExampleSite().volumes);
    ObligationsSeparate(["srv"], ExampleSite());
  }

  lemma ExampleSpaced(volumes: map<string, Volume>)
    requires volumes.Keys == {"pod", "pv"} && Chosen(volumes["pod"]) == {["pods", "a"]}
    requires Chosen(volumes["pv"]) == {["pods", "b"], ["pods", "c"], ["globalmount"]}
    ensures forall id, a :: id in volumes && a in Chosen(volumes[id]) ==> Apart(a, ["srv"])
    ensures forall id, other :: id in volumes && other in volumes && id != other ==>
      forall a, b :: a in Chosen(volumes[id]) && b in Chosen(volumes[other]) ==> Apart(a, b)
  {
    assert ["pods", "a"][1] == "a" && ["pods", "b"][1] == "b" && ["pods", "c"][1] == "c";
    forall a | a in {["pods", "a"], ["pods", "b"], ["pods", "c"], ["globalmount"]}
      ensures Apart(a, ["srv"])
      ensures a != ["pods", "a"] ==> Apart(a, ["pods", "a"]) && Apart(["pods", "a"], a)
    {
      ExamplePaths(a);
    }
  }

  lemma ExampleVolumes()
    ensures var site := ExampleSite();
      && site.volumes.Keys == {"pod", "pv"} && Ordinary("pod") && Ordinary("pv")
      && Chosen(site.volumes["pod"]) == {["pods", "a"]}
      && Chosen(site.volumes["pv"]) == {["pods", "b"], ["pods", "c"], ["globalmount"]}
      && Duly(site.volumes["pod"]) && Duly(site.volumes["pv"])
  {
    var site := ExampleSite();
    assert "a" != "b" && "b" != "c" && "pods" != "globalmount" && "pods" != "srv" && "globalmount" != "srv";
    ApartByComponent(["pods", "b"], ["pods", "c"], 1);
    ApartByComponent(["pods", "c"], ["pods", "b"], 1);
    ApartByComponent(["pods", "b"], ["globalmount"], 0);
    ApartByComponent(["pods", "c"], ["globalmount"], 0);
    ApartByComponent(["globalmount"], ["pods", "b"], 0);
    ApartByComponent(["globalmount"], ["pods", "c"], 0);
  }
}
