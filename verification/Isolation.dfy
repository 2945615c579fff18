/** A call for a volume depends on nothing but the volume's slice of the node, and changes nothing of other slices. */
module Isolation {
  import opened FileSystem
  import opened NodeSteps
  import opened Paths
  import opened Volumes

  /** The mount table looks the same from one of the volume's paths. */
  lemma SliceResolves(o: Owner, w: World, r: Path)
    requires o.Tidy(w) && r in o.Roots()
    ensures Resolve(o.Slice(w).mounts, r) == Resolve(w.mounts, r)
    ensures Resolve(w.mounts, r) in o.Roots()
    ensures r in o.Slice(w).mounts <==> r in w.mounts
    ensures r in w.mounts ==> o.Slice(w).mounts[r] == w.mounts[r]
  {
    ResolveRoot(o, w, r);
    SliceTidy(o, w);
    ResolveRoot(o, o.Slice(w), r);
  }

  lemma SliceMkdir(o: Owner, w: World, r: Path, c: Choice)
    requires o.Tidy(w) && r in o.Roots()
    ensures MkdirAll(o.Slice(w), r, c) == MkdirAll(w, r, c)
  {
    SliceResolves(o, w, r);
    SliceSees(o, w, Resolve(w.mounts, r));
  }

  lemma SliceRemove(o: Owner, w: World, r: Path, c: Choice)
    requires o.Tidy(w) && r in o.Roots()
    ensures RemoveAll(o.Slice(w), r, c) == RemoveAll(w, r, c)
  {
    SliceResolves(o, w, r);
    SliceSees(o, w, Resolve(w.mounts, r));
  }

  lemma SlicePull(o: Owner, w: World, r: Path, b: Bottle, c: Choice)
    requires o.Tidy(w) && r in o.Roots()
    ensures Pull(o.Slice(w), r, o.cfg.cacheDir, b, c) == Pull(w, r, o.cfg.cacheDir, b, c)
  {
    SliceResolves(o, w, r);
    SliceSees(o, w, Resolve(w.mounts, r));
  }

  lemma SliceMount(o: Owner, w: World, r: Path, t: Path, options: seq<string>, c: Choice)
    requires o.Tidy(w) && r in o.Roots() && t in o.Roots()
    ensures BindMount(o.Slice(w), r, t, options, c) == BindMount(w, r, t, options, c)
    ensures Unmount(o.Slice(w), t, c) == Unmount(w, t, c)
    ensures ProbeMount(o.Slice(w), t, c) == ProbeMount(w, t, c)
    ensures Resolve(o.Slice(w).mounts, r) in o.Slice(w).tree <==> Resolve(w.mounts, r) in w.tree
  {
    SliceResolves(o, w, r);
    SliceResolves(o, w, t);
    SliceSees(o, w, Resolve(w.mounts, r));
    SliceSees(o, w, Resolve(w.mounts, t));
  }

  /** A step of a call does, and learns, on the whole node what it would on the slice alone. */
  lemma StepOnSlice(o: Owner, w: World, pc: Pc, c: Choice)
    requires o.Tidy(w) && o.Fits(pc)
    ensures EffectOf(o.cfg, o.Slice(w), pc, c) == EffectOf(o.cfg, w, pc, c)
    ensures VerdictOf(o.cfg, o.Slice(w), pc, c) == VerdictOf(o.cfg, w, pc, c)
  {
    match pc {
      case Resolving(_, _, _) =>
      case Notifying(_, _) =>
      case Done(_) =>
      case Pulling(s, wanted, _) => SlicePull(o, w, s, BottleOf(o.cfg, wanted), c);
      case Checking(_, t, _) => SliceMount(o, w, t, t, [], c);
      case Making(_, t, _) => SliceMkdir(o, w, t, c);
      case Mounting(s, t, ro) => SliceMount(o, w, s, t, Options(ro), c);
      case Probing(t, _) => SliceMount(o, w, t, t, [], c);
      case Unmounting(t, _) => SliceMount(o, w, t, t, [], c);
      case Clearing(t, _) => SliceRemove(o, w, t, c);
      case Statting(_, s) => SliceMount(o, w, s, s, [], c);
      case Purging(_, s) => SliceRemove(o, w, s, c);
      case Unstaging(s) => SliceRemove(o, w, s, c);
    }
  }

  /** What a change may touch: the volume's own paths and targets, directories above them, and the cache. */
  ghost predicate Confined(o: Owner, e: Effect) {
    && (forall q :: q in e.kill ==> o.Mine(q))
    && (forall q :: q in e.put ==> o.Mine(q) || o.cfg.cacheDir <= q)
    && (forall q :: q in e.dirs ==> o.Above(q) || q <= o.cfg.cacheDir)
    && e.mnt.Keys <= o.vol.targets
    && (forall t :: t in e.mnt ==> o.AllOwn(e.mnt[t]))
  }

  lemma RemoveIsConfined(o: Owner, w: World, r: Path, c: Choice)
    requires o.Tidy(w) && r in o.Roots()
    ensures Confined(o, RemoveAll(w, r, c).0)
  {
    ResolveRoot(o, w, r);
  }

  lemma MkdirIsConfined(o: Owner, w: World, r: Path, c: Choice)
    requires o.Tidy(w) && r in o.Roots()
    ensures Confined(o, MkdirAll(w, r, c).0)
  {
    ResolveRoot(o, w, r);
  }

  /** Where a pull writes. */
  lemma PullWrites(w: World, p: Path, cacheDir: Path, b: Bottle, c: Choice, q: Path)
    ensures var e := Pull(w, p, cacheDir, b, c).0;
      && (q in e.put ==> Resolve(w.mounts, p) <= q || cacheDir <= q)
      && (q in e.dirs ==> q <= Resolve(w.mounts, p) || q <= cacheDir)
      && e.kill == {} && e.mnt == map[]
  {
  }

  lemma PullIsConfined(o: Owner, w: World, r: Path, b: Bottle, c: Choice)
    requires o.Tidy(w) && r in o.Roots()
    ensures Confined(o, Pull(w, r, o.cfg.cacheDir, b, c).0)
  {
    var place := Resolve(w.mounts, r);
    var e := Pull(w, r, o.cfg.cacheDir, b, c).0;
    assert place in o.Roots() by {
      ResolveRoot(o, w, r);
    }
    forall q
      ensures q in e.put ==> o.Mine(q) || o.cfg.cacheDir <= q
      ensures q in e.dirs ==> o.Above(q) || q <= o.cfg.cacheDir
      ensures q !in e.kill && q !in e.mnt
    {
      PullWrites(w, r, o.cfg.cacheDir, b, c, q);
    }
  }

  lemma MountIsConfined(o: Owner, w: World, t: Path, options: seq<string>, c: Choice)
    requires o.Tidy(w) && t in o.vol.targets && o.Staging() !in o.vol.targets
    ensures Confined(o, BindMount(w, o.Staging(), t, options, c).0)
    ensures Confined(o, Unmount(w, t, c).0)
  {
    ResolveRoot(o, w, o.Staging());
  }

  /** Whatever a call for a volume does next stays within the volume, the cache, and directories above them. */
  lemma StepIsConfined(o: Owner, w: World, pc: Pc, c: Choice)
    requires o.Layout() && o.Tidy(w) && o.Fits(pc)
    ensures Confined(o, EffectOf(o.cfg, w, pc, c))
  {
    match pc {
      case Pulling(s, wanted, _) => PullIsConfined(o, w, s, BottleOf(o.cfg, wanted), c);
      case Making(_, t, _) => MkdirIsConfined(o, w, t, c);
      case Mounting(s, t, ro) => MountIsConfined(o, w, t, Options(ro), c);
      case Unmounting(t, _) => MountIsConfined(o, w, t, [], c);
      case Clearing(t, _) => RemoveIsConfined(o, w, t, c);
      case Purging(_, s) => RemoveIsConfined(o, w, s, c);
      case Unstaging(s) => RemoveIsConfined(o, w, s, c);
      case _ =>
    }
  }

  /** All paths of one volume are apart from all paths of the other. */
  ghost predicate Strangers(o: Owner, u: Owner) {
    && o.cfg == u.cfg
    && forall a, b :: a in o.Roots() && b in u.Roots() ==> Apart(a, b)
  }

  /** A path of one volume is neither under nor above the paths of a stranger. */
  lemma StrangerPaths(o: Owner, u: Owner, q: Path)
    requires Strangers(o, u)
    ensures u.Mine(q) ==> !o.Mine(q) && !o.Above(q)
    ensures u.Above(q) ==> !o.Mine(q)
  {
    forall a, b | a in o.Roots() && b in u.Roots()
      ensures !(b <= q && a <= q) && !(b <= q && q <= a) && !(q <= b && a <= q)
    {
      assert Apart(a, b);
      if b <= q && a <= q {
        PrefixLinear(a, b, q);
      }
    }
  }

  lemma CachePaths(o: Owner, q: Path)
    requires o.Layout()
    ensures o.cfg.cacheDir <= q ==> !o.Mine(q) && !o.Above(q)
    ensures q <= o.cfg.cacheDir ==> !o.Mine(q)
  {
    forall a | a in o.Roots()
      ensures !(o.cfg.cacheDir <= q && (a <= q || q <= a)) && !(q <= o.cfg.cacheDir && a <= q)
    {
      assert Apart(a, o.cfg.cacheDir);
      if o.cfg.cacheDir <= q && a <= q {
        PrefixLinear(a, o.cfg.cacheDir, q);
      }
    }
  }

  lemma OwnStepAt(o: Owner, w: World, e: Effect, q: Path)
    requires o.Layout() && Confined(o, e)
    ensures var a, b := o.Slice(Do(w, e)).tree, o.Slice(Do(o.Slice(w), e)).tree;
      (q in a <==> q in b) && (q in a ==> a[q] == b[q])
  {
    CachePaths(o, q);
    if q in w.tree && o.Relevant(q, w.tree[q]) {
      assert q in o.Slice(w).tree;
    }
  }

  /** Changing the node and then looking at the slice is changing the slice. */
  lemma OwnStep(o: Owner, w: World, e: Effect)
    requires o.Layout() && Confined(o, e)
    ensures o.Slice(Do(w, e)) == o.Slice(Do(o.Slice(w), e))
  {
    var a, b := o.Slice(Do(w, e)), o.Slice(Do(o.Slice(w), e));
    forall q
      ensures (q in a.tree <==> q in b.tree) && (q in a.tree ==> a.tree[q] == b.tree[q])
    {
      OwnStepAt(o, w, e, q);
    }
    assert a.tree == b.tree;
    OwnStepMounts(o, w, e);
  }

  lemma OwnStepMounts(o: Owner, w: World, e: Effect)
    ensures o.Slice(Do(w, e)).mounts == o.Slice(Do(o.Slice(w), e)).mounts
  {
  }

  lemma OwnStepTidy(o: Owner, w: World, e: Effect)
    requires o.Layout() && Confined(o, e) && o.Tidy(w)
    ensures o.Tidy(Do(w, e))
  {
    forall r, m | r in o.Roots() && m in Do(w, e).mounts && m <= r
      ensures m == r && m in o.vol.targets
    {
      if m !in w.mounts {
        assert m in o.Roots() && (m == r || Apart(m, r));
      }
    }
  }

  lemma StrangerStepAt(o: Owner, u: Owner, w: World, e: Effect, q: Path)
    requires Strangers(o, u) && o.Layout() && Confined(u, e)
    ensures var a := o.Slice(Do(w, e)).tree;
      (q in a <==> q in o.Slice(w).tree) && (q in a ==> a[q] == o.Slice(w).tree[q])
  {
    CachePaths(o, q);
    StrangerPaths(o, u, q);
  }

  lemma StrangerMounts(o: Owner, u: Owner, w: World, e: Effect)
    requires Strangers(o, u) && Confined(u, e)
    ensures forall r, m :: r in o.Roots() && m in e.mnt ==> !(m <= r)
    ensures o.Slice(Do(w, e)).mounts == o.Slice(w).mounts
  {
    forall r, m | r in o.Roots() && m in e.mnt
      ensures !(m <= r)
    {
      assert m in u.Roots() && Apart(r, m);
    }
    forall t | t in o.vol.targets
      ensures t !in e.mnt
    {
      assert t in e.mnt ==> t in u.Roots() && Apart(t, t);
    }
    assert o.Slice(Do(w, e)).mounts == o.Slice(w).mounts;
  }

  /** A stranger's step does not show in the slice. */
  lemma StrangerStep(o: Owner, u: Owner, w: World, e: Effect)
    requires Strangers(o, u) && o.Layout() && Confined(u, e)
    ensures o.Slice(Do(w, e)) == o.Slice(w)
    ensures o.Tidy(w) ==> o.Tidy(Do(w, e))
  {
    var a := Do(w, e);
    forall q
      ensures q in o.Slice(a).tree <==> q in o.Slice(w).tree
      ensures (q in o.Slice(a).tree ==> o.Slice(a).tree[q] == o.Slice(w).tree[q])
    {
      StrangerStepAt(o, u, w, e, q);
    }
    assert o.Slice(a).tree == o.Slice(w).tree;
    StrangerMounts(o, u, w, e);
    if o.Tidy(w) {
      StrangerTidy(o, w, e);
    }
  }

  lemma StrangerTidy(o: Owner, w: World, e: Effect)
    requires o.Tidy(w) && forall r, m :: r in o.Roots() && m in e.mnt ==> !(m <= r)
    ensures o.Tidy(Do(w, e))
  {
    forall t | t in o.vol.targets
      ensures t !in e.mnt
    {
      assert t in o.Roots() && t <= t;
    }
  }

  /** Neither does the pruner. */
  lemma PruneStep(o: Owner, w: World, c: Choice)
    requires o.Layout()
    ensures o.Slice(Do(w, Prune(w, o.cfg.cacheDir, c))) == o.Slice(w)
    ensures o.Tidy(w) ==> o.Tidy(Do(w, Prune(w, o.cfg.cacheDir, c)))
  {
    var a := Do(w, Prune(w, o.cfg.cacheDir, c));
    forall q
      ensures q in o.Slice(a).tree <==> q in o.Slice(w).tree
      ensures q in o.Slice(a).tree ==> o.Slice(a).tree[q] == o.Slice(w).tree[q]
    {
      CachePaths(o, q);
    }
    assert o.Slice(a).tree == o.Slice(w).tree;
    assert a.mounts == w.mounts;
  }
}
