/**
 * The directory tree and the bind-mount table of a node, and what the system calls of the driver
 * do to them. A call may fail and leave partial results; a `Choice` says how a call turns out.
 */
module FileSystem {
  import opened Paths

  datatype Entry = Dir | File(data: string)

  type Tree = map<Path, Entry>

  /** A bind mount: the directory shown and the mount options. */
  datatype Mount = Mount(source: Path, options: seq<string>)

  /** The mounts on one target form a stack; the last one is visible. A target without mounts has no key. */
  datatype World = World(tree: Tree, mounts: map<Path, seq<Mount>>)

  /** What an error says, as far as the driver looks at it. */
  datatype Outcome = Success | NotExist | Failure

  /**
   * How a system call or a pull turns out. After a failure, `part` names what was already written
   * or removed (relative to the path worked on), `depth` how far a call of several parts came, and
   * `blobs` what was added to the blob cache (relative to the cache directory).
   */
  datatype Choice = Choice(outcome: Outcome, part: set<Path>, depth: nat, blobs: map<Path, Entry>)

  const SMOOTH := Choice(Success, {}, 0, map[])

  /** A change: directories created where nothing exists, entries removed, entries written, mount stacks replaced. */
  datatype Effect = Effect(dirs: set<Path>, kill: set<Path>, put: Tree, mnt: map<Path, seq<Mount>>)

  const NOTHING := Effect({}, {}, map[], map[])

  function Do(w: World, e: Effect): World {
    World(
      map q | q in w.tree.Keys + e.dirs + e.put.Keys && (q in e.put || q !in e.kill) ::
        if q in e.put then e.put[q] else if q in w.tree then w.tree[q] else Dir,
      map t | t in w.mounts.Keys + e.mnt.Keys && (t in e.mnt ==> e.mnt[t] != []) ::
        if t in e.mnt then e.mnt[t] else w.mounts[t])
  }

  lemma DoNothing(w: World)
    ensures Do(w, NOTHING) == w
  {
  }

  /** The place a path denotes once the visible mount at or above it is followed. */
  function Resolve(mounts: map<Path, seq<Mount>>, p: Path): Path {
    ResolveFrom(mounts, p, |p|)
  }

  function ResolveFrom(mounts: map<Path, seq<Mount>>, p: Path, i: nat): Path
    requires i <= |p|
  {
    if p[..i] in mounts && mounts[p[..i]] != [] then mounts[p[..i]][|mounts[p[..i]]| - 1].source + p[i..]
    else if i == 0 then p
    else ResolveFrom(mounts, p, i - 1)
  }

  /** With no mount strictly above it, a path denotes itself or the source mounted on it. */
  lemma {:induction false} ResolveAt(mounts: map<Path, seq<Mount>>, p: Path, i: nat)
    requires i <= |p|
    requires forall j :: 0 <= j < |p| ==> p[..j] !in mounts
    requires p in mounts ==> mounts[p] != []
    ensures ResolveFrom(mounts, p, i) ==
      if i == |p| && p in mounts then mounts[p][|mounts[p]| - 1].source else p
  {
    assert p[..|p|] == p;
    if i > 0 && !(i == |p| && p in mounts) {
      ResolveAt(mounts, p, i - 1);
    }
  }

  /** A file where a directory is needed to reach `p`. */
  predicate Blocked(tree: Tree, p: Path) {
    exists q :: q in tree && q <= p && tree[q].File?
  }

  /** The entries at and below a path. */
  function Below(tree: Tree, p: Path): set<Path> {
    set q | q in tree && p <= q
  }

  /** `os.MkdirAll`. */
  function MkdirAll(w: World, p: Path, c: Choice): (r: (Effect, bool)) {
    var place := Resolve(w.mounts, p);
    if Blocked(w.tree, place) then (NOTHING, false)
    else if c.outcome.Success? then (NOTHING.(dirs := Prefixes(place)), true)
    else (NOTHING.(dirs := set q | q in Prefixes(place) && |q| < c.depth), false)
  }

  /**
   * `os.RemoveAll`. Below a live mount the entries of the mounted source go, and the mount point
   * itself is busy. Removing an absent path may report "not exist".
   */
  function RemoveAll(w: World, p: Path, c: Choice): (r: (Effect, Outcome)) {
    var place := Resolve(w.mounts, p);
    var below := Below(w.tree, place);
    var some := set q | q in below && exists d :: d in c.part && place + d <= q;
    if p in w.mounts then
      (NOTHING.(kill := (if c.outcome.Success? then below else some) - {place}), Failure)
    else match c.outcome
      case Success => (NOTHING.(kill := below), Success)
      case NotExist => if below == {} then (NOTHING, NotExist) else (NOTHING.(kill := some), Failure)
      case Failure => (NOTHING.(kill := some), Failure)
  }

  datatype Probe = Absent | Mounted | Plain | Unknown

  /**
   * `mount.IsNotMountPoint`: "not exist" for an absent path, otherwise what the mount table says. Any
   * outcome but `Success` stands for another error.
   */
  function ProbeMount(w: World, p: Path, c: Choice): Probe {
    if !c.outcome.Success? then Unknown
    else if p in w.mounts then Mounted
    else if Resolve(w.mounts, p) in w.tree then Plain
    else Absent
  }

  /** The options of a bind mount before the second system call applies the requested ones. */
  const UNFINISHED := ["bind"]

  /**
   * `mounter.Mount` of an existing directory over an existing directory: one more mount on the stack.
   * The helper binds first and applies the options with a second system call. A failure between the
   * two (`depth` is positive) leaves the mount without its options.
   */
  function BindMount(w: World, source: Path, target: Path, options: seq<string>, c: Choice): (r: (Effect, bool)) {
    var shown := Resolve(w.mounts, source);
    var stack := if target in w.mounts then w.mounts[target] else [];
    if shown !in w.tree || (target !in w.mounts && Resolve(w.mounts, target) !in w.tree) then (NOTHING, false)
    else if c.outcome.Success? then (NOTHING.(mnt := map[target := stack + [Mount(shown, options)]]), true)
    else if c.depth > 0 then (NOTHING.(mnt := map[target := stack + [Mount(shown, UNFINISHED)]]), false)
    else (NOTHING, false)
  }

  /** `mounter.Unmount`: takes the visible mount off. */
  function Unmount(w: World, target: Path, c: Choice): (r: (Effect, bool)) {
    if c.outcome.Success? && target in w.mounts && w.mounts[target] != [] then
      (NOTHING.(mnt := map[target := w.mounts[target][..|w.mounts[target]| - 1]]), true)
    else (NOTHING, false)
  }

  /** What a pull delivers: entries relative to the pull directory, which is itself the entry `[]`. */
  type Bottle = map<Path, Entry>

  predicate BottleOK(b: Bottle) {
    [] in b && b[[]].Dir? && forall r, k :: r in b && 0 <= k <= |r| ==> r[..k] in b
  }

  function Placed(root: Path, b: Bottle, kept: set<Path>): (put: Tree)
    ensures forall q :: q in put <==> root <= q && q[|root|..] in b && q[|root|..] in kept
    ensures forall q :: q in put ==> put[q] == b[q[|root|..]]
  {
    var keys := set r | r in b && r in kept :: root + r;
    assert forall r :: (root + r)[|root|..] == r;
    assert forall q | root <= q :: root + q[|root|..] == q;
    map q | q in keys :: b[q[|root|..]]
  }

  /** A pull writes bottle entries under `p` and blobs under the cache directory; a failed one only some. */
  function Pull(w: World, p: Path, cacheDir: Path, b: Bottle, c: Choice): (r: (Effect, bool)) {
    var place := Resolve(w.mounts, p);
    var blobs := Placed(cacheDir, c.blobs, c.blobs.Keys);
    var above := if c.blobs == map[] then {} else Prefixes(cacheDir);
    if Blocked(w.tree, place) then (NOTHING.(put := blobs, dirs := above), false)
    else
      var ok := c.outcome.Success?;
      var kept := if ok then b.Keys else set r | r in b && exists d :: d in c.part && r <= d;
      var put := Placed(place, b, kept);
      var dirs := set q | q in Prefixes(place) && (ok || put != map[] || |q| < c.depth);
      (NOTHING.(put := blobs + put, dirs := above + dirs), ok)
  }

  /** What a pull does at a place outside the cache. */
  lemma PullAt(w: World, p: Path, cacheDir: Path, b: Bottle, c: Choice, q: Path)
    requires !(cacheDir <= q)
    ensures var (e, ok) := Pull(w, p, cacheDir, b, c);
      var place := Resolve(w.mounts, p);
      && (q in e.put ==> place <= q && q[|place|..] in b && e.put[q] == b[q[|place|..]] && place in e.dirs)
      && (ok && place <= q && q[|place|..] in b ==> q in e.put)
      && (ok ==> place in e.dirs)
  {
  }

  /** One pass of the pruner: removes entries strictly below the cache directory. */
  function Prune(w: World, cacheDir: Path, c: Choice): Effect {
    NOTHING.(kill := set q | q in w.tree && cacheDir <= q && q != cacheDir && q[|cacheDir|..] in c.part)
  }

  /** The nearest mounted path at or above a path decides what it denotes; with no such mount it denotes itself. */
  lemma {:induction false} ResolveNearest(mounts: map<Path, seq<Mount>>, p: Path, i: nat, k: nat)
    requires k <= i <= |p| && p[..k] in mounts && mounts[p[..k]] != []
    requires forall j :: k < j <= i ==> p[..j] !in mounts
    ensures ResolveFrom(mounts, p, i) == mounts[p[..k]][|mounts[p[..k]]| - 1].source + p[k..]
  {
    if i == k {
    } else {
      ResolveNearest(mounts, p, i - 1, k);
    }
  }

  /** A mount goes on top of the stack, and an unmount takes the top off: one undoes the other. */
  lemma UnmountUndoesMount(w: World, source: Path, target: Path, options: seq<string>)
    requires BindMount(w, source, target, options, SMOOTH).1 && (target in w.mounts ==> w.mounts[target] != [])
    ensures var n := Do(w, BindMount(w, source, target, options, SMOOTH).0);
      && target in n.mounts && |n.mounts[target]| > 0
      && n.mounts[target][|n.mounts[target]| - 1] == Mount(Resolve(w.mounts, source), options)
      && Unmount(n, target, SMOOTH).1 && Do(n, Unmount(n, target, SMOOTH).0) == w
  {
    var n := Do(w, BindMount(w, source, target, options, SMOOTH).0);
    var stack := if target in w.mounts then w.mounts[target] else [];
    assert n.mounts[target] == stack + [Mount(Resolve(w.mounts, source), options)];
    assert n.mounts[target][..|stack|] == stack;
    var m := Do(n, Unmount(n, target, SMOOTH).0);
    assert m.tree == w.tree;
    assert m.mounts == w.mounts;
  }

  /** What the look at a target sees, when it works. */
  lemma ProbeMeans(w: World, p: Path, c: Choice)
    ensures ProbeMount(w, p, c) == Mounted <==> c.outcome == Success && p in w.mounts
    ensures ProbeMount(w, p, c) == Absent <==> c.outcome == Success && p !in w.mounts && Resolve(w.mounts, p) !in w.tree
    ensures ProbeMount(w, p, c) == Plain <==> c.outcome == Success && p !in w.mounts && Resolve(w.mounts, p) in w.tree
  {
  }

  /** A pass of the pruner removes what it was chosen to remove strictly below the cache directory, and nothing else. */
  lemma PruneMeans(w: World, cacheDir: Path, c: Choice)
    ensures var n := Do(w, Prune(w, cacheDir, c));
      && n.mounts == w.mounts
      && (forall q :: q in n.tree <==> q in w.tree && !(cacheDir <= q && |cacheDir| < |q| && q[|cacheDir|..] in c.part))
      && (forall q :: q in n.tree ==> n.tree[q] == w.tree[q])
  {
    assert Do(w, Prune(w, cacheDir, c)).mounts == w.mounts;
  }

  /** `os.MkdirAll` makes all that is missing, or, failing, the first few of it. */
  lemma MkdirMeans(w: World, p: Path, c: Choice)
    ensures var (e, ok) := MkdirAll(w, p, c);
      var n, place := Do(w, e), Resolve(w.mounts, p);
      && (ok <==> c.outcome == Success && !Blocked(w.tree, place))
      && n.mounts == w.mounts
      && (forall q :: q in w.tree ==> q in n.tree && n.tree[q] == w.tree[q])
      && (forall q :: q in n.tree && q !in w.tree <==>
            q !in w.tree && q <= place && !Blocked(w.tree, place) && (ok || |q| < c.depth))
      && (forall q :: q in n.tree && q !in w.tree ==> n.tree[q] == Dir)
  {
    assert Do(w, MkdirAll(w, p, c).0).mounts == w.mounts;
  }

  /**
   * `os.RemoveAll` at an unmounted path removes all there is, or, failing, any of its parts; it reports
   * "not exist" only if nothing is there.
   */
  lemma RemoveMeans(w: World, p: Path, c: Choice)
    requires p !in w.mounts
    ensures var (e, outcome) := RemoveAll(w, p, c);
      var n, place := Do(w, e), Resolve(w.mounts, p);
      && n.mounts == w.mounts
      && (forall q :: q in n.tree ==> q in w.tree && n.tree[q] == w.tree[q])
      && (outcome == Success <==> c.outcome == Success)
      && (outcome == NotExist <==> c.outcome == NotExist && forall q :: q in w.tree ==> !(place <= q))
      && (forall q :: q in w.tree ==> (q in n.tree <==>
            if outcome == Failure then !(exists d :: d in c.part && place + d <= q) else !(place <= q)))
  {
    var place := Resolve(w.mounts, p);
    assert Do(w, RemoveAll(w, p, c).0).mounts == w.mounts;
    assert Below(w.tree, place) == {} <==> forall q :: q in w.tree ==> !(place <= q) by {
      if Below(w.tree, place) != {} {
        var q :| q in Below(w.tree, place);
      } else {
        assert forall q :: q in w.tree && place <= q ==> q in Below(w.tree, place);
      }
    }
  }

  /** A pull writes the whole bottle, or, failing, the parts of it that lead to the paths it came to. */
  lemma PullMeans(w: World, p: Path, cacheDir: Path, b: Bottle, c: Choice, r: Path)
    requires !(cacheDir <= Resolve(w.mounts, p) + r) && !Blocked(w.tree, Resolve(w.mounts, p))
    ensures var (e, ok) := Pull(w, p, cacheDir, b, c);
      var q := Resolve(w.mounts, p) + r;
      && (ok <==> c.outcome == Success)
      && (q in e.put <==> r in b && (ok || exists d :: d in c.part && r <= d))
      && (q in e.put ==> e.put[q] == b[r] && Do(w, e).tree[q] == b[r])
  {
    var q := Resolve(w.mounts, p) + r;
    assert Resolve(w.mounts, p) <= q && q[|Resolve(w.mounts, p)|..] == r;
  }

  /** A path cannot be reached if it, or anything it leads through, is a file. */
  lemma BlockedMeans(tree: Tree, p: Path)
    ensures Blocked(tree, p) <==> exists k :: 0 <= k <= |p| && p[..k] in tree && tree[p[..k]] != Dir
  {
    if q :| q in tree && q <= p && tree[q].File? {
      assert q == p[..|q|];
    }
    if k :| 0 <= k <= |p| && p[..k] in tree && tree[p[..k]] != Dir {
      assert p[..k] <= p;
    }
  }

  /** A mount needs its source and its target; failing, it leaves nothing, or the mount without its options. */
  lemma BindMeans(w: World, source: Path, target: Path, options: seq<string>, c: Choice)
    ensures var (e, ok) := BindMount(w, source, target, options, c);
      var possible := Resolve(w.mounts, source) in w.tree && (target in w.mounts || Resolve(w.mounts, target) in w.tree);
      && (ok <==> possible && c.outcome == Success)
      && (e == NOTHING <==> !possible || (c.outcome != Success && c.depth == 0))
      && (e != NOTHING ==> e.mnt.Keys == {target} && |e.mnt[target]| == 1 + (if target in w.mounts then |w.mounts[target]| else 0)
                           && e.mnt[target][|e.mnt[target]| - 1] == Mount(Resolve(w.mounts, source), if ok then options else ["bind"]))
  {
    var (e, ok) := BindMount(w, source, target, options, c);
    if e.mnt != map[] {
      assert target in e.mnt;
    }
  }
}
