/** Absolute, cleaned paths as lists of components, and `filepath.Join` on them. */
module Paths {
  import opened Text

  type Path = seq<string>

  /** Neither path is the other or lies below it. */
  predicate Apart(a: Path, b: Path) {
    !(a <= b) && !(b <= a)
  }

  /** The path itself and everything above it. */
  function Prefixes(p: Path): (above: set<Path>)
    ensures forall q :: q in above <==> q <= p
  {
    var above := set i | 0 <= i <= |p| :: p[..i];
    assert forall q :: q <= p ==> q == p[..|q|];
    above
  }

  lemma PrefixTransitive(a: Path, b: Path, c: Path)
    requires a <= b && b <= c
    ensures a <= c
  {
  }

  /** Two paths above the same path are comparable. */
  lemma PrefixLinear(a: Path, b: Path, c: Path)
    requires a <= c && b <= c
    ensures a <= b || b <= a
  {
    if |a| <= |b| {
      assert a == c[..|a|] == b[..|a|];
    } else {
      assert b == c[..|b|] == a[..|b|];
    }
  }

  /** Resolves "", "." and ".." lexically, as `filepath.Clean` does for an absolute path. */
  function Clean(base: Path, components: seq<string>): Path
    decreases |components|
  {
    if components == [] then base
    else
      var c := components[0];
      var next :=
        if c == "" || c == "." then base
        else if c == ".." then (if base == [] then [] else base[..|base| - 1])
        else base + [c];
      Clean(next, components[1..])
  }

  function JoinPath(base: Path, element: string): Path {
    Clean(base, Split(element, '/'))
  }

  /** One ordinary path component. */
  predicate Ordinary(id: string) {
    id != "" && id != "." && id != ".." && '/' !in id
  }

  lemma {:induction false} CleanKeepsOrdinary(base: Path, components: seq<string>, k: nat)
    requires forall i :: 0 <= i < |components| ==> '/' !in components[i]
    requires forall i :: k <= i < |base| ==> Ordinary(base[i])
    ensures forall i :: k <= i < |Clean(base, components)| ==> Ordinary(Clean(base, components)[i])
    decreases |components|
  {
    if components == [] {
    } else {
      var c := components[0];
      var next :=
        if c == "" || c == "." then base
        else if c == ".." then (if base == [] then [] else base[..|base| - 1])
        else base + [c];
      CleanKeepsOrdinary(next, components[1..], k);
    }
  }

  /** Joining one element yields a direct child named like it exactly when it is one ordinary component. */
  lemma JoinIsChild(base: Path, element: string)
    ensures JoinPath(base, element) == base + [element] <==> Ordinary(element)
  {
    SplitPieces(element, '/');
    if JoinPath(base, element) == base + [element] {
      CleanKeepsOrdinary(base, Split(element, '/'), |base|);
      assert JoinPath(base, element)[|base|] == element;
    }
    if Ordinary(element) {
      SplitFree(element, '/');
      assert Clean(base + [element], [element][1..]) == base + [element];
    }
  }

  lemma {:induction false} CleanConcat(base: Path, a: seq<string>, b: seq<string>)
    ensures Clean(base, a + b) == Clean(Clean(base, a), b)
    decreases |a|
  {
    if a == [] {
      assert a + b == b;
    } else {
      var c := a[0];
      var next :=
        if c == "" || c == "." then base
        else if c == ".." then (if base == [] then [] else base[..|base| - 1])
        else base + [c];
      assert (a + b)[1..] == a[1..] + b && (a + b)[0] == c;
      CleanConcat(next, a[1..], b);
    }
  }

  /** Joining an element with a slash in it is joining what stands before and after the slash. */
  lemma JoinSlash(base: Path, first: string, rest: string)
    requires '/' !in first
    ensures JoinPath(base, first + "/" + rest) == JoinPath(JoinPath(base, first), rest)
  {
    SplitFirst(first, rest, '/');
    SplitFree(first, '/');
    CleanConcat(base, [first], Split(rest, '/'));
    assert first + "/" + rest == first + ['/'] + rest;
  }

  /** The elements that name no child: nothing and "." stay, ".." leads to the parent, if there is one. */
  lemma JoinSpecial(base: Path, name: string)
    ensures JoinPath(base, "") == base && JoinPath(base, ".") == base
    ensures JoinPath(base + [name], "..") == base && JoinPath([], "..") == []
  {
    SplitFree("", '/');
    SplitFree(".", '/');
    SplitFree("..", '/');
    JoinOne(base, "");
    JoinOne(base, ".");
    JoinOne(base + [name], "..");
    JoinOne([], "..");
    assert (base + [name])[..|base|] == base;
  }

  lemma JoinOne(base: Path, c: string)
    requires '/' !in c
    ensures JoinPath(base, c) ==
      if c == "" || c == "." then base else if c == ".." then (if base == [] then [] else base[..|base| - 1]) else base + [c]
  {
    SplitFree(c, '/');
    var next :=
      if c == "" || c == "." then base
      else if c == ".." then (if base == [] then [] else base[..|base| - 1])
      else base + [c];
    assert Clean(base, [c]) == Clean(next, [c][1..]);
  }
}
