/** D-Bus object paths as strings, with the parent step of `invalidate_parent_data`. */
module Paths {
  import opened Lists

  type Path = string

  const ROOT: Path := "/"

  /** `strrchr(p, '/')` as an index, -1 when there is no slash. */
  function LastSlash(p: Path): (i: int)
    ensures -1 <= i < |p|
    ensures i >= 0 ==> p[i] == '/'
    ensures forall j :: i < j < |p| ==> p[j] != '/'
  {
    if p == "" then -1
    else if p[|p| - 1] == '/' then |p| - 1
    else LastSlash(p[..|p| - 1])
  }

  function ParentPath(p: Path): (r: Option<Path>)
    ensures r.Some? ==> 0 < |r.value| < |p|
  {
    var slash := LastSlash(p);
    if slash < 0 then None
    else
      var cut := if slash == 0 && |p| > 1 then ROOT else p[..slash];
      if cut == "" then None else Some(cut)
  }

  /** `a` is met when walking up from `p`, `p` itself excluded. */
  predicate IsAncestor(a: Path, p: Path)
    decreases |p|
  {
    match ParentPath(p)
    case None => false
    case Some(q) => a == q || IsAncestor(a, q)
  }

  /** The first path met when walking up from `p` that is in `keys`. */
  function Nearest(keys: set<Path>, p: Path): Option<Path>
    decreases |p|
  {
    match ParentPath(p)
    case None => None
    case Some(q) => if q in keys then Some(q) else Nearest(keys, q)
  }

  predicate Absolute(p: Path) { p != "" && p[0] == '/' }

  lemma {:induction false} AncestorShorter(a: Path, p: Path)
    requires IsAncestor(a, p)
    ensures 0 < |a| < |p|
    decreases |p|
  {
    var q := ParentPath(p).value;
    if a != q { AncestorShorter(a, q); }
  }

  lemma {:induction false} AncestorTransitive(a: Path, b: Path, p: Path)
    requires IsAncestor(a, b) && IsAncestor(b, p)
    ensures IsAncestor(a, p)
    decreases |p|
  {
    var q := ParentPath(p).value;
    if b != q { AncestorTransitive(a, b, q); }
  }

  /** The ancestors of one path are linearly ordered. */
  lemma {:induction false} AncestorsChain(a: Path, b: Path, p: Path)
    requires IsAncestor(a, p) && IsAncestor(b, p)
    ensures a == b || IsAncestor(a, b) || IsAncestor(b, a)
    decreases |p|
  {
    var q := ParentPath(p).value;
    if a != q && b != q { AncestorsChain(a, b, q); }
  }

  lemma {:induction false} RootAboveAll(p: Path)
    requires Absolute(p) && p != ROOT
    ensures IsAncestor(ROOT, p)
    decreases |p|
  {
    var q := ParentPath(p);
    assert LastSlash(p) >= 0;
    if LastSlash(p) > 0 {
      assert p[..LastSlash(p)][0] == '/';
      if q.value != ROOT { RootAboveAll(q.value); }
    }
  }

  lemma RootHasNoAncestor(a: Path)
    ensures !IsAncestor(a, ROOT) && ParentPath(ROOT) == None
  {
    assert ROOT[|ROOT| - 1] == '/';
    assert LastSlash(ROOT) == 0;
  }

  /** Walking up is the same as cutting at a slash: for absolute paths the ancestors of `p` are the
      root and the strict prefixes that end right before a slash. */
  lemma {:induction false} AncestorIsPrefix(a: Path, p: Path)
    requires Absolute(p)
    ensures IsAncestor(a, p) <==> a != "" && a != p && (a == ROOT || a + "/" <= p)
    decreases |p|
  {
    var slash := LastSlash(p);
    var q := ParentPath(p);
    if slash == 0 {
      if |p| > 1 {
        RootHasNoAncestor(a);
        assert (a + "/")[|a|] == '/';
      } else {
        assert p == ROOT;
        RootHasNoAncestor(a);
      }
    } else {
      assert p[..slash][0] == '/';
      assert q == Some(p[..slash]);
      AncestorIsPrefix(a, q.value);
      if a != "" && a + "/" <= p {
        assert p[|a|] == (a + "/")[|a|] == '/';
        assert |a| <= slash;
        assert a == p[..|a|];
        if |a| < slash { assert a + "/" == p[..|a| + 1] == q.value[..|a| + 1]; }
      }
      if IsAncestor(a, q.value) && a != ROOT { assert a + "/" <= q.value <= p; }
      if a == q.value { assert a + "/" == p[..slash + 1]; }
    }
  }

  /** `Nearest` is the lowest member of `keys` above `p`, and `None` exactly when there is none. */
  lemma {:induction false} NearestIsLowest(keys: set<Path>, p: Path)
    ensures Nearest(keys, p) == None <==> forall a :: a in keys ==> !IsAncestor(a, p)
    ensures Nearest(keys, p).Some? ==>
      var n := Nearest(keys, p).value;
      n in keys && IsAncestor(n, p) && forall a :: a in keys && IsAncestor(a, p) ==> a == n || IsAncestor(a, n)
    decreases |p|
  {
    match ParentPath(p)
    case None =>
    case Some(q) =>
      NearestIsLowest(keys, q);
      if q !in keys && Nearest(keys, q).Some? {
        var n := Nearest(keys, q).value;
        forall a | a in keys && IsAncestor(a, p) ensures a == n || IsAncestor(a, n) {}
      }
  }

  /** Keys that are not above `p` do not matter. */
  lemma {:induction false} NearestSame(keys: set<Path>, keys': set<Path>, p: Path)
    requires forall a :: IsAncestor(a, p) ==> (a in keys <==> a in keys')
    ensures Nearest(keys, p) == Nearest(keys', p)
    decreases |p|
  {
    match ParentPath(p)
    case None =>
    case Some(q) =>
      assert IsAncestor(q, p);
      forall a | IsAncestor(a, q) ensures a in keys <==> a in keys' { assert IsAncestor(a, p); }
      NearestSame(keys, keys', q);
  }
}
