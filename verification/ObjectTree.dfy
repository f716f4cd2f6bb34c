/** The parent/children links of gdbus/object.c: `invalidate_parent_data` in closed form, the tree
    invariant with the exact conditions under which registering and releasing keep it, and the walk
    of GetManagedObjects. */
module ObjectTree {
  import opened Lists
  import opened Paths
  import opened ObjectModel

  /** Every link is to the nearest registered strict ancestor, seen from both ends. */
  ghost predicate Tree(reg: map<Path, Obj>) {
    && (forall p :: p in reg ==> reg[p].parent == Nearest(reg.Keys, p))
    && (forall p :: p in reg ==> NoDup(reg[p].children))
    && (forall p, c {:trigger c in reg[p].children} :: p in reg ==> (c in reg[p].children <==> c in reg && reg[c].parent == Some(p)))
  }

  /** The three fields `invalidate_parent_data` may touch. */
  predicate SameButLinks(o: Obj, o': Obj) {
    && o'.refcount == o.refcount && o'.ifaces == o.ifaces && o'.added == o.added && o'.removed == o.removed
    && o'.queued == o.queued && o'.propFlag == o.propFlag
  }

  /** For every path and registry: the object returned is the nearest registered strict ancestor, the
      cached introspection of exactly the registered strict ancestors is dropped, and nothing but
      links and caches changes. */
  lemma {:induction false} InvalidateSpec(reg: map<Path, Obj>, c: Path)
    ensures Invalidate(reg, c).1 == Nearest(reg.Keys, c)
    ensures forall q :: q in reg ==> SameButLinks(reg[q], Invalidate(reg, c).0[q])
    ensures forall q :: q in reg ==>
      Invalidate(reg, c).0[q].introspect == if IsAncestor(q, c) then None else reg[q].introspect
    decreases |c|
  {
    match ParentPath(c)
    case None =>
    case Some(q) =>
      InvalidateSpec(reg, q);
      var reg1 := Invalidate(reg, q).0;
      NearestIsLowest(reg.Keys, c);
      var n := Nearest(reg.Keys, c);
      if n.Some? { AdoptEffect(reg1, n.value, c); }
  }

  lemma AdoptEffect(reg: map<Path, Obj>, a: Path, c: Path)
    requires a in reg
    ensures forall q :: q in reg ==> SameButLinks(reg[q], Adopt(reg, a, c)[q])
    ensures forall q :: q in reg ==> Adopt(reg, a, c)[q].introspect == if q == a then None else reg[q].introspect
  {
  }

  function ClearAbove(reg: map<Path, Obj>, c: Path): (r: map<Path, Obj>)
    ensures r.Keys == reg.Keys
  {
    map q | q in reg :: if IsAncestor(q, c) then reg[q].(introspect := None) else reg[q]
  }

  function LinkOne(reg: map<Path, Obj>, c: Path): map<Path, Obj> {
    match Nearest(reg.Keys, c)
    case None => reg
    case Some(a) =>
      if c !in reg || a !in reg || c in reg[a].children then reg
      else
        var reg1 := reg[a := reg[a].(children := [c] + reg[a].children)];
        reg1[c := reg1[c].(parent := Some(a))]
  }

  /** Everything registered above `c` is linked already. */
  ghost predicate LinkedAbove(reg: map<Path, Obj>, c: Path) {
    forall x, a :: x in reg && IsAncestor(x, c) && a in reg && Nearest(reg.Keys, x) == Some(a) ==> x in reg[a].children
  }

  /** With the ancestors linked, at most the one link of `c` is made. */
  lemma {:induction false} InvalidateLinks(reg: map<Path, Obj>, c: Path)
    requires LinkedAbove(reg, c)
    ensures Invalidate(reg, c).0 == LinkOne(ClearAbove(reg, c), c)
    decreases |c|
  {
    match ParentPath(c)
    case None => assert ClearAbove(reg, c) == reg;
    case Some(q) =>
      assert LinkedAbove(reg, q) by {
        forall x | IsAncestor(x, q) ensures IsAncestor(x, c) {}
      }
      InvalidateLinks(reg, q);
      LinkedAlready(reg, q, c);
      assert Invalidate(reg, q).0 == ClearAbove(reg, q);
      InvalidateSpec(reg, q);
      var n := Nearest(reg.Keys, c);
      NearestIsLowest(reg.Keys, c);
      if n.Some? {
        ClearStep(reg, q, c, n.value);
      } else {
        assert ClearAbove(reg, c) == ClearAbove(reg, q);
      }
  }

  lemma LinkedAlready(reg: map<Path, Obj>, q: Path, c: Path)
    requires LinkedAbove(reg, c) && ParentPath(c) == Some(q)
    ensures LinkOne(ClearAbove(reg, q), q) == ClearAbove(reg, q)
  {
    NearestIsLowest(reg.Keys, q);
    assert IsAncestor(q, c);
  }

  lemma ClearStep(reg: map<Path, Obj>, q: Path, c: Path, a: Path)
    requires ParentPath(c) == Some(q) && Nearest(reg.Keys, c) == Some(a) && a in reg
    ensures Adopt(ClearAbove(reg, q), a, c) == LinkOne(ClearAbove(reg, c), c)
  {
    ClearMap(reg, q, c, a);
  }

  lemma ClearMap(reg: map<Path, Obj>, q: Path, c: Path, a: Path)
    requires ParentPath(c) == Some(q) && Nearest(reg.Keys, c) == Some(a) && a in reg
    ensures var r := ClearAbove(reg, q); r[a := r[a].(introspect := None)] == ClearAbove(reg, c)
  {
    ClearOne(reg, q, c, a);
  }

  lemma ClearOne(reg: map<Path, Obj>, q: Path, c: Path, a: Path)
    requires ParentPath(c) == Some(q) && Nearest(reg.Keys, c) == Some(a) && a in reg
    ensures forall x :: x in reg ==>
      (if x == a then ClearAbove(reg, q)[a].(introspect := None) else ClearAbove(reg, q)[x]) == ClearAbove(reg, c)[x]
  {
    NearestIsLowest(reg.Keys, c);
    forall x | x in reg && x != a ensures IsAncestor(x, c) <==> IsAncestor(x, q) {}
  }

  predicate NoneBelow(reg: map<Path, Obj>, p: Path) {
    forall c :: c in reg ==> !IsAncestor(p, c)
  }

  /** A path met going up from `c` down to which nothing else is registered: the topmost key strictly below `p`. */
  lemma {:induction false} TopmostBelow(reg: map<Path, Obj>, p: Path, c: Path) returns (t: Path)
    requires c in reg && IsAncestor(p, c)
    ensures t in reg && IsAncestor(p, t) && (t == c || IsAncestor(t, c))
    ensures forall x :: x in reg && IsAncestor(x, t) ==> !IsAncestor(p, x)
    decreases |c|
  {
    if x :| x in reg && IsAncestor(x, c) && IsAncestor(p, x) {
      AncestorShorter(x, c);
      t := TopmostBelow(reg, p, x);
      if t != x { AncestorTransitive(t, x, c); }
    } else {
      t := c;
    }
  }

  /** Between `p` and the topmost key below it lies no other key. */
  lemma TopmostNearest(reg: map<Path, Obj>, p: Path, t: Path)
    requires IsAncestor(p, t)
    requires forall x :: x in reg && IsAncestor(x, t) ==> !IsAncestor(p, x)
    ensures Nearest(reg.Keys + {p}, t) == Some(p)
  {
    NearestIsLowest(reg.Keys + {p}, t);
    var n := Nearest(reg.Keys + {p}, t).value;
    assert n in reg ==> !IsAncestor(p, n);
  }

  /** The registry once a new object has been put at `p` and `invalidate_parent_data` has run. */
  function Inserted(reg: map<Path, Obj>, p: Path): map<Path, Obj> {
    Invalidate(reg[p := FRESH_OBJECT], p).0
  }

  /** One link is made: `p` goes to the front of the children of its nearest registered ancestor. */
  ghost predicate LinkedIn(reg: map<Path, Obj>, reg': map<Path, Obj>, p: Path) {
    && reg'.Keys == reg.Keys + {p}
    && reg'[p].parent == Nearest(reg.Keys, p) && reg'[p].children == []
    && (forall q :: q in reg ==> reg'[q].parent == reg[q].parent)
    && (forall q :: q in reg ==>
         reg'[q].children == if Nearest(reg.Keys, p) == Some(q) then [p] + reg[q].children else reg[q].children)
  }

  lemma InsertedLinks(reg: map<Path, Obj>, p: Path)
    requires Tree(reg) && p !in reg
    ensures LinkedIn(reg, Inserted(reg, p), p)
  {
    var reg1 := reg[p := FRESH_OBJECT];
    NotOwnAncestor(p);
    FreshLinkedAbove(reg, p);
    InvalidateLinks(reg1, p);
    NearestSame(reg.Keys, reg1.Keys, p);
    LinkOneLinks(reg, ClearAbove(reg1, p), p);
  }

  lemma LinkOneLinks(reg: map<Path, Obj>, reg1: map<Path, Obj>, p: Path)
    requires Tree(reg) && p !in reg && reg1.Keys == reg.Keys + {p} && Nearest(reg1.Keys, p) == Nearest(reg.Keys, p)
    requires forall q :: q in reg ==> reg1[q].parent == reg[q].parent && reg1[q].children == reg[q].children
    requires reg1[p].parent == None && reg1[p].children == []
    ensures LinkedIn(reg, LinkOne(reg1, p), p)
  {
    NearestIsLowest(reg.Keys, p);
  }

  lemma FreshLinkedAbove(reg: map<Path, Obj>, p: Path)
    requires Tree(reg) && p !in reg
    ensures LinkedAbove(reg[p := FRESH_OBJECT], p)
  {
    var reg1 := reg[p := FRESH_OBJECT];
    forall x, a | x in reg1 && IsAncestor(x, p) && a in reg1 && Nearest(reg1.Keys, x) == Some(a) ensures x in reg1[a].children {
      AncestorShorter(x, p);
      NearestIsLowest(reg1.Keys, x);
      AncestorShorter(a, x);
      forall y | IsAncestor(y, x) ensures y in reg.Keys <==> y in reg1.Keys { AncestorShorter(y, x); }
      NearestSame(reg.Keys, reg1.Keys, x);
    }
  }

  lemma NotOwnAncestor(p: Path)
    ensures !IsAncestor(p, p)
  {
    if IsAncestor(p, p) { AncestorShorter(p, p); }
  }

  /** Registering a new path keeps the tree exactly when nothing is registered below it. */
  lemma InsertKeepsTreeIff(reg: map<Path, Obj>, p: Path)
    requires Tree(reg) && p !in reg
    ensures Tree(Inserted(reg, p)) <==> NoneBelow(reg, p)
  {
    InsertedLinks(reg, p);
    if NoneBelow(reg, p) {
      LinkedInTree(reg, Inserted(reg, p), p);
    } else {
      var c :| c in reg && IsAncestor(p, c);
      var t := TopmostBelow(reg, p, c);
      TopmostNearest(reg, p, t);
      NearestIsLowest(reg.Keys, t);
      assert reg[t].parent != Some(p);
    }
  }

  lemma LinkedInTree(reg: map<Path, Obj>, reg': map<Path, Obj>, p: Path)
    requires Tree(reg) && p !in reg && NoneBelow(reg, p) && LinkedIn(reg, reg', p)
    ensures Tree(reg')
  {
    LinkedInParents(reg, reg', p);
    LinkedInNoDup(reg, reg', p);
    forall q, c | q in reg' ensures c in reg'[q].children <==> c in reg' && reg'[c].parent == Some(q) {
      LinkedInChild(reg, reg', p, q, c);
    }
  }

  lemma LinkedInNoDup(reg: map<Path, Obj>, reg': map<Path, Obj>, p: Path)
    requires Tree(reg) && p !in reg && LinkedIn(reg, reg', p)
    ensures forall q :: q in reg' ==> NoDup(reg'[q].children)
  {
    forall q | q in reg && Nearest(reg.Keys, p) == Some(q) ensures NoDup(reg'[q].children) {
      NotAChild(reg, q, p);
      NoDupConcat([p], reg[q].children);
    }
  }

  lemma NotAChild(reg: map<Path, Obj>, q: Path, p: Path)
    requires Tree(reg) && q in reg && p !in reg
    ensures p !in reg[q].children
  {
  }

  lemma LinkedInChild(reg: map<Path, Obj>, reg': map<Path, Obj>, p: Path, q: Path, c: Path)
    requires Tree(reg) && p !in reg && LinkedIn(reg, reg', p) && q in reg'
    requires forall x :: x in reg' ==> reg'[x].parent != Some(p)
    ensures c in reg'[q].children <==> c in reg' && reg'[c].parent == Some(q)
  {
    if q != p {
      assert c in reg[q].children <==> c in reg && reg[c].parent == Some(q);
      if c == p { assert p !in reg[q].children; }
    }
  }

  lemma LinkedInParents(reg: map<Path, Obj>, reg': map<Path, Obj>, p: Path)
    requires Tree(reg) && p !in reg && NoneBelow(reg, p) && LinkedIn(reg, reg', p)
    ensures forall c :: c in reg' ==> Nearest(reg'.Keys, c) == reg'[c].parent && reg'[c].parent != Some(p)
  {
    NotOwnAncestor(p);
    forall c | c in reg' ensures Nearest(reg'.Keys, c) == reg'[c].parent && reg'[c].parent != Some(p) {
      NearestSame(reg.Keys, reg'.Keys, c);
      NearestIsLowest(reg.Keys, c);
    }
  }

  /** The registry after `generic_unregister` of `p`. */
  function Released(reg: map<Path, Obj>, p: Path): (r: map<Path, Obj>)
    requires p in reg
    ensures r.Keys == reg.Keys - {p}
  {
    var up := reg[p].parent;
    map q | q in reg && q != p ::
      var o := if up == Some(q) then reg[q].(children := RemoveFirst(reg[q].children, p)) else reg[q];
      if q in reg[p].children then o.(parent := up) else o
  }

  /** Releasing a path keeps the tree exactly when nothing is registered below it. */
  lemma ReleaseKeepsTreeIff(reg: map<Path, Obj>, p: Path)
    requires Tree(reg) && p in reg && reg[p].parent.Some?
    ensures Tree(Released(reg, p)) <==> NoneBelow(reg, p)
  {
    if NoneBelow(reg, p) {
      ReleaseKeepsTree(reg, p);
    } else {
      var c :| c in reg && IsAncestor(p, c);
      var t := TopmostBelow(reg, p, c);
      TopmostNearest(reg, p, t);
      assert reg.Keys + {p} == reg.Keys;
      OrphanBreaks(reg, p, t);
    }
  }

  /** A child of a released object gets a new parent, which does not list it. */
  lemma OrphanBreaks(reg: map<Path, Obj>, p: Path, t: Path)
    requires Tree(reg) && p in reg && t in reg && IsAncestor(p, t) && Nearest(reg.Keys, t) == Some(p) && reg[p].parent.Some?
    ensures !Tree(Released(reg, p))
  {
    var a := reg[p].parent.value;
    var reg' := Released(reg, p);
    NearestIsLowest(reg.Keys, p);
    AncestorShorter(p, t);
    AncestorShorter(a, p);
    assert t in reg[p].children && t !in reg[a].children;
    RemoveFirstNoDup(reg[a].children, p);
    assert reg'[t].parent == Some(a) && reg'[a].children == RemoveFirst(reg[a].children, p);
  }

  lemma ReleaseKeepsTree(reg: map<Path, Obj>, p: Path)
    requires Tree(reg) && p in reg && NoneBelow(reg, p)
    ensures reg[p].children == [] && Tree(Released(reg, p))
  {
    LeafHasNoChildren(reg, p);
    forall q | q in reg
      ensures NoDup(RemoveFirst(reg[q].children, p))
      ensures forall c :: c in RemoveFirst(reg[q].children, p) <==> c in reg[q].children && c != p
    {
      RemoveFirstNoDup(reg[q].children, p);
    }
    LinkedOutTree(reg, Released(reg, p), p);
  }

  lemma LeafHasNoChildren(reg: map<Path, Obj>, p: Path)
    requires Tree(reg) && p in reg && NoneBelow(reg, p)
    ensures reg[p].children == []
  {
    if reg[p].children != [] {
      var c := reg[p].children[0];
      assert c in reg[p].children;
      ChildNearest(reg, p, c);
      NearestIsLowest(reg.Keys, c);
      assert false;
    }
  }

  lemma LinkedOutTree(reg: map<Path, Obj>, reg': map<Path, Obj>, p: Path)
    requires Tree(reg) && p in reg && NoneBelow(reg, p) && reg'.Keys == reg.Keys - {p}
    requires forall q :: q in reg' ==> reg'[q].parent == reg[q].parent && NoDup(reg'[q].children)
    requires forall q, c :: q in reg' ==> (c in reg'[q].children <==> c in reg[q].children && c != p)
    ensures Tree(reg')
  {
    forall c | c in reg' ensures Nearest(reg'.Keys, c) == reg'[c].parent {
      NearestSame(reg.Keys, reg'.Keys, c);
    }
    forall q, c | q in reg' ensures c in reg'[q].children <==> c in reg' && reg'[c].parent == Some(q) {
      assert c in reg[q].children <==> c in reg && reg[c].parent == Some(q);
    }
  }

  // ---- the walk of GetManagedObjects ----

  /** On a tree the walk below `p` lists each registered path strictly below `p` exactly once. */
  lemma {:induction false} WalkVisitsOnce(reg: map<Path, Obj>, p: Path)
    requires Tree(reg) && p in reg
    ensures var w := Walk(reg, p, reg[p].children);
      NoDup(w) && forall q :: q in w <==> q in reg && IsAncestor(p, q)
    decreases Below(reg, p), |reg[p].children| + 1
  {
    WalkKids(reg, p, reg[p].children);
    forall q | q in reg && IsAncestor(p, q) ensures Under(reg[p].children, q) { UnderSome(reg, p, q); }
  }

  /** Everything registered below an object is reached through one of its children. */
  lemma UnderSome(reg: map<Path, Obj>, p: Path, q: Path)
    requires Tree(reg) && p in reg && q in reg && IsAncestor(p, q)
    ensures Under(reg[p].children, q)
  {
    var t := TopmostBelow(reg, p, q);
    TopmostNearest(reg, p, t);
    assert reg.Keys + {p} == reg.Keys;
    assert t in reg[p].children;
  }

  /** `q` is one of `kids` or below one of them. */
  ghost predicate Under(kids: seq<Path>, q: Path) { exists c :: c in kids && (q == c || IsAncestor(c, q)) }

  /** A sub-list of the children contributes, for each child, the child and everything below it. */
  lemma {:induction false} WalkKids(reg: map<Path, Obj>, p: Path, kids: seq<Path>)
    requires Tree(reg) && p in reg && NoDup(kids) && forall c :: c in kids ==> c in reg[p].children
    ensures var w := Walk(reg, p, kids);
      NoDup(w) && forall q :: q in w <==> q in reg && Under(kids, q)
    ensures forall q :: q in Walk(reg, p, kids) ==> IsAncestor(p, q)
    decreases Below(reg, p), |kids|
  {
    if kids != [] {
      var c := kids[0];
      ChildNearest(reg, p, c);
      NearestIsLowest(reg.Keys, c);
      BelowShrinks(reg, p, c);
      WalkVisitsOnce(reg, c);
      WalkKids(reg, p, kids[1..]);
      JoinKids(reg, p, kids, [c] + Walk(reg, c, reg[c].children), Walk(reg, p, kids[1..]));
      BelowAll(p, c);
    }
  }

  lemma BelowAll(p: Path, c: Path)
    requires IsAncestor(p, c)
    ensures forall q :: IsAncestor(c, q) ==> IsAncestor(p, q)
  {
    forall q | IsAncestor(c, q) ensures IsAncestor(p, q) { AncestorTransitive(p, c, q); }
  }

  /** The walk over the first child's subtree and the walk over the others do not meet. */
  lemma JoinKids(reg: map<Path, Obj>, p: Path, kids: seq<Path>, a: seq<Path>, b: seq<Path>)
    requires Tree(reg) && p in reg && kids != [] && NoDup(kids) && forall c :: c in kids ==> c in reg[p].children
    requires a != [] && a[0] == kids[0] && NoDup(a[1..]) && forall q :: q in a[1..] <==> q in reg && IsAncestor(kids[0], q)
    requires NoDup(b) && forall q :: q in b <==> q in reg && Under(kids[1..], q)
    ensures NoDup(a + b) && forall q :: q in a + b <==> q in reg && Under(kids, q)
  {
    var c := kids[0];
    ChildNearest(reg, p, c);
    NotOwnAncestor(c);
    assert a == [c] + a[1..] && c !in a[1..];
    NoDupConcat([c], a[1..]);
    forall q | q in a ensures q !in b { FirstApart(reg, p, kids, q); }
    NoDupConcat(a, b);
    forall q ensures Under(kids, q) <==> q == c || IsAncestor(c, q) || Under(kids[1..], q) { KidsSplit(kids, q); }
  }

  lemma FirstApart(reg: map<Path, Obj>, p: Path, kids: seq<Path>, q: Path)
    requires Tree(reg) && p in reg && kids != [] && NoDup(kids) && forall c :: c in kids ==> c in reg[p].children
    requires q == kids[0] || IsAncestor(kids[0], q)
    ensures !Under(kids[1..], q)
  {
    if d :| d in kids[1..] && (q == d || IsAncestor(d, q)) {
      SiblingsApart(reg, p, kids[0], d, q);
    }
  }

  lemma KidsSplit(kids: seq<Path>, q: Path)
    requires kids != []
    ensures Under(kids, q) <==> q == kids[0] || IsAncestor(kids[0], q) || Under(kids[1..], q)
  {
    if Under(kids, q) {
      var d :| d in kids && (q == d || IsAncestor(d, q));
      if d != kids[0] { assert d in kids[1..]; }
    }
    if Under(kids[1..], q) {
      var d :| d in kids[1..] && (q == d || IsAncestor(d, q));
      assert d in kids;
    }
    assert kids[0] in kids;
  }

  /** The subtrees of two children of one object do not meet. */
  lemma SiblingsApart(reg: map<Path, Obj>, p: Path, c: Path, d: Path, q: Path)
    requires Tree(reg) && p in reg && c in reg[p].children && d in reg[p].children
    requires (q == c || IsAncestor(c, q)) && (q == d || IsAncestor(d, q))
    ensures c == d
  {
    SiblingNotBelow(reg, p, c, d);
    SiblingNotBelow(reg, p, d, c);
    if q != c && q != d { AncestorsChain(c, d, q); }
  }

  lemma SiblingNotBelow(reg: map<Path, Obj>, p: Path, c: Path, d: Path)
    requires Tree(reg) && p in reg && c in reg[p].children && d in reg[p].children
    ensures !IsAncestor(c, d)
  {
    ChildNearest(reg, p, c);
    ChildNearest(reg, p, d);
    NearestNotBelow(reg.Keys, p, c, d);
  }

  lemma ChildNearest(reg: map<Path, Obj>, p: Path, c: Path)
    requires Tree(reg) && p in reg && c in reg[p].children
    ensures c in reg && Nearest(reg.Keys, c) == Some(p)
  {
    assert reg[c].parent == Some(p);
  }

  /** Two paths with the same nearest key are not above one another, if the upper one is a key. */
  lemma NearestNotBelow(keys: set<Path>, p: Path, c: Path, d: Path)
    requires c in keys && Nearest(keys, c) == Some(p) == Nearest(keys, d)
    ensures !IsAncestor(c, d)
  {
    NearestIsLowest(keys, c);
    NearestIsLowest(keys, d);
    AncestorShorter(p, c);
    if IsAncestor(c, p) { AncestorShorter(c, p); }
  }
}
