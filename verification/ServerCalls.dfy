/** The calls a user of gdbus/object.c makes: what each needs for the server invariant to be kept,
    and the balance of the reference counts. */
module ServerCalls {
  import opened Lists
  import opened Paths
  import opened DBusValues
  import opened ObjectModel
  import opened ObjectTree
  import opened Observers
  import opened Published
  import opened ServerInvariant

  /** Objects other than the one at `p` keep everything but links and caches, and no path other than `p` comes or goes. */
  ghost predicate OthersKept(s: State, s': State, p: Path) {
    && s'.reg.Keys - {p} == s.reg.Keys - {p}
    && (forall q :: q in s.reg && q in s'.reg && q != p ==> SameButLinks(s.reg[q], s'.reg[q]))
    && s'.enabled == s.enabled
  }

  lemma LocalOthers(s: State, s': State, p: Path, ms: seq<Msg>)
    requires LocalStep(s, s', p, ms)
    ensures OthersKept(s, s', p) && s'.reg.Keys == s.reg.Keys
  {
  }

  lemma OthersTransitive(a: State, b: State, c: State, p: Path)
    requires OthersKept(a, b, p) && OthersKept(b, c, p)
    ensures OthersKept(a, c, p)
  {
    forall q | q in a.reg && q in c.reg && q != p ensures SameButLinks(a.reg[q], c.reg[q]) {
      assert q in a.reg.Keys - {p};
      assert q in b.reg;
    }
  }

  lemma LinksKeep(s: State, s': State)
    requires Inv(s) && Tree(s'.reg) && s'.reg.Keys == s.reg.Keys
    requires forall q :: q in s.reg ==> SameButLinks(s.reg[q], s'.reg[q])
    requires s'.out == s.out && s'.pending == s.pending && s'.root == s.root
    ensures Inv(s')
  {
    forall q ensures PathOk(s', q) { assert PathOk(s, q); }
  }

  /** Counters and caches are no part of the invariant. */
  lemma MetaKeeps(s: State, s': State, p: Path)
    requires Inv(s) && LocalStep(s, s', p, []) && s'.pending == s.pending && SameBag(s.reg[p], s'.reg[p])
    ensures Inv(s')
  {
    assert PathOk(s, p);
    assert s'.out == s.out;
    LocalKeeps(s, s', p, []);
  }

  /** The same interface lists. */
  predicate SameBag(o: Obj, o': Obj) {
    o'.ifaces == o.ifaces && o'.added == o.added && o'.removed == o.removed && o'.queued == o.queued
  }

  // ---- object_path_ref ----

  lemma InsertObjectKeeps(s: State, s': State, p: Path)
    requires Inv(s) && p !in s.reg && Absolute(p) && NoneBelow(s.reg, p)
    requires s' == s.(reg := Inserted(s.reg, p))
    ensures Inv(s') && OthersKept(s, s', p) && SameButLinks(FRESH_OBJECT, s'.reg[p])
  {
    InvalidateSpec(s.reg[p := FRESH_OBJECT], p);
    InsertKeepsTreeIff(s.reg, p);
    InsertedInv(s, s', p);
  }

  lemma InsertedInv(s: State, s': State, p: Path)
    requires Inv(s) && p !in s.reg && Absolute(p) && Tree(s'.reg) && s'.reg.Keys == s.reg.Keys + {p}
    requires forall q :: q in s.reg ==> SameButLinks(s.reg[q], s'.reg[q])
    requires SameButLinks(FRESH_OBJECT, s'.reg[p])
    requires s'.out == s.out && s'.pending == s.pending && s'.root == s.root
    ensures Inv(s')
  {
    forall q ensures PathOk(s', q) { assert PathOk(s, q); }
  }

  lemma PathRefNew(s: State, p: Path)
    requires Inv(s) && p !in s.reg && Absolute(p) && NoneBelow(s.reg, p)
    ensures var s' := PathRef(s, p);
      && Inv(s') && OthersKept(s, s', p) && s'.out == s.out
      && s'.reg[p].refcount == 1 && s'.reg[p].removed == []
      && s'.reg[p].ifaces == [NewIface(INTROSPECTABLE, INTROSPECT_TABLE, map[])]
      && s'.reg[p].added == [INTROSPECTABLE]
  {
    var s1 := s.(reg := Inserted(s.reg, p));
    InsertObjectKeeps(s, s1, p);
    var i := NewIface(INTROSPECTABLE, INTROSPECT_TABLE, map[]);
    AddInterfaceEffect(s1, p, i);
    AddInterfaceKeeps(s1, p, i);
    HasParent(s1, p);
    RootRegistered(s, p);
  }

  lemma RootRegistered(s: State, p: Path)
    requires Inv(s) && p !in s.reg
    ensures p != ROOT
  {
  }

  lemma PathRefOld(s: State, p: Path)
    requires Inv(s) && p in s.reg
    ensures var s' := PathRef(s, p);
      Inv(s') && OthersKept(s, s', p) && s'.out == s.out
      && s'.reg[p] == s.reg[p].(refcount := s.reg[p].refcount + 1)
  {
    var s' := PathRef(s, p);
    assert s.out + [] == s.out;
    LocalOthers(s, s', p, []);
    MetaKeeps(s, s', p);
  }

  // ---- generic_unregister ----

  function Drained(s: State, p: Path): State
    requires p in s.reg
  {
    if s.reg[p].queued then ProcessChanges(s, p) else s
  }

  lemma UnregisterIsRelease(s: State, p: Path)
    requires Inv(s) && p in s.reg && p != ROOT && NoneBelow(s.reg, p)
    ensures GenericUnregister(s, p) == Drained(s, p).(reg := Released(Drained(s, p).reg, p))
  {
    LeafHasNoChildren(s.reg, p);
    HasParent(s, p);
    var a := s.reg[p].parent.value;
    NearestIsLowest(s.reg.Keys, p);
    NotOwnAncestor(p);
    ParentFirst(s, p, a);
  }

  lemma ParentFirst(s: State, p: Path, a: Path)
    requires p in s.reg && a in s.reg && a != p && s.reg[p].parent == Some(a) && s.reg[p].children == []
    ensures GenericUnregister(s, p) == Drained(s, p).(reg := Released(Drained(s, p).reg, p))
  {
    var s1 := s.(reg := s.reg[a := s.reg[a].(children := RemoveFirst(s.reg[a].children, p))]);
    var s2 := Drained(s1, p);
    ProcessChangesLocal(s, p);
    ProcessChangesLocal(s1, p);
    var t := Drained(s, p);
    assert s2.reg[p] == t.reg[p] && s2.reg[p].children == [];
    assert s2.pending == t.pending && s2.out == t.out;
    var r := GenericUnregister(s, p).reg;
    forall q | q in r ensures r[q] == Released(t.reg, p)[q] {}
  }

  lemma ReleaseKeeps(s: State, p: Path)
    requires Inv(s) && p in s.reg && p != ROOT && NoneBelow(s.reg, p)
    requires s.reg[p].ifaces == [] && !s.reg[p].queued
    ensures Inv(s.(reg := Released(s.reg, p)))
  {
    var s' := s.(reg := Released(s.reg, p));
    ReleaseKeepsTree(s.reg, p);
    assert PathOk(s, p);
    assert Told(s.out, p).Keys == {};
    forall q ensures PathOk(s', q) { assert PathOk(s, q); }
  }

  lemma GenericUnregisterKeeps(s: State, p: Path)
    requires Inv(s) && p in s.reg && p != ROOT && NoneBelow(s.reg, p) && s.reg[p].ifaces == []
    ensures Inv(GenericUnregister(s, p)) && OthersKept(s, GenericUnregister(s, p), p)
  {
    UnregisterIsRelease(s, p);
    var s1 := Drained(s, p);
    DrainedKeeps(s, p);
    ReleaseKeeps(s1, p);
    ReleasedOthers(s1, p);
    OthersTransitive(s, s1, GenericUnregister(s, p), p);
  }

  lemma DrainedKeeps(s: State, p: Path)
    requires Inv(s) && p in s.reg && s.reg[p].ifaces == []
    ensures var s' := Drained(s, p);
      Inv(s') && OthersKept(s, s', p) && s'.reg.Keys == s.reg.Keys && s'.reg[p].ifaces == [] && !s'.reg[p].queued
  {
    if s.reg[p].queued {
      ProcessChangesKeeps(s, p);
      ProcessChangesLocal(s, p);
      LocalOthers(s, ProcessChanges(s, p), p, Processed(s.reg[p], p, Quiet(s, p), s.enabled).1);
    }
  }

  lemma ReleasedOthers(s: State, p: Path)
    requires p in s.reg
    ensures OthersKept(s, s.(reg := Released(s.reg, p)), p)
  {
  }

  // ---- object_path_unref ----

  lemma InvalidateKeeps(s: State, p: Path)
    requires Inv(s) && p in s.reg
    ensures Inv(s.(reg := Invalidate(s.reg, p).0))
    ensures forall q :: q in s.reg ==> SameButLinks(s.reg[q], Invalidate(s.reg, p).0[q])
    ensures forall q :: q in s.reg ==> Invalidate(s.reg, p).0[q].children == s.reg[q].children
    ensures forall q :: q in s.reg ==> Invalidate(s.reg, p).0[q].parent == s.reg[q].parent
  {
    InvalidateSpec(s.reg, p);
    InvalidateLinked(s.reg, p);
    SameLinks(s.reg, Invalidate(s.reg, p).0);
    LinksKeep(s, s.(reg := Invalidate(s.reg, p).0));
  }

  /** In a tree a registered path is linked already. */
  lemma InvalidateLinked(reg: map<Path, Obj>, p: Path)
    requires Tree(reg) && p in reg
    ensures var r := Invalidate(reg, p).0;
      forall q :: q in reg ==> r[q].children == reg[q].children && r[q].parent == reg[q].parent
  {
    InvalidateLinks(reg, p);
    NearestIsLowest(reg.Keys, p);
  }

  /** The last reference is dropped from an object that has only built-in interfaces left. */
  lemma DropLastReference(s: State, p: Path)
    requires Inv(s) && p in s.reg && p != ROOT && NoneBelow(s.reg, p)
    requires s.reg[p].refcount == 1 && forall n :: n in NameSet(s.reg[p].ifaces) ==> Builtin(n)
    ensures var s' := PathUnref(s, p);
      Inv(s') && p !in s'.reg && OthersKept(s, s', p)
  {
    var s1 := s.(reg := s.reg[p := s.reg[p].(refcount := 0)]);
    assert s.out + [] == s.out;
    MetaKeeps(s, s1, p);
    LocalOthers(s, s1, p, []);
    DismantleKeeps(s1, p);
    OthersTransitive(s, s1, Dismantle(s1, p), p);
  }

  lemma DismantleKeeps(s: State, p: Path)
    requires Inv(s) && p in s.reg && p != ROOT && NoneBelow(s.reg, p)
    requires forall n :: n in NameSet(s.reg[p].ifaces) ==> Builtin(n)
    ensures Inv(Dismantle(s, p)) && OthersKept(s, Dismantle(s, p), p)
  {
    var s1 := RemoveInterface(s, p, INTROSPECTABLE).0;
    var s2 := RemoveInterface(s1, p, PROPERTIES).0;
    RemovesName(s, p, INTROSPECTABLE);
    RemovesName(s1, p, PROPERTIES);
    OthersTransitive(s, s1, s2, p);
    NoNamesNoInterfaces(s2.reg[p].ifaces);
    LeaveKeeps(s2, p);
    OthersTransitive(s, s2, Dismantle(s, p), p);
  }

  lemma LeaveKeeps(s: State, p: Path)
    requires Inv(s) && p in s.reg && p != ROOT && NoneBelow(s.reg, p) && s.reg[p].ifaces == []
    ensures Inv(Leave(s, p)) && OthersKept(s, Leave(s, p), p)
  {
    var s1 := s.(reg := Invalidate(s.reg, p).0);
    InvalidateKeeps(s, p);
    GenericUnregisterKeeps(s1, p);
    OthersTransitive(s, s1, Leave(s, p), p);
  }

  lemma NoNamesNoInterfaces(ifaces: seq<Iface>)
    requires NameSet(ifaces) == {}
    ensures ifaces == []
  {
    assert ifaces != [] ==> Has(ifaces, ifaces[0].name);
  }

  lemma RemovesName(s: State, p: Path, name: string)
    requires Inv(s) && p in s.reg
    ensures var s' := RemoveInterface(s, p, name).0;
      && Inv(s') && OthersKept(s, s', p) && s'.reg.Keys == s.reg.Keys
      && NameSet(s'.reg[p].ifaces) == NameSet(s.reg[p].ifaces) - {name}
      && s'.reg[p].refcount == s.reg[p].refcount
  {
    RemoveInterfaceKeeps(s, p, name);
    if Has(s.reg[p].ifaces, name) {
      DistinctAt(s, p);
      RemovesPresent(s, p, name);
    } else {
      assert RemoveInterface(s, p, name).0 == s;
    }
  }

  lemma RemovesPresent(s: State, p: Path, name: string)
    requires p in s.reg && Has(s.reg[p].ifaces, name) && DistinctNames(s.reg[p].ifaces)
    ensures var s' := RemoveInterface(s, p, name).0;
      && OthersKept(s, s', p) && s'.reg.Keys == s.reg.Keys
      && NameSet(s'.reg[p].ifaces) == NameSet(s.reg[p].ifaces) - {name}
      && s'.reg[p].refcount == s.reg[p].refcount
  {
    var k := Index(s.reg[p].ifaces, name);
    RemoveInterfaceEffect(s, p, name);
    LocalOthers(s, RemoveInterface(s, p, name).0, p, ChangedMsgs(p, s.reg[p].ifaces[k]));
    NameSetDrop(s.reg[p].ifaces, k);
  }

  lemma DistinctAt(s: State, p: Path)
    requires Inv(s) && p in s.reg
    ensures DistinctNames(s.reg[p].ifaces)
  {
    assert PathOk(s, p);
  }
}
