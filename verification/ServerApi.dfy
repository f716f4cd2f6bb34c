/** Registering, unregistering and property calls as a user of the library makes them: the server
    invariant together with the reference counts is kept under the stated guards. */
module ServerApi {
  import opened Lists
  import opened Paths
  import opened DBusValues
  import opened ObjectModel
  import opened ObjectTree
  import opened Observers
  import opened Published
  import opened ServerInvariant
  import opened ServerCalls

  // ---- counting user interfaces ----

  /** Interfaces other than the two the library adds by itself. */
  function UserCount(ifaces: seq<Iface>): nat {
    if ifaces == [] then 0 else (if Builtin(ifaces[0].name) then 0 else 1) + UserCount(ifaces[1..])
  }

  lemma {:induction false} UserCountConcat(a: seq<Iface>, b: seq<Iface>)
    ensures UserCount(a + b) == UserCount(a) + UserCount(b)
  {
    if a == [] {
      assert a + b == b;
    } else {
      assert (a + b)[1..] == a[1..] + b;
      UserCountConcat(a[1..], b);
    }
  }

  lemma UserCountDrop(ifaces: seq<Iface>, k: nat)
    requires k < |ifaces|
    ensures UserCount(ifaces[..k] + ifaces[k + 1..]) == UserCount(ifaces) - (if Builtin(ifaces[k].name) then 0 else 1)
  {
    var a, b, c := ifaces[..k], ifaces[k], ifaces[k + 1..];
    UserCountConcat(a, [b] + c);
    UserCountConcat([b], c);
    UserCountConcat(a, c);
    UserCountOne(b);
    SplitAt(ifaces, k);
  }

  lemma UserCountOne(i: Iface)
    ensures UserCount([i]) == if Builtin(i.name) then 0 else 1
  {
    assert [i][1..] == [];
  }

  lemma {:induction false} UserCountNames(a: seq<Iface>, b: seq<Iface>)
    requires |a| == |b| && forall k :: 0 <= k < |a| ==> a[k].name == b[k].name
    ensures UserCount(a) == UserCount(b)
  {
    if a != [] { UserCountNames(a[1..], b[1..]); }
  }

  lemma {:induction false} UserCountZero(ifaces: seq<Iface>)
    ensures UserCount(ifaces) == 0 <==> forall k :: 0 <= k < |ifaces| ==> Builtin(ifaces[k].name)
  {
    if ifaces != [] {
      UserCountZero(ifaces[1..]);
      if forall k :: 0 <= k < |ifaces| ==> Builtin(ifaces[k].name) {
        forall k | 0 <= k < |ifaces[1..]| ensures Builtin(ifaces[1..][k].name) { assert ifaces[1..][k] == ifaces[k + 1]; }
      }
    }
  }

  /** The reference count is the number of user interfaces; the built-in ones are never half gone. */
  ghost predicate Balanced(o: Obj) {
    && o.refcount == UserCount(o.ifaces)
    && Has(o.ifaces, INTROSPECTABLE)
    && forall n :: n in o.removed ==> !Builtin(n)
  }

  ghost predicate Books(s: State) {
    && (forall p :: p in s.reg ==> Balanced(s.reg[p]) && s.reg[p].refcount > 0)
    && ROOT in s.reg && Has(s.reg[ROOT].ifaces, OBJECT_MANAGER)
  }

  ghost predicate Good(s: State) { Inv(s) && Books(s) }

  lemma BooksOthers(s: State, s': State, p: Path)
    requires Books(s) && OthersKept(s, s', p)
    requires p in s'.reg ==> Balanced(s'.reg[p]) && s'.reg[p].refcount > 0
    requires p == ROOT ==> ROOT in s'.reg && Has(s'.reg[ROOT].ifaces, OBJECT_MANAGER)
    ensures Books(s')
  {
    forall q | q in s'.reg && q != p ensures Balanced(s'.reg[q]) && s'.reg[q].refcount > 0 {
      assert q in s.reg.Keys - {p};
      assert SameButLinks(s.reg[q], s'.reg[q]);
    }
    if p != ROOT {
      assert ROOT in s.reg.Keys - {p};
      assert ROOT in s'.reg;
    }
  }

  // ---- g_dbus_register_interface ----

  /** What a disciplined caller checks before registering: a new path has nothing below it, a
      surviving path is not still withdrawing the name, and built-in names are left alone. */
  ghost predicate MayRegister(s: State, p: Path, name: string) {
    && Absolute(p) && !Builtin(name)
    && (p !in s.reg ==> NoneBelow(s.reg, p))
    && (p in s.reg ==> name !in s.reg[p].removed)
  }

  /** A reference taken and given back leaves a registered path as it was. */
  lemma RefUnref(s: State, p: Path)
    requires p in s.reg && s.reg[p].refcount > 0
    ensures PathUnref(PathRef(s, p), p) == s
  {
    var s1 := PathRef(s, p);
    assert s1.reg[p].(refcount := s1.reg[p].refcount - 1) == s.reg[p];
    assert s1.reg[p := s.reg[p]] == s.reg;
  }

  /** A failed registration undoes everything: the registry has the paths it had, and no object but
      links and caches differs. */
  lemma RegisterFails(s: State, p: Path, name: string, t: Table, data: map<string, DValue>)
    requires Good(s) && MayRegister(s, p, name) && !Register(s, p, name, t, data).1
    ensures var s' := Register(s, p, name, t, data).0;
      && Good(s')
      && (p in s.reg ==> s' == s)
      && (p !in s.reg ==> s'.reg.Keys == s.reg.Keys && OthersKept(s, s', p))
  {
    if p in s.reg {
      RefUnref(s, p);
    } else {
      PathRefNew(s, p);
      FailsNew(s, PathRef(s, p), p);
    }
  }

  lemma FailsNew(s: State, s1: State, p: Path)
    requires Books(s) && Inv(s1) && OthersKept(s, s1, p)
    requires p !in s.reg && p in s1.reg && NoneBelow(s.reg, p)
    requires s1.reg[p].refcount == 1 && s1.reg[p].ifaces == [NewIface(INTROSPECTABLE, INTROSPECT_TABLE, map[])]
    ensures var s' := PathUnref(s1, p);
      Good(s') && s'.reg.Keys == s.reg.Keys && OthersKept(s, s', p)
  {
    NewNames(s1.reg[p].ifaces);
    SameKeysBut(s, s1, p);
    LeafStaysLeaf(s, s1, p);
    DropLastReference(s1, p);
    BooksWithout(s, s1, PathUnref(s1, p), p);
  }

  lemma BooksWithout(s: State, s1: State, s': State, p: Path)
    requires Books(s) && OthersKept(s, s1, p) && OthersKept(s1, s', p) && p !in s.reg && p !in s'.reg
    ensures Books(s') && OthersKept(s, s', p) && s'.reg.Keys == s.reg.Keys
  {
    OthersTransitive(s, s1, s', p);
    BooksOthers(s, s', p);
    assert s'.reg.Keys - {p} == s'.reg.Keys && s.reg.Keys - {p} == s.reg.Keys;
  }

  lemma SameKeysBut(s: State, s1: State, p: Path)
    requires OthersKept(s, s1, p) && p in s1.reg
    ensures s1.reg.Keys == s.reg.Keys + {p}
  {
    forall q ensures q in s1.reg.Keys <==> q in s.reg.Keys + {p} {
      assert q in s1.reg.Keys - {p} <==> q in s.reg.Keys - {p};
    }
  }

  lemma NewNames(ifaces: seq<Iface>)
    requires |ifaces| == 1 && ifaces[0].name == INTROSPECTABLE
    ensures NameSet(ifaces) == {INTROSPECTABLE}
    ensures forall n :: Has(ifaces, n) <==> n == INTROSPECTABLE
  {
    assert Index(ifaces, INTROSPECTABLE) == 0;
  }

  lemma LeafStaysLeaf(s: State, s': State, p: Path)
    requires NoneBelow(s.reg, p) && s'.reg.Keys == s.reg.Keys + {p}
    ensures NoneBelow(s'.reg, p)
  {
    NotOwnAncestor(p);
  }

  lemma AddBalanced(s: State, p: Path, i: Iface)
    requires Inv(s) && p in s.reg && i.pending == []
    requires !Has(s.reg[p].ifaces, i.name) && i.name !in s.reg[p].removed
    ensures var s' := AddInterface(s, p, i);
      && Inv(s') && OthersKept(s, s', p) && s'.out == s.out && s'.reg.Keys == s.reg.Keys
      && s'.reg[p].ifaces == s.reg[p].ifaces + [i]
      && s'.reg[p].refcount == s.reg[p].refcount && s'.reg[p].removed == s.reg[p].removed
      && UserCount(s'.reg[p].ifaces) == UserCount(s.reg[p].ifaces) + (if Builtin(i.name) then 0 else 1)
      && NameSet(s'.reg[p].ifaces) == NameSet(s.reg[p].ifaces) + {i.name}
  {
    AddInterfaceEffect(s, p, i);
    AddInterfaceKeeps(s, p, i);
    LocalOthers(s, AddInterface(s, p, i), p, []);
    UserCountConcat(s.reg[p].ifaces, [i]);
    NameSetAppend(s.reg[p].ifaces, i);
  }

  /** The object at `p` right after `object_path_ref`: one reference more than interfaces. */
  lemma PathRefGood(s: State, p: Path)
    requires Good(s) && Absolute(p) && (p !in s.reg ==> NoneBelow(s.reg, p))
    ensures var s1 := PathRef(s, p);
      && Inv(s1) && OthersKept(s, s1, p) && s1.out == s.out
      && s1.reg[p].refcount == UserCount(s1.reg[p].ifaces) + 1
      && Has(s1.reg[p].ifaces, INTROSPECTABLE)
      && s1.reg[p].removed == (if p in s.reg then s.reg[p].removed else [])
      && (p in s.reg ==> s1.reg[p].ifaces == s.reg[p].ifaces)
      && (p !in s.reg ==> s1.reg[p].ifaces == [NewIface(INTROSPECTABLE, INTROSPECT_TABLE, map[])])
  {
    if p in s.reg { PathRefOld(s, p); } else { PathRefNew(s, p); NewNames(PathRef(s, p).reg[p].ifaces); }
  }

  lemma GrownGood(s: State, p: Path, name: string, t: Table, data: map<string, DValue>)
    requires Inv(s) && p in s.reg && !Builtin(name) && !Has(s.reg[p].ifaces, name) && name !in s.reg[p].removed
    requires forall n :: n in s.reg[p].removed ==> !Builtin(n)
    ensures var s' := Grown(s, p, name, t, data);
      && Inv(s') && OthersKept(s, s', p) && s'.out == s.out && s'.reg.Keys == s.reg.Keys
      && s'.reg[p].refcount == s.reg[p].refcount && s'.reg[p].removed == s.reg[p].removed
      && UserCount(s'.reg[p].ifaces) == UserCount(s.reg[p].ifaces) + 1
      && NameSet(s.reg[p].ifaces) + {name} <= NameSet(s'.reg[p].ifaces)
  {
    var s2 := AddInterface(s, p, NewIface(name, t, data));
    AddBalanced(s, p, NewIface(name, t, data));
    if t.props.Some? && !Has(s2.reg[p].ifaces, PROPERTIES) {
      AddBalanced(s2, p, NewIface(PROPERTIES, PROPERTIES_TABLE, map[]));
      OthersTransitive(s, s2, Grown(s, p, name, t, data), p);
    }
  }

  /** A successful registration keeps the invariant and the books. */
  lemma RegisterSucceeds(s: State, p: Path, name: string, t: Table, data: map<string, DValue>)
    requires Good(s) && MayRegister(s, p, name) && Register(s, p, name, t, data).1
    ensures var s' := Register(s, p, name, t, data).0;
      Good(s') && p in s'.reg && Has(s'.reg[p].ifaces, name) && s'.out == s.out && OthersKept(s, s', p)
  {
    var s1 := PathRef(s, p);
    PathRefGood(s, p);
    var s3 := Grown(s1, p, name, t, data);
    GrownGood(s1, p, name, t, data);
    OthersTransitive(s, s1, s3, p);
    FinishRegister(s, s3, p, name);
    assert Register(s, p, name, t, data).0 == s3.(reg := s3.reg[p := s3.reg[p].(introspect := None)]);
  }

  lemma FinishRegister(s: State, s3: State, p: Path, name: string)
    requires Good(s) && Inv(s3) && OthersKept(s, s3, p) && p in s3.reg
    requires s3.reg[p].refcount == UserCount(s3.reg[p].ifaces) && !Builtin(name)
    requires {name, INTROSPECTABLE} <= NameSet(s3.reg[p].ifaces)
    requires p in s.reg ==> NameSet(s.reg[p].ifaces) <= NameSet(s3.reg[p].ifaces)
    requires forall n :: n in s3.reg[p].removed ==> !Builtin(n)
    ensures var s' := s3.(reg := s3.reg[p := s3.reg[p].(introspect := None)]);
      Good(s') && OthersKept(s, s', p) && Has(s'.reg[p].ifaces, name)
  {
    var s' := s3.(reg := s3.reg[p := s3.reg[p].(introspect := None)]);
    CacheKeeps(s3, p, None);
    OthersTransitive(s, s3, s', p);
    UserInterfaceCounts(s3.reg[p].ifaces, name);
    BooksOthers(s, s', p);
  }

  /** Replacing a cached introspection text. */
  lemma CacheKeeps(s: State, p: Path, text: Option<Doc>)
    requires Inv(s) && p in s.reg
    ensures var s' := s.(reg := s.reg[p := s.reg[p].(introspect := text)]);
      Inv(s') && OthersKept(s, s', p) && s'.reg.Keys == s.reg.Keys
  {
    var s' := s.(reg := s.reg[p := s.reg[p].(introspect := text)]);
    assert s.out + [] == s.out;
    LocalOthers(s, s', p, []);
    MetaKeeps(s, s', p);
  }

  lemma RegisterKeeps(s: State, p: Path, name: string, t: Table, data: map<string, DValue>)
    requires Good(s) && MayRegister(s, p, name)
    ensures Good(Register(s, p, name, t, data).0)
  {
    if Register(s, p, name, t, data).1 { RegisterSucceeds(s, p, name, t, data); } else { RegisterFails(s, p, name, t, data); }
  }

  // ---- g_dbus_unregister_interface ----

  /** What a disciplined caller checks before unregistering: built-in interfaces and the manager are
      left alone, and the last interface goes only from a leaf. */
  ghost predicate MayUnregister(s: State, p: Path, name: string) {
    && !Builtin(name) && !(p == ROOT && name == OBJECT_MANAGER)
    && (p in s.reg && Has(s.reg[p].ifaces, name) && s.reg[p].refcount == 1 ==> NoneBelow(s.reg, p))
  }

  lemma RemoveBalanced(s: State, p: Path, name: string)
    requires Good(s) && p in s.reg && Has(s.reg[p].ifaces, name) && !Builtin(name)
    ensures var s' := RemoveInterface(s, p, name).0;
      && Inv(s') && OthersKept(s, s', p) && s'.reg.Keys == s.reg.Keys && RemoveInterface(s, p, name).1
      && s'.reg[p].refcount == UserCount(s'.reg[p].ifaces) + 1 && s'.reg[p].refcount == s.reg[p].refcount
      && NameSet(s'.reg[p].ifaces) == NameSet(s.reg[p].ifaces) - {name}
      && forall n :: n in s'.reg[p].removed ==> !Builtin(n)
  {
    RemovesName(s, p, name);
    RemovedBalance(s, p, name);
  }

  lemma RemovedBalance(s: State, p: Path, name: string)
    requires p in s.reg && Balanced(s.reg[p]) && Has(s.reg[p].ifaces, name) && !Builtin(name)
    ensures var s' := RemoveInterface(s, p, name).0;
      && RemoveInterface(s, p, name).1
      && s'.reg[p].refcount == UserCount(s'.reg[p].ifaces) + 1 && s'.reg[p].refcount == s.reg[p].refcount
      && forall n :: n in s'.reg[p].removed ==> !Builtin(n)
  {
    RemoveInterfaceEffect(s, p, name);
    UserCountDrop(s.reg[p].ifaces, Index(s.reg[p].ifaces, name));
  }

  lemma LeftoverNames(ifaces: seq<Iface>)
    requires UserCount(ifaces) == 0
    ensures forall n :: n in NameSet(ifaces) ==> Builtin(n)
  {
    UserCountZero(ifaces);
  }

  lemma UserInterfaceCounts(ifaces: seq<Iface>, name: string)
    requires Has(ifaces, name) && !Builtin(name)
    ensures UserCount(ifaces) > 0
  {
    UserCountZero(ifaces);
    assert ifaces[Index(ifaces, name)].name == name;
  }

  lemma UnregisterKeeps(s: State, p: Path, name: string)
    requires Good(s) && MayUnregister(s, p, name)
    ensures Good(Unregister(s, p, name).0) && OthersKept(s, Unregister(s, p, name).0, p)
  {
    if p in s.reg && Has(s.reg[p].ifaces, name) {
      var s1 := RemoveInterface(s, p, name).0;
      RemoveBalanced(s, p, name);
      var s2 := s1.(reg := s1.reg[p := s1.reg[p].(introspect := None)]);
      CacheKeeps(s1, p, None);
      OthersTransitive(s, s1, s2, p);
      assert Unregister(s, p, name).0 == PathUnref(s2, p);
      UnregisterUnref(s, s2, p, name);
    }
  }

  lemma UnregisterUnref(s: State, s2: State, p: Path, name: string)
    requires Good(s) && MayUnregister(s, p, name) && Inv(s2) && OthersKept(s, s2, p) && s2.reg.Keys == s.reg.Keys
    requires p in s.reg && Has(s.reg[p].ifaces, name)
    requires s2.reg[p].refcount == UserCount(s2.reg[p].ifaces) + 1 && s2.reg[p].refcount == s.reg[p].refcount
    requires NameSet(s2.reg[p].ifaces) == NameSet(s.reg[p].ifaces) - {name}
    requires forall n :: n in s2.reg[p].removed ==> !Builtin(n)
    ensures Good(PathUnref(s2, p)) && OthersKept(s, PathUnref(s2, p), p)
  {
    BuiltinsStay(s, p, name, s2.reg[p].ifaces);
    UnrefKeeps(s, s2, p);
  }

  lemma BuiltinsStay(s: State, p: Path, name: string, ifaces: seq<Iface>)
    requires Books(s) && p in s.reg && !Builtin(name) && !(p == ROOT && name == OBJECT_MANAGER)
    requires NameSet(ifaces) == NameSet(s.reg[p].ifaces) - {name}
    ensures Has(ifaces, INTROSPECTABLE) && (p == ROOT ==> Has(ifaces, OBJECT_MANAGER) && UserCount(ifaces) > 0)
  {
    assert INTROSPECTABLE in NameSet(ifaces);
    if p == ROOT {
      assert OBJECT_MANAGER in NameSet(ifaces);
      UserInterfaceCounts(ifaces, OBJECT_MANAGER);
    }
  }

  /** Giving back the reference of a removed interface. */
  lemma UnrefKeeps(s: State, s2: State, p: Path)
    requires Books(s) && Inv(s2) && OthersKept(s, s2, p) && p in s2.reg && s2.reg.Keys == s.reg.Keys
    requires s2.reg[p].refcount == UserCount(s2.reg[p].ifaces) + 1
    requires Has(s2.reg[p].ifaces, INTROSPECTABLE) && forall n :: n in s2.reg[p].removed ==> !Builtin(n)
    requires p == ROOT ==> Has(s2.reg[p].ifaces, OBJECT_MANAGER)
    requires UserCount(s2.reg[p].ifaces) == 0 ==> p != ROOT && NoneBelow(s2.reg, p)
    ensures Good(PathUnref(s2, p)) && OthersKept(s, PathUnref(s2, p), p)
  {
    if s2.reg[p].refcount > 1 {
      OneLess(s2, p);
    } else {
      LeftoverNames(s2.reg[p].ifaces);
      DropLastReference(s2, p);
    }
    OthersTransitive(s, s2, PathUnref(s2, p), p);
    BooksOthers(s, PathUnref(s2, p), p);
  }

  /** A reference is given back that is not the last one. */
  lemma OneLess(s: State, p: Path)
    requires Inv(s) && p in s.reg && s.reg[p].refcount > 1
    ensures var s' := PathUnref(s, p);
      && Inv(s') && OthersKept(s, s', p) && s'.reg.Keys == s.reg.Keys
      && s'.reg[p] == s.reg[p].(refcount := s.reg[p].refcount - 1)
  {
    var s' := PathUnref(s, p);
    assert s.out + [] == s.out;
    LocalOthers(s, s', p, []);
    MetaKeeps(s, s', p);
  }

  // ---- property calls ----

  /** Same interface names in the same order, same counters and queues: all the books look at. */
  ghost predicate SameLedger(o: Obj, o': Obj) {
    && |o'.ifaces| == |o.ifaces| && (forall k :: 0 <= k < |o.ifaces| ==> o'.ifaces[k].name == o.ifaces[k].name)
    && o'.refcount == o.refcount && (forall n :: n in o'.removed ==> n in o.removed)
  }

  lemma LedgerBalanced(o: Obj, o': Obj)
    requires SameLedger(o, o') && Balanced(o)
    ensures Balanced(o') && NameSet(o'.ifaces) == NameSet(o.ifaces)
  {
    SameNames(o.ifaces, o'.ifaces);
    UserCountNames(o.ifaces, o'.ifaces);
  }

  lemma BooksKept(s: State, s': State)
    requires Books(s) && s'.reg.Keys == s.reg.Keys && forall p :: p in s.reg ==> SameLedger(s.reg[p], s'.reg[p])
    ensures Books(s')
  {
    forall p | p in s'.reg ensures Balanced(s'.reg[p]) && s'.reg[p].refcount > 0 { LedgerBalanced(s.reg[p], s'.reg[p]); }
    SameNames(s.reg[ROOT].ifaces, s'.reg[ROOT].ifaces);
  }

  /** Only the property part of one object changes, and the dirty list gains at most that object. */
  ghost predicate PropertyStep(s: State, s': State, p: Path) {
    && LocalStep(s, s', p, [])
    && SameLedger(s.reg[p], s'.reg[p])
    && s'.reg[p].added == s.reg[p].added && s'.reg[p].removed == s.reg[p].removed
    && (forall k :: 0 <= k < |s.reg[p].ifaces| && s'.reg[p].ifaces[k].pending != [] ==>
          s.reg[p].ifaces[k].pending != [] || s.reg[p].ifaces[k].name !in s.reg[p].added)
    && (if s'.reg[p].queued == s.reg[p].queued then s'.pending == s.pending
        else s'.reg[p].queued && s'.pending == s.pending + [p])
  }

  lemma PropertyStepKeeps(s: State, s': State, p: Path)
    requires Good(s) && PropertyStep(s, s', p)
    ensures Good(s')
  {
    PropertyStepInv(s, s', p);
    BooksLocal(s, s', p, []);
  }

  lemma PropertyStepInv(s: State, s': State, p: Path)
    requires Inv(s) && PropertyStep(s, s', p)
    ensures Inv(s')
  {
    assert PathOk(s, p);
    SameNames(s.reg[p].ifaces, s'.reg[p].ifaces);
    if s'.reg[p].queued != s.reg[p].queued { QueueAfterAdd(s, s', p); }
    assert s.out + [] == s.out;
    if p != ROOT { PropertyStepConsistent(s.reg[p], s'.reg[p], Told(s.out, p)); }
    LocalKeeps(s, s', p, []);
  }

  lemma PropertyStepConsistent(o: Obj, o': Obj, told: PathView)
    requires Consistent(o, told) && SameLedger(o, o') && o'.added == o.added && o'.removed == o.removed
    requires forall k :: 0 <= k < |o.ifaces| && o'.ifaces[k].pending != [] ==>
      o.ifaces[k].pending != [] || o.ifaces[k].name !in o.added
    ensures Consistent(o', told)
  {
    SameNames(o.ifaces, o'.ifaces);
  }

  lemma BooksLocal(s: State, s': State, p: Path, ms: seq<Msg>)
    requires Books(s) && LocalStep(s, s', p, ms) && SameLedger(s.reg[p], s'.reg[p])
    ensures Books(s')
  {
    BooksKept(s, s');
  }

  /** `g_dbus_emit_property_changed` does nothing, or queues a property of an announced interface. */
  lemma EmitStep(s: State, p: Path, name: string, prop: string)
    requires s.root.Some?
    ensures var s' := EmitPropertyChanged(s, p, name, prop); s' == s || PropertyStep(s, s', p)
  {
    assert s.out + [] == s.out;
  }

  lemma EmitKeeps(s: State, p: Path, name: string, prop: string)
    requires Good(s)
    ensures Good(EmitPropertyChanged(s, p, name, prop))
  {
    EmitStep(s, p, name, prop);
    if EmitPropertyChanged(s, p, name, prop) != s {
      PropertyStepKeeps(s, EmitPropertyChanged(s, p, name, prop), p);
    }
  }

  /** A new value behind a property does nothing, or changes the data of one interface. */
  lemma SetValueStep(s: State, p: Path, name: string, prop: string, v: Option<DValue>)
    ensures var s' := SetValue(s, p, name, prop, v); s' == s || PropertyStep(s, s', p)
  {
    assert s.out + [] == s.out;
  }

  lemma SetValueKeeps(s: State, p: Path, name: string, prop: string, v: Option<DValue>)
    requires Good(s)
    ensures Good(SetValue(s, p, name, prop, v))
  {
    SetValueStep(s, p, name, prop, v);
    if SetValue(s, p, name, prop, v) != s {
      PropertyStepKeeps(s, SetValue(s, p, name, prop, v), p);
    }
  }

  // ---- process_changes, flush and sends ----

  lemma ProcessLedger(s: State, p: Path)
    requires p in s.reg
    ensures SameLedger(s.reg[p], ProcessChanges(s, p).reg[p])
  {
  }

  lemma ProcessGood(s: State, p: Path)
    requires Good(s) && p in s.reg
    ensures Good(ProcessChanges(s, p))
  {
    ProcessChangesKeeps(s, p);
    ProcessChangesLocal(s, p);
    ProcessLedger(s, p);
    BooksLocal(s, ProcessChanges(s, p), p, Processed(s.reg[p], p, Quiet(s, p), s.enabled).1);
  }

  lemma {:induction false} FlushListGood(s: State, dirty: seq<Path>)
    requires Good(s)
    ensures Good(FlushList(s, dirty))
    decreases dirty
  {
    if dirty != [] {
      if dirty[0] in s.reg {
        ProcessGood(s, dirty[0]);
        FlushListGood(ProcessChanges(s, dirty[0]), dirty[1..]);
      } else {
        FlushListGood(s, dirty[1..]);
      }
    }
  }

  lemma SendGood(s: State, m: Msg)
    requires Good(s) && (m.Other? || m.ManagedObjects? || m.Subscribed?)
    ensures Good(Send(s, m)) && Send(s, m).pending == []
  {
    FlushListGood(s, s.pending);
    FlushKeeps(s);
    AppendOther(Flush(s), m);
  }

  lemma IntrospectGood(s: State, p: Path)
    requires Good(s)
    ensures Good(Introspect(s, p))
  {
    if p in s.reg {
      var text := if s.reg[p].introspect == None then Some(CurrentDoc(s, p)) else s.reg[p].introspect;
      CacheGood(s, p, text);
      SendGood(s.(reg := s.reg[p := s.reg[p].(introspect := text)]), Other);
    }
  }

  lemma CacheGood(s: State, p: Path, text: Option<Doc>)
    requires Good(s) && p in s.reg
    ensures Good(s.(reg := s.reg[p := s.reg[p].(introspect := text)]))
  {
    CacheKeeps(s, p, text);
    BooksKept(s, s.(reg := s.reg[p := s.reg[p].(introspect := text)]));
  }

  lemma GetObjectsGood(s: State, client: nat)
    requires Good(s)
    ensures Good(GetObjects(s, client))
  {
    SendGood(s, ManagedObjects(client, WalkEntries(s, ROOT, s.reg[ROOT].children)));
  }

  // ---- the start ----

  lemma AttachedGood(enabled: bool)
    ensures Good(Attached(enabled)) && Attached(enabled).out == []
  {
    AttachedRoot(enabled);
    AttachedInv(Attached(enabled));
    AttachedBooks(Attached(enabled));
  }

  /** The registry right after attaching: the root with its two interfaces. */
  ghost predicate OnlyRoot(s: State) {
    && s.reg.Keys == {ROOT} && s.root == Some(ROOT) && s.pending == [] && s.out == []
    && var o := s.reg[ROOT];
      && o.parent == None && o.children == [] && o.added == [] && o.removed == [] && !o.queued && o.refcount == 1
      && o.ifaces == [NewIface(INTROSPECTABLE, INTROSPECT_TABLE, map[]), NewIface(OBJECT_MANAGER, MANAGER_TABLE, map[])]
  }

  lemma AttachedRoot(enabled: bool)
    ensures OnlyRoot(Attached(enabled))
  {
  }

  lemma AttachedInv(s: State)
    requires OnlyRoot(s)
    ensures Inv(s)
  {
    RootHasNoAncestor(ROOT);
    forall p ensures PathOk(s, p) {}
  }

  lemma AttachedBooks(s: State)
    requires OnlyRoot(s)
    ensures Books(s)
  {
    var l := s.reg[ROOT].ifaces;
    assert Index(l, INTROSPECTABLE) == 0;
    assert Index(l[1..], OBJECT_MANAGER) == 0;
    UserCountOne(l[0]);
    UserCountOne(l[1]);
    UserCountConcat([l[0]], [l[1]]);
  }
}
