/** The cached introspection text of an object is absent or what would be generated now. */
module IntrospectionCache {
  import opened Lists
  import opened Paths
  import opened DBusValues
  import opened ObjectModel
  import opened ObjectTree
  import opened Observers
  import opened Published
  import opened ServerInvariant
  import opened ServerCalls
  import opened ServerApi
  import opened ValueCalls

  ghost predicate CacheOk(s: State, p: Path)
    requires p in s.reg
  {
    || s.reg[p].introspect == None
    || s.reg[p].introspect == Some(CurrentDoc(s, p))
    || (p == ROOT && s.reg[p].introspect == Some(Placeholder) && s.reg.Keys == {ROOT})
  }

  ghost predicate Caches(s: State) { forall p :: p in s.reg ==> CacheOk(s, p) }

  /** No cache changes and the same paths are registered. */
  ghost predicate SameCaches(s: State, s': State) {
    s'.reg.Keys == s.reg.Keys && forall q :: q in s.reg ==> s'.reg[q].introspect == s.reg[q].introspect
  }

  /** Every other cache stays or is dropped, and it is dropped above a path that comes or goes. */
  ghost predicate Dropped(s: State, s': State, p: Path) {
    forall q :: q in s.reg && q in s'.reg && q != p ==>
      if IsAncestor(q, p) && (p in s.reg) != (p in s'.reg) then s'.reg[q].introspect == None
      else s'.reg[q].introspect == s.reg[q].introspect || s'.reg[q].introspect == None
  }

  lemma SameNodes(keys: set<Path>, keys': set<Path>, p: Path, q: Path)
    requires keys' - {p} == keys - {p} && (!IsAncestor(q, p) || (p in keys <==> p in keys'))
    ensures ChildNodes(keys, q) == ChildNodes(keys', q)
  {
    forall x ensures x in keys && IsAncestor(q, x) <==> x in keys' && IsAncestor(q, x) {
      assert x in keys - {p} <==> x in keys' - {p};
    }
  }

  lemma CachesAround(s: State, s': State, p: Path)
    requires Caches(s) && OthersKept(s, s', p) && Dropped(s, s', p)
    requires p in s'.reg ==> CacheOk(s', p)
    requires p != ROOT ==> IsAncestor(ROOT, p)
    ensures Caches(s')
  {
    forall q | q in s'.reg && q != p ensures CacheOk(s', q) {
      assert q in s.reg.Keys - {p};
      assert CacheOk(s, q);
      if s'.reg[q].introspect != None { CacheStays(s, s', p, q); }
    }
  }

  /** A cache that is still there speaks of the same children, and the placeholder of an empty tree. */
  lemma CacheStays(s: State, s': State, p: Path, q: Path)
    requires OthersKept(s, s', p) && Dropped(s, s', p) && q in s.reg && q in s'.reg && q != p && CacheOk(s, q)
    requires s'.reg[q].introspect != None && (p != ROOT ==> IsAncestor(ROOT, p))
    ensures CacheOk(s', q)
  {
    SameNodes(s.reg.Keys, s'.reg.Keys, p, q);
    if q == ROOT {
      assert s'.reg.Keys - {p} == s.reg.Keys - {p};
      assert p in s.reg <==> p in s'.reg;
      forall x ensures x in s.reg <==> x in s'.reg { assert x in s.reg.Keys - {p} <==> x in s'.reg.Keys - {p}; }
    }
  }

  lemma BelowRoot(p: Path)
    requires Absolute(p)
    ensures p != ROOT ==> IsAncestor(ROOT, p)
  {
    if p != ROOT { RootAboveAll(p); }
  }

  // ---- operations that leave the caches alone ----

  lemma {:induction false} SameDocs(a: seq<Iface>, b: seq<Iface>, enabled: bool)
    requires |a| == |b| && forall k :: 0 <= k < |a| ==> b[k].name == a[k].name && b[k].table == a[k].table
    ensures Docs(a, enabled) == Docs(b, enabled)
  {
    if a != [] { SameDocs(a[1..], b[1..], enabled); }
  }

  ghost predicate SameTables(s: State, s': State) {
    && SameCaches(s, s') && s'.enabled == s.enabled
    && (forall q :: q in s.reg ==> |s'.reg[q].ifaces| == |s.reg[q].ifaces|)
    && (forall q, k :: q in s.reg && 0 <= k < |s.reg[q].ifaces| ==>
         s'.reg[q].ifaces[k].name == s.reg[q].ifaces[k].name && s'.reg[q].ifaces[k].table == s.reg[q].ifaces[k].table)
  }

  lemma SameTablesCaches(s: State, s': State)
    requires Caches(s) && SameTables(s, s')
    ensures Caches(s')
  {
    forall q | q in s'.reg ensures CacheOk(s', q) {
      assert CacheOk(s, q);
      SameDocs(s.reg[q].ifaces, s'.reg[q].ifaces, s.enabled);
    }
  }

  lemma {:induction false} FlushListCaches(s: State, dirty: seq<Path>)
    requires Caches(s)
    ensures Caches(FlushList(s, dirty))
    decreases dirty
  {
    if dirty != [] {
      if dirty[0] in s.reg {
        ProcessCaches(s, dirty[0]);
        FlushListCaches(ProcessChanges(s, dirty[0]), dirty[1..]);
      } else {
        FlushListCaches(s, dirty[1..]);
      }
    }
  }

  lemma ProcessCaches(s: State, p: Path)
    requires Caches(s) && p in s.reg
    ensures Caches(ProcessChanges(s, p))
  {
    ProcessSame(s, p);
    ProcessContents(s, p);
    SameTablesCaches(s, ProcessChanges(s, p));
  }

  lemma ProcessSame(s: State, p: Path)
    requires p in s.reg
    ensures SameCaches(s, ProcessChanges(s, p))
  {
  }

  lemma AppendCaches(s: State, m: Msg)
    requires Caches(s)
    ensures Caches(s.(out := s.out + [m]))
  {
    SameTablesCaches(s, s.(out := s.out + [m]));
  }

  lemma SendCaches(s: State, m: Msg)
    requires Caches(s)
    ensures Caches(Send(s, m))
  {
    FlushListCaches(s, s.pending);
    AppendCaches(Flush(s), m);
  }

  /** Generating the text when it is missing stores what is current. */
  lemma IntrospectCaches(s: State, p: Path)
    requires Caches(s)
    ensures Caches(Introspect(s, p))
  {
    if p in s.reg {
      assert CacheOk(s, p);
      var text := if s.reg[p].introspect == None then Some(CurrentDoc(s, p)) else s.reg[p].introspect;
      var s1 := s.(reg := s.reg[p := s.reg[p].(introspect := text)]);
      assert s1.reg.Keys == s.reg.Keys;
      forall q | q in s1.reg ensures CacheOk(s1, q) {
        assert CacheOk(s, q);
        assert CurrentDoc(s1, q) == CurrentDoc(s, q);
      }
      SendCaches(s1, Other);
    }
  }

  lemma EmitCaches(s: State, p: Path, name: string, prop: string)
    requires Caches(s)
    ensures Caches(EmitPropertyChanged(s, p, name, prop))
  {
    var s' := EmitPropertyChanged(s, p, name, prop);
    if s' != s {
      EmitSame(s, p, name, prop);
      SameTablesCaches(s, s');
    }
  }

  lemma EmitSame(s: State, p: Path, name: string, prop: string)
    requires EmitPropertyChanged(s, p, name, prop) != s
    ensures SameTables(s, EmitPropertyChanged(s, p, name, prop))
  {
    var s' := EmitPropertyChanged(s, p, name, prop);
    var k := Index(s.reg[p].ifaces, name);
    assert forall q :: q in s.reg && q != p ==> s'.reg[q] == s.reg[q];
    assert s'.reg[p].ifaces == s.reg[p].ifaces[k := s'.reg[p].ifaces[k]];
  }

  lemma SetCaches(s: State, p: Path, name: string, prop: string, v: Option<DValue>)
    requires Caches(s)
    ensures Caches(SetValue(s, p, name, prop, v))
  {
    SetSame(s, p, name, prop, v);
    SameTablesCaches(s, SetValue(s, p, name, prop, v));
  }

  lemma SetSame(s: State, p: Path, name: string, prop: string, v: Option<DValue>)
    ensures SameTables(s, SetValue(s, p, name, prop, v))
  {
  }

  // ---- registering and unregistering ----

  lemma AddSame(s: State, p: Path, i: Iface)
    requires p in s.reg
    ensures SameCaches(s, AddInterface(s, p, i))
  {
  }

  lemma RemoveSame(s: State, p: Path, name: string)
    requires p in s.reg
    ensures SameCaches(s, RemoveInterface(s, p, name).0)
  {
  }

  lemma PathRefDrops(s: State, p: Path)
    ensures Dropped(s, PathRef(s, p), p)
  {
    if p !in s.reg {
      InvalidateSpec(s.reg[p := FRESH_OBJECT], p);
      AddSame(s.(reg := Inserted(s.reg, p)), p, NewIface(INTROSPECTABLE, INTROSPECT_TABLE, map[]));
    }
  }

  lemma GrownSame(s: State, p: Path, name: string, t: Table, data: map<string, DValue>)
    requires p in s.reg
    ensures SameCaches(s, Grown(s, p, name, t, data))
  {
    var s2 := AddInterface(s, p, NewIface(name, t, data));
    AddSame(s, p, NewIface(name, t, data));
    if t.props.Some? && !Has(s2.reg[p].ifaces, PROPERTIES) { AddSame(s2, p, NewIface(PROPERTIES, PROPERTIES_TABLE, map[])); }
  }

  lemma DroppedThenSame(a: State, b: State, c: State, p: Path)
    requires Dropped(a, b, p) && SameCaches(b, c)
    ensures Dropped(a, c, p)
  {
  }

  lemma SameThenDropped(a: State, b: State, c: State, p: Path)
    requires SameCaches(a, b) && Dropped(b, c, p)
    ensures Dropped(a, c, p)
  {
  }

  /** Leaving the tree drops every cache above. */
  lemma LeaveDrops(s: State, p: Path)
    requires p in s.reg
    ensures Dropped(s, Leave(s, p), p)
  {
    InvalidateSpec(s.reg, p);
    UnregisterSame(s.(reg := Invalidate(s.reg, p).0), p);
  }

  lemma UnregisterSame(s: State, p: Path)
    requires p in s.reg
    ensures var s' := GenericUnregister(s, p); forall q :: q in s'.reg ==> s'.reg[q].introspect == s.reg[q].introspect
  {
    var up := s.reg[p].parent;
    var s1 := if up.Some? && up.value in s.reg
              then s.(reg := s.reg[up.value := s.reg[up.value].(children := RemoveFirst(s.reg[up.value].children, p))])
              else s;
    if s1.reg[p].queued { ProcessSame(s1, p); }
  }

  lemma DismantleDrops(s: State, p: Path)
    requires p in s.reg
    ensures Dropped(s, Dismantle(s, p), p)
  {
    var s2 := RemoveInterface(s, p, INTROSPECTABLE).0;
    var s3 := RemoveInterface(s2, p, PROPERTIES).0;
    RemoveSame(s, p, INTROSPECTABLE);
    RemoveSame(s2, p, PROPERTIES);
    LeaveDrops(s3, p);
    SameThenDropped(s2, s3, Leave(s3, p), p);
    SameThenDropped(s, s2, Leave(s3, p), p);
  }

  lemma UnrefDrops(s: State, p: Path)
    ensures Dropped(s, PathUnref(s, p), p)
  {
    if p in s.reg {
      var s1 := s.(reg := s.reg[p := s.reg[p].(refcount := s.reg[p].refcount - 1)]);
      assert SameCaches(s, s1);
      if s1.reg[p].refcount <= 0 {
        DismantleDrops(s1, p);
        LastDrops(s, s1, Dismantle(s1, p), PathUnref(s, p), p);
      }
    }
  }

  lemma LastDrops(s: State, s1: State, s2: State, s': State, p: Path)
    requires SameCaches(s, s1) && Dropped(s1, s2, p) && s' == s2
    ensures Dropped(s, s', p)
  {
  }

  lemma RegisterCaches(s: State, p: Path, name: string, t: Table, data: map<string, DValue>)
    requires Good(s) && Caches(s) && MayRegister(s, p, name)
    ensures Caches(Register(s, p, name, t, data).0)
  {
    var s' := Register(s, p, name, t, data).0;
    BelowRoot(p);
    if Register(s, p, name, t, data).1 {
      RegisterSucceeds(s, p, name, t, data);
      SuccessDrops(s, p, name, t, data);
      CachesAround(s, s', p);
    } else {
      RegisterFails(s, p, name, t, data);
      if p !in s.reg {
        FailureDrops(s, p);
        CachesAround(s, s', p);
      }
    }
  }

  lemma SuccessDrops(s: State, p: Path, name: string, t: Table, data: map<string, DValue>)
    requires Register(s, p, name, t, data).1
    ensures var s' := Register(s, p, name, t, data).0;
      Dropped(s, s', p) && (p in s'.reg ==> s'.reg[p].introspect == None)
  {
    var s1 := PathRef(s, p);
    PathRefDrops(s, p);
    var s3 := Grown(s1, p, name, t, data);
    GrownSame(s1, p, name, t, data);
    DroppedThenSame(s, s1, s3, p);
    assert Register(s, p, name, t, data).0 == s3.(reg := s3.reg[p := s3.reg[p].(introspect := None)]);
  }

  lemma FailureDrops(s: State, p: Path)
    requires p !in s.reg && p !in PathUnref(PathRef(s, p), p).reg
    ensures Dropped(s, PathUnref(PathRef(s, p), p), p)
  {
    var s1 := PathRef(s, p);
    PathRefDrops(s, p);
    UnrefDrops(s1, p);
    DroppedTwice(s, s1, PathUnref(s1, p), p);
  }

  lemma DroppedTwice(a: State, b: State, c: State, p: Path)
    requires Dropped(a, b, p) && Dropped(b, c, p) && p !in a.reg && p !in c.reg && p in b.reg && a.reg.Keys <= b.reg.Keys
    ensures Dropped(a, c, p)
  {
  }

  lemma UnregisterCaches(s: State, p: Path, name: string)
    requires Good(s) && Caches(s) && MayUnregister(s, p, name)
    ensures Caches(Unregister(s, p, name).0)
  {
    if p in s.reg && Has(s.reg[p].ifaces, name) {
      var s' := Unregister(s, p, name).0;
      UnregisterKeeps(s, p, name);
      UnregisterDrops(s, p, name);
      if p != ROOT { AbsoluteAt(s, p); BelowRoot(p); }
      CachesAround(s, s', p);
    }
  }

  lemma UnregisterDrops(s: State, p: Path, name: string)
    requires p in s.reg && Has(s.reg[p].ifaces, name)
    ensures var s' := Unregister(s, p, name).0; Dropped(s, s', p) && (p in s'.reg ==> s'.reg[p].introspect == None)
  {
    var s1 := RemoveInterface(s, p, name).0;
    RemoveSame(s, p, name);
    var s2 := s1.(reg := s1.reg[p := s1.reg[p].(introspect := None)]);
    UnrefDrops(s2, p);
    UnrefKeepsCache(s2, p);
    SameElsewhere(s, s2, PathUnref(s2, p), p);
  }

  lemma SameElsewhere(a: State, b: State, c: State, p: Path)
    requires a.reg.Keys == b.reg.Keys && (forall q :: q in a.reg && q != p ==> b.reg[q].introspect == a.reg[q].introspect)
    requires Dropped(b, c, p)
    ensures Dropped(a, c, p)
  {
  }

  lemma AbsoluteAt(s: State, p: Path)
    requires Inv(s) && p in s.reg && p != ROOT
    ensures Absolute(p)
  {
    assert PathOk(s, p);
  }

  lemma UnrefKeepsCache(s: State, p: Path)
    requires p in s.reg
    ensures p in PathUnref(s, p).reg ==> PathUnref(s, p).reg[p].introspect == s.reg[p].introspect
  {
  }

  lemma AttachedCaches(enabled: bool)
    ensures Caches(Attached(enabled))
    ensures var s := Attached(enabled);
      s.reg[ROOT].introspect == Some(Placeholder) && s.reg[ROOT].introspect != Some(CurrentDoc(s, ROOT))
  {
    RootHasNoAncestor(ROOT);
  }
}
