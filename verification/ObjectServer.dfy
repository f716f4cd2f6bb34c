/** The object server as gdbus/object.c runs it: `generic_data` objects updated in place, each function
    proved against the model on values. Objects refer to each other by path. */
module ObjectServer {
  import opened Lists
  import opened Paths
  import opened DBusValues
  import M = ObjectModel
  import opened ObjectModel
  import opened ObjectTree

  /** `struct generic_data`. */
  class GenericData {
    const path: Path
    var refcount: int
    var interfaces: seq<Iface>
    var objects: seq<Path>
    var added: seq<string>
    var removed: seq<string>
    var processId: nat
    var pendingProp: bool
    var introspect: Option<Doc>
    var parent: Option<Path>

    constructor (path: Path)
      ensures this.path == path && View() == FRESH_OBJECT
    {
      this.path, refcount, interfaces, objects := path, 1, [], [];
      added, removed, processId, pendingProp := [], [], 0, false;
      introspect, parent := Some(Placeholder), None;
    }

    function View(): Obj
      reads this
    {
      Obj(refcount, interfaces, objects, added, removed, processId > 0, pendingProp, introspect, parent)
    }
  }

  // ---- loops over the lists of one object ----

  /** `find_interface`: the position, or the length of the list. */
  method FindInterface(ifaces: seq<Iface>, name: string) returns (k: nat)
    ensures k == Index(ifaces, name)
  {
    k := 0;
    while k < |ifaces|
      invariant k <= |ifaces|
      invariant Index(ifaces, name) == k + Index(ifaces[k..], name)
    {
      if ifaces[k].name == name { return; }
      assert ifaces[k..][1..] == ifaces[k + 1..];
      k := k + 1;
    }
  }

  /** `find_property`. */
  method FindPropertyIn(props: seq<Prop>, name: string, enabled: bool) returns (r: Option<Prop>)
    ensures r == FindProperty(props, name, enabled)
  {
    var k := 0;
    while k < |props|
      invariant k <= |props|
      invariant FindProperty(props, name, enabled) == FindProperty(props[k..], name, enabled)
    {
      if props[k].name == name {
        if Hidden(props[k].experimental, enabled) { break; }
        return Some(props[k]);
      }
      assert props[k..][1..] == props[k + 1..];
      k := k + 1;
    }
    r := None;
  }

  // ---- one step of each loop that builds a message ----

  lemma PropsNext(props: seq<Prop>, k: nat, data: map<string, DValue>, enabled: bool, before: seq<Entry>)
    requires k < |props|
    ensures var p := props[k];
      before + PropEntries(props[k..], data, enabled)
      == (before + (if Hidden(p.experimental, enabled) || !p.readable || !Exists(p, data) then [] else [Entry(p.name, Get(p, data))]))
        + PropEntries(props[k + 1..], data, enabled)
  {
    assert props[k..][1..] == props[k + 1..] && props[k..][0] == props[k];
  }

  lemma PublishedNext(ifaces: seq<Iface>, k: nat, added: seq<string>, enabled: bool, before: seq<IfaceEntry>)
    requires k < |ifaces|
    ensures before + PublishedEntries(ifaces[k..], added, enabled)
      == (before + (if ifaces[k].name in added then [] else [EntryOf(ifaces[k], enabled)])) + PublishedEntries(ifaces[k + 1..], added, enabled)
  {
    assert ifaces[k..][1..] == ifaces[k + 1..] && ifaces[k..][0] == ifaces[k];
  }

  lemma EntriesNext(ifaces: seq<Iface>, added: seq<string>, j: nat, enabled: bool, before: seq<IfaceEntry>)
    requires j < |added|
    ensures before + EntriesOf(ifaces, added[j..], enabled)
      == (before + (if Has(ifaces, added[j]) then [EntryOf(ifaces[Index(ifaces, added[j])], enabled)] else []))
        + EntriesOf(ifaces, added[j + 1..], enabled)
  {
    assert added[j..][1..] == added[j + 1..] && added[j..][0] == added[j];
  }

  lemma ChangedNext(queue: seq<Prop>, k: nat, data: map<string, DValue>, before: seq<Entry>)
    requires k < |queue|
    ensures var p := queue[k];
      before + ChangedEntries(queue[k..], data)
      == (before + (if p.readable && Exists(p, data) then [Entry(p.name, Get(p, data))] else [])) + ChangedEntries(queue[k + 1..], data)
  {
    assert queue[k..][1..] == queue[k + 1..] && queue[k..][0] == queue[k];
  }

  lemma InvalidatedNext(queue: seq<Prop>, k: nat, data: map<string, DValue>, after: seq<string>)
    requires k < |queue|
    ensures var p := queue[k];
      Invalidated(queue[k..], data) + after
      == Invalidated(queue[k + 1..], data) + ((if p.readable && !Exists(p, data) then [p.name] else []) + after)
  {
    assert queue[k..][1..] == queue[k + 1..] && queue[k..][0] == queue[k];
  }

  /** `append_properties`. */
  method AppendProperties(i: Iface, enabled: bool) returns (dict: seq<Entry>)
    ensures dict == PropEntries(i.table.Props(), i.data, enabled)
  {
    var props := i.table.Props();
    dict := [];
    var k := 0;
    while k < |props|
      invariant k <= |props|
      invariant dict + PropEntries(props[k..], i.data, enabled) == PropEntries(props, i.data, enabled)
    {
      var p := props[k];
      PropsNext(props, k, i.data, enabled, dict);
      assert dict + [] == dict;
      k := k + 1;
      if Hidden(p.experimental, enabled) { continue; }
      if !p.readable { continue; }
      if !Exists(p, i.data) { continue; }
      dict := dict + [Entry(p.name, Get(p, i.data))];
    }
    assert props[k..] == [];
  }

  /** `append_interfaces`: the interfaces that are not waiting in `added`. */
  method AppendInterfaces(ifaces: seq<Iface>, added: seq<string>, enabled: bool) returns (entries: seq<IfaceEntry>)
    ensures entries == PublishedEntries(ifaces, added, enabled)
  {
    entries := [];
    var k := 0;
    while k < |ifaces|
      invariant k <= |ifaces|
      invariant entries + PublishedEntries(ifaces[k..], added, enabled) == PublishedEntries(ifaces, added, enabled)
    {
      PublishedNext(ifaces, k, added, enabled, entries);
      assert entries + [] == entries;
      if ifaces[k].name !in added {
        var dict := AppendProperties(ifaces[k], enabled);
        entries := entries + [IfaceEntry(ifaces[k].name, dict)];
      }
      k := k + 1;
    }
    assert ifaces[k..] == [];
  }

  /** The `foreach` over `added` in `emit_interfaces_added`. */
  method AppendAdded(ifaces: seq<Iface>, added: seq<string>, enabled: bool) returns (entries: seq<IfaceEntry>)
    ensures entries == EntriesOf(ifaces, added, enabled)
  {
    entries := [];
    var j := 0;
    while j < |added|
      invariant j <= |added|
      invariant entries + EntriesOf(ifaces, added[j..], enabled) == EntriesOf(ifaces, added, enabled)
    {
      EntriesNext(ifaces, added, j, enabled, entries);
      assert entries + [] == entries;
      var k := FindInterface(ifaces, added[j]);
      if k < |ifaces| {
        var dict := AppendProperties(ifaces[k], enabled);
        entries := entries + [IfaceEntry(ifaces[k].name, dict)];
      }
      j := j + 1;
    }
    assert added[j..] == [];
  }

  /** The loop of `process_properties_from_interface` over the queue, oldest change first. */
  method SplitQueue(queue: seq<Prop>, data: map<string, DValue>) returns (dict: seq<Entry>, invalidated: seq<string>)
    ensures dict == ChangedEntries(queue, data) && invalidated == Invalidated(queue, data)
  {
    dict, invalidated := [], [];
    var k := 0;
    while k < |queue|
      invariant k <= |queue|
      invariant dict + ChangedEntries(queue[k..], data) == ChangedEntries(queue, data)
      invariant Invalidated(queue[k..], data) + invalidated == Invalidated(queue, data)
    {
      var p := queue[k];
      ChangedNext(queue, k, data, dict);
      InvalidatedNext(queue, k, data, invalidated);
      assert dict + [] == dict && [] + invalidated == invalidated;
      k := k + 1;
      if !p.readable { continue; }
      if !Exists(p, data) {
        invalidated := [p.name] + invalidated;
        continue;
      }
      dict := dict + [Entry(p.name, Get(p, data))];
    }
    assert queue[k..] == [];
  }

  /** The globals of gdbus/object.c for one connection, with libdbus' table of object paths and the
      queue of outgoing messages. */
  class Server {
    var registry: map<Path, GenericData>
    var pendingData: seq<Path>
    var root: Option<Path>
    var nextSource: nat
    var out: seq<Msg>
    const enabled: bool

    ghost predicate Valid()
      reads this
    {
      nextSource > 0 && forall p :: p in registry ==> registry[p].path == p
    }

    /** The registry on values. */
    ghost function Reg(): map<Path, Obj>
      reads this, registry.Values
    {
      map p | p in registry :: registry[p].View()
    }

    ghost function Abs(): State
      reads this, registry.Values
    {
      State(Reg(), pendingData, root, out, enabled)
    }

    /** Only one object was written to. */
    twostate lemma OneChanged(d: GenericData)
      requires Valid() && Live(d) && registry == old(registry)
      requires forall x :: x in registry.Values && x != d ==> x.View() == old(x.View())
      ensures Reg() == old(Reg())[d.path := d.View()]
    {
      forall q | q in registry && q != d.path ensures registry[q].View() == old(registry[q].View()) {
        assert registry[q] in registry.Values && registry[q].path == q;
      }
    }

    /** `d` is the object libdbus has for its path. */
    ghost predicate Live(d: GenericData)
      reads this
    {
      d.path in registry && registry[d.path] == d
    }

    // ---- the deferred work of one object ----

    /** `add_pending`. */
    method AddPending(d: GenericData)
      requires Valid() && Live(d)
      modifies this`pendingData, this`nextSource, d`processId
      ensures Valid() && Abs() == M.AddPending(old(Abs()), d.path)
    {
      if d.processId > 0 { return; }
      d.processId := nextSource;
      nextSource := nextSource + 1;
      pendingData := pendingData + [d.path];
      OneChanged(d);
    }

    /** `remove_pending`. */
    method RemovePending(d: GenericData)
      requires Valid() && Live(d)
      modifies this`pendingData, d`processId
      ensures Valid() && d.processId == 0 && pendingData == RemoveFirst(old(pendingData), d.path)
    {
      d.processId := 0;
      pendingData := RemoveFirst(pendingData, d.path);
    }

    /** `emit_interfaces_added`. */
    method EmitInterfacesAdded(d: GenericData)
      requires d.added != []
      modifies this`out, d`added
      ensures var r := EmitAdded(old(d.View()), d.path, root == None || root == Some(d.path), enabled);
        d.View() == r.0 && out == old(out) + r.1
    {
      if root == None || root == Some(d.path) { return; }
      var entries := AppendAdded(d.interfaces, d.added, enabled);
      d.added := [];
      out := out + [Added(d.path, entries)];
    }

    /** `process_properties_from_interface` for the interface at position `k`. */
    method ProcessPropertiesFromInterface(d: GenericData, k: nat)
      requires k < |d.interfaces|
      modifies this`out, d`interfaces, d`pendingProp
      ensures !d.pendingProp && out == old(out) + ChangedMsgs(d.path, old(d.interfaces[k]))
      ensures d.interfaces == old(d.interfaces)[k := old(d.interfaces[k]).(pending := [])]
    {
      d.pendingProp := false;
      var i := d.interfaces[k];
      if i.pending == [] { return; }
      var queue := Reverse(i.pending);
      var dict, invalidated := SplitQueue(queue, i.data);
      d.interfaces := d.interfaces[k := i.(pending := [])];
      out := out + [Changed(d.path, i.name, dict, invalidated)];
    }

    /** `process_property_changes`. */
    method ProcessPropertyChanges(d: GenericData)
      requires d.pendingProp
      modifies this`out, d`interfaces, d`pendingProp
      ensures var r := EmitChanges(old(d.View()), d.path); d.View() == r.0 && out == old(out) + r.1
    {
      var k := 0;
      while k < |d.interfaces|
        invariant k <= |d.interfaces| == |old(d.interfaces)|
        invariant d.pendingProp == (k == 0)
        invariant forall j :: 0 <= j < k ==> d.interfaces[j] == old(d.interfaces)[j].(pending := [])
        invariant forall j :: k <= j < |d.interfaces| ==> d.interfaces[j] == old(d.interfaces)[j]
        invariant out + AllChangedMsgs(d.path, old(d.interfaces)[k..]) == old(out) + AllChangedMsgs(d.path, old(d.interfaces))
      {
        assert old(d.interfaces)[k..][1..] == old(d.interfaces)[k + 1..];
        ProcessPropertiesFromInterface(d, k);
        k := k + 1;
      }
      assert old(d.interfaces)[k..] == [];
      if d.interfaces != [] { assert d.interfaces == ClearPending(old(d.interfaces)); }
    }

    /** `emit_interfaces_removed`. */
    method EmitInterfacesRemoved(d: GenericData)
      requires d.removed != []
      modifies this`out, d`removed
      ensures var r := EmitRemoved(old(d.View()), d.path, root == None || root == Some(d.path));
        d.View() == r.0 && out == old(out) + r.1
    {
      if root == None || root == Some(d.path) { return; }
      out := out + [Removed(d.path, d.removed)];
      d.removed := [];
    }

    /** `process_changes` up to the withdrawals: announcements, then property changes. */
    method AnnounceAndReport(d: GenericData)
      modifies this`out, d`added, d`interfaces, d`pendingProp
      ensures var r1 := EmitAdded(old(d.View()), d.path, root == None || root == Some(d.path), enabled);
        var r2 := EmitChanges(r1.0, d.path);
        d.View() == r2.0 && out == old(out) + (r1.1 + r2.1)
    {
      ghost var r1 := EmitAdded(d.View(), d.path, root == None || root == Some(d.path), enabled);
      if d.added != [] { EmitInterfacesAdded(d); }
      assert d.View() == r1.0 && out == old(out) + r1.1;
      if d.pendingProp { ProcessPropertyChanges(d); }
    }

    /** The three emissions of `process_changes`. */
    method EmitDeferred(d: GenericData)
      modifies this`out, d`added, d`interfaces, d`pendingProp, d`removed
      ensures var r1 := EmitAdded(old(d.View()), d.path, root == None || root == Some(d.path), enabled);
        var r2 := EmitChanges(r1.0, d.path);
        var r3 := EmitRemoved(r2.0, d.path, root == None || root == Some(d.path));
        d.View() == r3.0 && out == old(out) + (r1.1 + r2.1 + r3.1)
    {
      AnnounceAndReport(d);
      if d.removed != [] { EmitInterfacesRemoved(d); }
    }

    /** `process_changes`. */
    method ProcessChanges(d: GenericData)
      requires Valid() && Live(d)
      modifies this`pendingData, this`out, d
      ensures Valid() && Abs() == M.ProcessChanges(old(Abs()), d.path)
    {
      RemovePending(d);
      EmitDeferred(d);
      OneChanged(d);
    }

    /** `g_dbus_flush`: the list is walked as it was when the flush began. */
    method Flush()
      requires Valid()
      modifies this`pendingData, this`out, registry.Values
      ensures Valid() && Abs() == M.Flush(old(Abs()))
    {
      var dirty := pendingData;
      var k := 0;
      while k < |dirty|
        invariant k <= |dirty| && Valid() && registry == old(registry)
        invariant FlushList(Abs(), dirty[k..]) == FlushList(old(Abs()), dirty)
      {
        assert dirty[k..][1..] == dirty[k + 1..];
        if dirty[k] in registry { ProcessChanges(registry[dirty[k]]); }
        k := k + 1;
      }
      assert dirty[k..] == [];
    }

    /** `g_dbus_send_message`. */
    method SendMessage(m: Msg)
      requires Valid()
      modifies this`pendingData, this`out, registry.Values
      ensures Valid() && Abs() == M.Send(old(Abs()), m)
    {
      Flush();
      out := out + [m];
    }

    // ---- interfaces ----

    /** `add_interface` on a table with something to register. */
    method AddInterface(d: GenericData, i: Iface)
      requires Valid() && Live(d)
      modifies this`pendingData, this`nextSource, d`interfaces, d`added, d`processId
      ensures Valid() && Abs() == M.AddInterface(old(Abs()), d.path, i)
    {
      d.interfaces := d.interfaces + [i];
      if d.parent == None {
        OneChanged(d);
        return;
      }
      d.added := d.added + [i.name];
      OneChanged(d);
      AddPending(d);
    }

    /** The part of `remove_interface` that concerns the object's own lists; says whether the removal is deferred. */
    method TakeInterface(d: GenericData, k: nat) returns (deferred: bool)
      requires k < |d.interfaces|
      modifies this`out, d`interfaces, d`pendingProp, d`added, d`removed
      ensures out == old(out) + ChangedMsgs(d.path, old(d.interfaces[k]))
      ensures (d.View(), deferred) == Taken(old(d.View()), k)
    {
      var name := d.interfaces[k].name;
      ProcessPropertiesFromInterface(d, k);
      d.interfaces := d.interfaces[..k] + d.interfaces[k + 1..];
      if name in d.added {
        d.added := RemoveFirst(d.added, name);
        return false;
      }
      if d.parent == None { return false; }
      d.removed := [name] + d.removed;
      return true;
    }

    /** `remove_interface`. */
    method RemoveInterface(d: GenericData, name: string) returns (ok: bool)
      requires Valid() && Live(d)
      modifies this`pendingData, this`nextSource, this`out, d
      ensures Valid() && (Abs(), ok) == M.RemoveInterface(old(Abs()), d.path, name)
    {
      var k := FindInterface(d.interfaces, name);
      if k == |d.interfaces| { return false; }
      RemoveAt(d, k);
      ok := true;
    }

    method RemoveAt(d: GenericData, k: nat)
      requires Valid() && Live(d) && k < |d.interfaces|
      modifies this`pendingData, this`nextSource, this`out, d
      ensures Valid()
      ensures var s, r := old(Abs()), Taken(old(d.View()), k);
        var s1 := s.(reg := s.reg[d.path := r.0], out := s.out + ChangedMsgs(d.path, old(d.interfaces[k])));
        Abs() == if r.1 then M.AddPending(s1, d.path) else s1
    {
      var deferred := TakeInterface(d, k);
      OneChanged(d);
      if deferred { AddPending(d); }
    }

    // ---- the object tree ----

    /** The end of `invalidate_parent_data`. */
    method AdoptChild(d: GenericData, c: Path)
      requires Valid() && Live(d)
      modifies registry.Values
      ensures Valid() && Reg() == Adopt(old(Reg()), d.path, c)
    {
      d.introspect := None;
      OneChanged(d);
      if c in registry && c !in d.objects { LinkChild(d, c); }
    }

    method LinkChild(d: GenericData, c: Path)
      requires Valid() && Live(d) && c in registry
      modifies registry.Values
      ensures Valid()
      ensures var o := old(Reg())[d.path]; var reg1 := old(Reg())[d.path := o.(children := [c] + o.children)];
        Reg() == reg1[c := reg1[c].(parent := Some(d.path))]
    {
      d.objects := [c] + d.objects;
      OneChanged(d);
      SetParent(registry[c], d.path);
    }

    method SetParent(d: GenericData, a: Path)
      requires Valid() && Live(d)
      modifies d`parent
      ensures Valid() && Reg() == old(Reg())[d.path := old(Reg())[d.path].(parent := Some(a))]
    {
      d.parent := Some(a);
      OneChanged(d);
    }

    /** `invalidate_parent_data`. */
    method InvalidateParentData(c: Path) returns (r: Option<Path>)
      requires Valid()
      modifies registry.Values
      ensures Valid() && (Reg(), r) == Invalidate(old(Reg()), c)
      decreases |c|
    {
      var up := ParentPath(c);
      if up == None { return None; }
      var q := up.value;
      r := InvalidateParentData(q);
      if q in registry { r := Some(q); }
      if r == None { return; }
      AdoptChild(registry[r.value], c);
    }

    /** `object_path_ref`. */
    method ObjectPathRef(p: Path) returns (d: GenericData)
      requires Valid()
      modifies this, registry.Values
      ensures Valid() && Live(d) && d.path == p && Abs() == PathRef(old(Abs()), p)
      ensures registry == old(registry)[p := d] && (p !in old(registry) ==> fresh(d))
      ensures forall o :: o in registry.Values ==> o in old(registry.Values) || fresh(o)
    {
      if p in registry {
        d := registry[p];
        TakeReference(d);
        return;
      }
      d := NewObject(p);
      AddInterface(d, NewIface(INTROSPECTABLE, INTROSPECT_TABLE, map[]));
    }

    method TakeReference(d: GenericData)
      requires Valid() && Live(d)
      modifies d`refcount
      ensures Valid() && Abs() == PathRef(old(Abs()), d.path)
    {
      d.refcount := d.refcount + 1;
      OneChanged(d);
    }

    /** The allocating branch of `object_path_ref`. */
    method NewObject(p: Path) returns (d: GenericData)
      requires Valid() && p !in registry
      modifies this`registry, registry.Values
      ensures Valid() && Live(d) && d.path == p && fresh(d) && registry == old(registry)[p := d]
      ensures Reg() == Invalidate(old(Reg())[p := FRESH_OBJECT], p).0
    {
      d := new GenericData(p);
      registry := registry[p := d];
      assert Reg() == old(Reg())[p := FRESH_OBJECT];
      var _ := InvalidateParentData(p);
    }

    /** The loop of `generic_unregister` that hands the children on. */
    method ResetParents(kids: seq<Path>, up: Option<Path>)
      requires Valid()
      modifies registry.Values
      ensures Valid()
      ensures forall q :: q in registry ==>
        registry[q].View() == if q in kids then old(registry[q].View()).(parent := up) else old(registry[q].View())
    {
      var k := 0;
      while k < |kids|
        invariant k <= |kids| && Valid()
        invariant forall q :: q in registry ==>
          registry[q].View() == if q in kids[..k] then old(registry[q].View()).(parent := up) else old(registry[q].View())
      {
        assert kids[..k + 1] == kids[..k] + [kids[k]];
        if kids[k] in registry { registry[kids[k]].parent := up; }
        k := k + 1;
      }
      assert kids[..k] == kids;
    }

    /** The first step of `generic_unregister`: the parent forgets the object. */
    method Unlink(d: GenericData)
      requires Valid() && Live(d)
      modifies registry.Values
      ensures Valid()
      ensures var reg, up := old(Reg()), old(d.parent);
        Reg() == if up.Some? && up.value in reg
                 then reg[up.value := reg[up.value].(children := RemoveFirst(reg[up.value].children, d.path))] else reg
    {
      if d.parent.Some? && d.parent.value in registry {
        var a := registry[d.parent.value];
        a.objects := RemoveFirst(a.objects, d.path);
        OneChanged(a);
      }
    }

    /** `generic_unregister`, with which libdbus drops the path. */
    method DropPath(d: GenericData)
      requires Valid() && Live(d)
      modifies this, registry.Values
      ensures Valid() && Abs() == GenericUnregister(old(Abs()), d.path)
      ensures registry == old(registry) - {d.path}
    {
      var up := d.parent;
      Unlink(d);
      if d.processId > 0 { ProcessChanges(d); }
      Disown(d, up);
    }

    /** The end of `generic_unregister`. */
    method Disown(d: GenericData, up: Option<Path>)
      requires Valid() && Live(d)
      modifies this`registry, registry.Values
      ensures Valid() && registry == old(registry) - {d.path}
      ensures var reg := old(Reg());
        Reg() == map q | q in reg && q != d.path :: if q in reg[d.path].children then reg[q].(parent := up) else reg[q]
    {
      ResetParents(d.objects, up);
      registry := registry - {d.path};
    }

    /** `object_path_unref`. */
    method ObjectPathUnref(p: Path)
      requires Valid()
      modifies this, registry.Values
      ensures Valid() && Abs() == PathUnref(old(Abs()), p)
    {
      if p !in registry { return; }
      var d := registry[p];
      d.refcount := d.refcount - 1;
      OneChanged(d);
      if d.refcount > 0 { return; }
      LastUnref(d);
    }

    /** The end of `object_path_unref` when no reference is left. */
    method LastUnref(d: GenericData)
      requires Valid() && Live(d)
      modifies this, registry.Values
      ensures Valid() && Abs() == Dismantle(old(Abs()), d.path)
    {
      var _ := RemoveInterface(d, INTROSPECTABLE);
      var _ := RemoveInterface(d, PROPERTIES);
      var _ := InvalidateParentData(d.path);
      DropPath(d);
    }

    // ---- the calls ----

    /** Some member of the table is visible. */
    method AnythingToRegister(t: Table) returns (some: bool)
      ensures some == Registrable(t, enabled)
    {
      some := false;
      for k := 0 to |t.methods|
        invariant forall j :: 0 <= j < k ==> Hidden(t.methods[j].experimental, enabled)
      {
        if !Hidden(t.methods[k].experimental, enabled) { return true; }
      }
      for k := 0 to |t.signals|
        invariant forall j :: 0 <= j < k ==> Hidden(t.signals[j].experimental, enabled)
      {
        if !Hidden(t.signals[k].experimental, enabled) { return true; }
      }
      for k := 0 to |t.Props()|
        invariant forall j :: 0 <= j < k ==> Hidden(t.Props()[j].experimental, enabled)
      {
        if !Hidden(t.Props()[k].experimental, enabled) { return true; }
      }
    }

    /** `g_dbus_register_interface`. */
    method RegisterInterface(p: Path, name: string, t: Table, data: map<string, DValue>) returns (ok: bool)
      requires Valid()
      modifies this, registry.Values
      ensures Valid() && (Abs(), ok) == M.Register(old(Abs()), p, name, t, data)
    {
      var d := ObjectPathRef(p);
      ok := RegisterOnObject(d, name, t, data);
    }

    /** `g_dbus_register_interface` once it holds its reference. */
    method RegisterOnObject(d: GenericData, name: string, t: Table, data: map<string, DValue>) returns (ok: bool)
      requires Valid() && Live(d)
      modifies this, registry.Values
      ensures Valid() && (Abs(), ok) == RegisterOn(old(Abs()), d.path, name, t, data)
    {
      var k := FindInterface(d.interfaces, name);
      var some := AnythingToRegister(t);
      if k < |d.interfaces| || !some {
        ObjectPathUnref(d.path);
        return false;
      }
      Publish(d, name, t, data);
      return true;
    }

    /** The successful end of `g_dbus_register_interface`. */
    method Publish(d: GenericData, name: string, t: Table, data: map<string, DValue>)
      requires Valid() && Live(d)
      modifies this`pendingData, this`nextSource, d
      ensures Valid()
      ensures var s := Grown(old(Abs()), d.path, name, t, data);
        Abs() == s.(reg := s.reg[d.path := s.reg[d.path].(introspect := None)])
    {
      Grow(d, name, t, data);
      DropCache(d);
    }

    /** The two `add_interface` calls of `g_dbus_register_interface`. */
    method Grow(d: GenericData, name: string, t: Table, data: map<string, DValue>)
      requires Valid() && Live(d)
      modifies this`pendingData, this`nextSource, d`interfaces, d`added, d`processId
      ensures Valid() && Abs() == Grown(old(Abs()), d.path, name, t, data)
    {
      AddInterface(d, NewIface(name, t, data));
      if t.props.Some? {
        var k := FindInterface(d.interfaces, PROPERTIES);
        if k == |d.interfaces| { AddInterface(d, NewIface(PROPERTIES, PROPERTIES_TABLE, map[])); }
      }
    }

    /** `g_dbus_unregister_interface`. */
    method UnregisterInterface(p: Path, name: string) returns (ok: bool)
      requires Valid()
      modifies this, registry.Values
      ensures Valid() && (Abs(), ok) == M.Unregister(old(Abs()), p, name)
    {
      if p !in registry { return false; }
      var d := registry[p];
      ok := RemoveInterface(d, name);
      if !ok { return; }
      DropCache(d);
      ObjectPathUnref(p);
    }

    method DropCache(d: GenericData)
      requires Valid() && Live(d)
      modifies d`introspect
      ensures Valid()
      ensures var s := old(Abs()); Abs() == s.(reg := s.reg[d.path := s.reg[d.path].(introspect := None)])
    {
      d.introspect := None;
      OneChanged(d);
    }

    /** `g_dbus_emit_property_changed`. */
    method EmitPropertyChanged(p: Path, name: string, prop: string)
      requires Valid()
      modifies this`pendingData, this`nextSource, registry.Values
      ensures Valid() && Abs() == M.EmitPropertyChanged(old(Abs()), p, name, prop)
    {
      if p !in registry { return; }
      var d := registry[p];
      var k := FindInterface(d.interfaces, name);
      if k == |d.interfaces| { return; }
      if root.Some? && name in d.added { return; }
      var property := FindPropertyIn(d.interfaces[k].table.Props(), prop, enabled);
      if property == None { return; }
      if property.value in d.interfaces[k].pending { return; }
      QueueProperty(d, k, property.value);
    }

    method QueueProperty(d: GenericData, k: nat, q: Prop)
      requires Valid() && Live(d) && k < |d.interfaces|
      modifies this`pendingData, this`nextSource, d`interfaces, d`pendingProp, d`processId
      ensures Valid()
      ensures var s, o := old(Abs()), old(d.View());
        var i := o.ifaces[k].(pending := [q] + o.ifaces[k].pending);
        Abs() == M.AddPending(s.(reg := s.reg[d.path := o.(propFlag := true, ifaces := o.ifaces[k := i])]), d.path)
    {
      d.pendingProp := true;
      d.interfaces := d.interfaces[k := d.interfaces[k].(pending := [q] + d.interfaces[k].pending)];
      OneChanged(d);
      AddPending(d);
    }

    /** `introspect`, followed by sending the reply. */
    method HandleIntrospect(p: Path)
      requires Valid() && p in registry
      modifies this`pendingData, this`out, registry.Values
      ensures Valid() && Abs() == M.Introspect(old(Abs()), p)
    {
      var d := registry[p];
      if d.introspect == None {
        assert Abs().reg.Keys == registry.Keys;
        ghost var s := Abs();
        d.introspect := Some(Doc(Docs(d.interfaces, enabled), ChildNodes(registry.Keys, p)));
        assert d.introspect == Some(CurrentDoc(s, p));
      }
      OneChanged(d);
      SendMessage(Other);
    }

    // ---- GetManagedObjects ----

    /** Children are registered and lie strictly below; the tree invariant gives this. */
    ghost predicate LinksDown()
      reads this, registry.Values
    {
      forall p, c :: p in registry && c in registry[p].objects ==> c in registry && IsAncestor(p, c)
    }

    lemma TreeLinksDown()
      requires Tree(Reg())
      ensures LinksDown()
    {
      forall p, c | p in registry && c in registry[p].objects ensures c in registry && IsAncestor(p, c) {
        assert c in Reg()[p].children && Reg()[c].parent == Some(p);
        NearestIsLowest(Reg().Keys, c);
      }
    }

    /** `append_object` for the children of `p` in turn. */
    method AppendObjects(p: Path, kids: seq<Path>) returns (entries: seq<ObjEntry>)
      requires Valid() && LinksDown() && p in registry && forall c :: c in kids ==> c in registry[p].objects
      ensures entries == WalkEntries(Abs(), p, kids)
      decreases Below(Reg(), p), |kids|
    {
      if kids == [] { return []; }
      var c := kids[0];
      assert c in kids;
      BelowShrinks(Reg(), p, c);
      WalkEntriesStep(Abs(), p, kids);
      var d := registry[c];
      var ifaces := AppendInterfaces(d.interfaces, d.added, enabled);
      var inner := AppendObjects(c, d.objects);
      var rest := AppendObjects(p, kids[1..]);
      entries := [ObjEntry(c, ifaces)] + inner + rest;
    }

    /** `get_objects`, followed by sending the reply. */
    method HandleGetManagedObjects(client: nat)
      requires Valid() && LinksDown() && ROOT in registry
      modifies this`pendingData, this`out, registry.Values
      ensures Valid() && Abs() == GetObjects(old(Abs()), client)
    {
      var objs := AppendObjects(ROOT, registry[ROOT].objects);
      SendMessage(ManagedObjects(client, objs));
    }

    /** A fresh connection. */
    constructor (enabled: bool)
      ensures Valid() && registry == map[] && pendingData == [] && root == None && out == [] && this.enabled == enabled
    {
      this.enabled := enabled;
      registry, pendingData, root, nextSource, out := map[], [], None, 1, [];
    }

    /** `g_dbus_attach_object_manager` on a fresh connection. */
    method AttachObjectManager()
      requires Valid() && registry == map[] && pendingData == [] && root == None && out == []
      modifies this
      ensures Valid() && Abs() == Attached(enabled) && registry.Keys == {ROOT} && fresh(registry[ROOT])
    {
      assert Abs() == State(map[], [], None, [], enabled);
      AttachAt(ROOT);
    }

    method AttachAt(p: Path)
      requires Valid()
      modifies this, registry.Values
      ensures Valid() && p in registry && registry == old(registry)[p := registry[p]]
      ensures p !in old(registry) ==> fresh(registry[p])
      ensures Abs() == M.AddInterface(PathRef(old(Abs()), p), p, NewIface(OBJECT_MANAGER, MANAGER_TABLE, map[])).(root := Some(p))
    {
      var d := ObjectPathRef(p);
      BecomeRoot(d);
    }

    method BecomeRoot(d: GenericData)
      requires Valid() && Live(d)
      modifies this`pendingData, this`nextSource, this`root, d`interfaces, d`added, d`processId
      ensures Valid()
      ensures Abs() == M.AddInterface(old(Abs()), d.path, NewIface(OBJECT_MANAGER, MANAGER_TABLE, map[])).(root := Some(d.path))
    {
      AddInterface(d, NewIface(OBJECT_MANAGER, MANAGER_TABLE, map[]));
      SetRoot(d.path);
    }

    method SetRoot(p: Path)
      requires Valid()
      modifies this`root
      ensures Valid() && Abs() == old(Abs()).(root := Some(p))
    {
      root := Some(p);
    }
  }
}
