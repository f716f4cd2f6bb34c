/** The object server of gdbus/object.c on values: what each function does to the registry of
    objects, the list of dirty objects and the outgoing message stream of one connection. */
module ObjectModel {
  import opened Lists
  import opened Paths
  import opened DBusValues

  const INTROSPECTABLE := "org.freedesktop.DBus.Introspectable"
  const PROPERTIES := "org.freedesktop.DBus.Properties"
  const OBJECT_MANAGER := "org.freedesktop.DBus.ObjectManager"

  predicate Builtin(name: string) { name == INTROSPECTABLE || name == PROPERTIES }

  // ---- interface tables ----

  /** A method or signal of an interface table. */
  datatype Member = Member(name: string, experimental: bool)

  /** A property of an interface table: `readable` is `get != NULL`, `optional` is `exists != NULL`. */
  datatype Prop = Prop(name: string, readable: bool, optional: bool, experimental: bool)

  datatype Table = Table(methods: seq<Member>, signals: seq<Member>, props: Option<seq<Prop>>) {
    function Props(): seq<Prop> { if props.Some? then props.value else [] }
  }

  /** `data` is the user data behind the getters: the property values, absent when `exists` says no. */
  datatype Iface = Iface(name: string, table: Table, data: map<string, DValue>, pending: seq<Prop>)

  const NO_VALUE := Str("")

  predicate Exists(p: Prop, data: map<string, DValue>) { !p.optional || p.name in data }

  function Get(p: Prop, data: map<string, DValue>): DValue {
    if p.name in data then data[p.name] else NO_VALUE
  }

  /** `check_experimental`: the member is hidden. */
  predicate Hidden(experimental: bool, enabled: bool) { experimental && !enabled }

  /** `find_property`. */
  function FindProperty(props: seq<Prop>, name: string, enabled: bool): (r: Option<Prop>)
    ensures r.Some? ==> r.value in props && r.value.name == name && !Hidden(r.value.experimental, enabled)
  {
    if props == [] then None
    else if props[0].name == name then
      if Hidden(props[0].experimental, enabled) then None else Some(props[0])
    else FindProperty(props[1..], name, enabled)
  }

  // ---- messages ----

  datatype Entry = Entry(key: string, value: DValue)
  datatype IfaceEntry = IfaceEntry(name: string, props: seq<Entry>)
  datatype ObjEntry = ObjEntry(path: Path, ifaces: seq<IfaceEntry>)

  /** The outgoing stream. `Subscribed` marks where a client's match rules take effect. */
  datatype Msg =
    | Added(path: Path, ifaces: seq<IfaceEntry>)
    | Removed(path: Path, names: seq<string>)
    | Changed(path: Path, iface: string, changed: seq<Entry>, invalidated: seq<string>)
    | ManagedObjects(client: nat, objs: seq<ObjEntry>)
    | Subscribed(client: nat)
    | Other

  // ---- objects ----

  datatype IfaceDoc = IfaceDoc(name: string, methods: seq<string>, signals: seq<string>, props: seq<Prop>)

  /** Introspection data: the text is a function of the visible interfaces and the child nodes. */
  datatype Doc = Placeholder | Doc(ifaces: seq<IfaceDoc>, nodes: set<string>)

  datatype Obj = Obj(
    refcount: int,
    ifaces: seq<Iface>,
    children: seq<Path>,
    added: seq<string>,
    removed: seq<string>,
    queued: bool,
    propFlag: bool,
    introspect: Option<Doc>,
    parent: Option<Path>)

  datatype State = State(
    reg: map<Path, Obj>,
    pending: seq<Path>,
    root: Option<Path>,
    out: seq<Msg>,
    enabled: bool)

  /** Position of the interface called `name`, or the length of the list. */
  function Index(ifaces: seq<Iface>, name: string): (i: nat)
    ensures i <= |ifaces|
    ensures i < |ifaces| ==> ifaces[i].name == name
    ensures forall j :: 0 <= j < i ==> ifaces[j].name != name
  {
    if ifaces == [] then 0
    else if ifaces[0].name == name then 0
    else 1 + Index(ifaces[1..], name)
  }

  predicate Has(ifaces: seq<Iface>, name: string) { Index(ifaces, name) < |ifaces| }

  // ---- building messages ----

  /** `append_properties`. */
  function PropEntries(props: seq<Prop>, data: map<string, DValue>, enabled: bool): seq<Entry> {
    if props == [] then []
    else
      var p := props[0];
      (if Hidden(p.experimental, enabled) || !p.readable || !Exists(p, data) then []
       else [Entry(p.name, Get(p, data))]) + PropEntries(props[1..], data, enabled)
  }

  /** `append_interface`. */
  function EntryOf(i: Iface, enabled: bool): IfaceEntry {
    IfaceEntry(i.name, PropEntries(i.table.Props(), i.data, enabled))
  }

  /** The interfaces of `ifaces` called `names`, in the order of `names`. */
  function EntriesOf(ifaces: seq<Iface>, names: seq<string>, enabled: bool): seq<IfaceEntry> {
    if names == [] then []
    else
      (if Has(ifaces, names[0]) then [EntryOf(ifaces[Index(ifaces, names[0])], enabled)] else [])
      + EntriesOf(ifaces, names[1..], enabled)
  }

  /** `append_interfaces`: every interface not waiting in `added`. */
  function PublishedEntries(ifaces: seq<Iface>, added: seq<string>, enabled: bool): seq<IfaceEntry> {
    if ifaces == [] then []
    else
      (if ifaces[0].name in added then [] else [EntryOf(ifaces[0], enabled)])
      + PublishedEntries(ifaces[1..], added, enabled)
  }

  /** The changed part of a PropertiesChanged signal, for queued properties in queueing order. */
  function ChangedEntries(queue: seq<Prop>, data: map<string, DValue>): seq<Entry> {
    if queue == [] then []
    else
      (if queue[0].readable && Exists(queue[0], data) then [Entry(queue[0].name, Get(queue[0], data))] else [])
      + ChangedEntries(queue[1..], data)
  }

  /** The invalidated part of a PropertiesChanged signal. */
  function Invalidated(queue: seq<Prop>, data: map<string, DValue>): seq<string> {
    if queue == [] then []
    else
      Invalidated(queue[1..], data)
      + (if queue[0].readable && !Exists(queue[0], data) then [queue[0].name] else [])
  }

  /** `process_properties_from_interface`: the signal sent for one interface, if any. */
  function ChangedMsgs(path: Path, i: Iface): seq<Msg> {
    if i.pending == [] then []
    else
      var queue := Reverse(i.pending);
      [Changed(path, i.name, ChangedEntries(queue, i.data), Invalidated(queue, i.data))]
  }

  function AllChangedMsgs(path: Path, ifaces: seq<Iface>): seq<Msg> {
    if ifaces == [] then [] else ChangedMsgs(path, ifaces[0]) + AllChangedMsgs(path, ifaces[1..])
  }

  function ClearPending(ifaces: seq<Iface>): (r: seq<Iface>)
    ensures |r| == |ifaces|
    ensures forall k :: 0 <= k < |ifaces| ==> r[k] == ifaces[k].(pending := [])
  {
    seq(|ifaces|, k requires 0 <= k < |ifaces| => ifaces[k].(pending := []))
  }

  // ---- the deferred work of one object ----

  /** `add_pending`. */
  function AddPending(s: State, p: Path): (r: State)
    requires p in s.reg
    ensures r.reg.Keys == s.reg.Keys
  {
    if s.reg[p].queued then s
    else s.(reg := s.reg[p := s.reg[p].(queued := true)], pending := s.pending + [p])
  }

  /** `emit_interfaces_added`; `quiet` is its test `root == NULL || data == root`. */
  function EmitAdded(o: Obj, path: Path, quiet: bool, enabled: bool): (Obj, seq<Msg>) {
    if o.added == [] || quiet then (o, [])
    else (o.(added := []), [Added(path, EntriesOf(o.ifaces, o.added, enabled))])
  }

  /** `process_property_changes`, when the object's flag asks for it. */
  function EmitChanges(o: Obj, path: Path): (Obj, seq<Msg>) {
    if !o.propFlag || o.ifaces == [] then (o, [])
    else (o.(ifaces := ClearPending(o.ifaces), propFlag := false), AllChangedMsgs(path, o.ifaces))
  }

  /** `emit_interfaces_removed`. */
  function EmitRemoved(o: Obj, path: Path, quiet: bool): (Obj, seq<Msg>) {
    if o.removed == [] || quiet then (o, []) else (o.(removed := []), [Removed(path, o.removed)])
  }

  /** `process_changes`: the object afterwards and the signals sent. */
  function Processed(o: Obj, path: Path, quiet: bool, enabled: bool): (Obj, seq<Msg>) {
    var (o1, m1) := EmitAdded(o.(queued := false), path, quiet, enabled);
    var (o2, m2) := EmitChanges(o1, path);
    var (o3, m3) := EmitRemoved(o2, path, quiet);
    (o3, m1 + m2 + m3)
  }

  predicate Quiet(s: State, p: Path) { s.root == None || s.root == Some(p) }

  /** `process_changes`. */
  function ProcessChanges(s: State, p: Path): (r: State)
    requires p in s.reg
    ensures r.reg.Keys == s.reg.Keys
  {
    var (o, msgs) := Processed(s.reg[p], p, Quiet(s, p), s.enabled);
    s.(reg := s.reg[p := o], pending := RemoveFirst(s.pending, p), out := s.out + msgs)
  }

  /** `g_dbus_flush` over the dirty list as it stands when the flush starts. */
  function FlushList(s: State, dirty: seq<Path>): State
    decreases dirty
  {
    if dirty == [] then s
    else FlushList(if dirty[0] in s.reg then ProcessChanges(s, dirty[0]) else s, dirty[1..])
  }

  function Flush(s: State): State { FlushList(s, s.pending) }

  /** `g_dbus_send_message`: flush, then send. */
  function Send(s: State, m: Msg): State {
    var s1 := Flush(s);
    s1.(out := s1.out + [m])
  }

  // ---- interfaces of an object ----

  /** Some member is visible, so `add_interface` has something to register. */
  predicate Registrable(t: Table, enabled: bool) {
    || (exists i :: 0 <= i < |t.methods| && !Hidden(t.methods[i].experimental, enabled))
    || (exists i :: 0 <= i < |t.signals| && !Hidden(t.signals[i].experimental, enabled))
    || (exists i :: 0 <= i < |t.Props()| && !Hidden(t.Props()[i].experimental, enabled))
  }

  /** `add_interface` on a registrable table. */
  function AddInterface(s: State, p: Path, i: Iface): (r: State)
    requires p in s.reg
    ensures r.reg.Keys == s.reg.Keys
  {
    var o := s.reg[p].(ifaces := s.reg[p].ifaces + [i]);
    if o.parent == None then s.(reg := s.reg[p := o])
    else AddPending(s.(reg := s.reg[p := o.(added := o.added + [i.name])]), p)
  }

  /** The object once `remove_interface` has taken out the interface at `k`, and whether the
      removal is deferred to the next idle callback. */
  function Taken(o: Obj, k: nat): (Obj, bool)
    requires k < |o.ifaces|
  {
    var name := o.ifaces[k].name;
    var o1 := o.(propFlag := false, ifaces := o.ifaces[..k] + o.ifaces[k + 1..]);
    if name in o.added then (o1.(added := RemoveFirst(o1.added, name)), false)
    else if o.parent == None then (o1, false)
    else (o1.(removed := [name] + o1.removed), true)
  }

  /** `remove_interface`. */
  function RemoveInterface(s: State, p: Path, name: string): (r: (State, bool))
    requires p in s.reg
    ensures r.0.reg.Keys == s.reg.Keys
  {
    var o := s.reg[p];
    if !Has(o.ifaces, name) then (s, false)
    else
      var k := Index(o.ifaces, name);
      var (o1, deferred) := Taken(o, k);
      var s1 := s.(reg := s.reg[p := o1], out := s.out + ChangedMsgs(p, o.ifaces[k]));
      (if deferred then AddPending(s1, p) else s1, true)
  }

  // ---- the object tree ----

  /** The tail of `invalidate_parent_data`: drop the cache of `a` and make `c` its child. */
  function Adopt(reg: map<Path, Obj>, a: Path, c: Path): (r: map<Path, Obj>)
    requires a in reg
    ensures r.Keys == reg.Keys
  {
    var reg1 := reg[a := reg[a].(introspect := None)];
    if c !in reg1 || c in reg1[a].children then reg1
    else
      var reg2 := reg1[a := reg1[a].(children := [c] + reg1[a].children)];
      reg2[c := reg2[c].(parent := Some(a))]
  }

  /** `invalidate_parent_data`: the registry afterwards and the object returned. */
  function Invalidate(reg: map<Path, Obj>, c: Path): (r: (map<Path, Obj>, Option<Path>))
    ensures r.0.Keys == reg.Keys
    ensures r.1.Some? ==> r.1.value in reg
    decreases |c|
  {
    match ParentPath(c)
    case None => (reg, None)
    case Some(q) =>
      var (reg1, up) := Invalidate(reg, q);
      var found := if q in reg then Some(q) else up;
      match found
      case None => (reg1, None)
      case Some(a) => (Adopt(reg1, a, c), found)
  }

  const FRESH_OBJECT := Obj(1, [], [], [], [], false, false, Some(Placeholder), None)
  const INTROSPECT_TABLE := Table([Member("Introspect", false)], [], None)
  const PROPERTIES_TABLE :=
    Table([Member("Get", false), Member("Set", false), Member("GetAll", false)], [Member("PropertiesChanged", false)], None)
  const MANAGER_TABLE :=
    Table([Member("GetManagedObjects", false)], [Member("InterfacesAdded", false), Member("InterfacesRemoved", false)], None)

  function NewIface(name: string, t: Table, data: map<string, DValue>): Iface { Iface(name, t, data, []) }

  /** `object_path_ref`, allocation and `dbus_connection_register_object_path` succeeding. */
  function PathRef(s: State, p: Path): (r: State)
    ensures r.reg.Keys == s.reg.Keys + {p}
  {
    if p in s.reg then s.(reg := s.reg[p := s.reg[p].(refcount := s.reg[p].refcount + 1)])
    else
      var s1 := s.(reg := Invalidate(s.reg[p := FRESH_OBJECT], p).0);
      AddInterface(s1, p, NewIface(INTROSPECTABLE, INTROSPECT_TABLE, map[]))
  }

  /** `generic_unregister` after the path has left libdbus' table. */
  function GenericUnregister(s: State, p: Path): (r: State)
    requires p in s.reg
    ensures r.reg.Keys == s.reg.Keys - {p}
  {
    var up := s.reg[p].parent;
    var s1 := if up.Some? && up.value in s.reg
              then s.(reg := s.reg[up.value := s.reg[up.value].(children := RemoveFirst(s.reg[up.value].children, p))])
              else s;
    var s2 := if s1.reg[p].queued then ProcessChanges(s1, p) else s1;
    var kids := s2.reg[p].children;
    var reg := map q | q in s2.reg && q != p :: if q in kids then s2.reg[q].(parent := up) else s2.reg[q];
    s2.(reg := reg)
  }

  /** The object leaves the tree: `invalidate_parent_data`, then libdbus drops the path. */
  function Leave(s: State, p: Path): (r: State)
    requires p in s.reg
    ensures r.reg.Keys == s.reg.Keys - {p}
  {
    GenericUnregister(s.(reg := Invalidate(s.reg, p).0), p)
  }

  /** The end of an object whose last reference is gone. */
  function Dismantle(s: State, p: Path): (r: State)
    requires p in s.reg
    ensures r.reg.Keys == s.reg.Keys - {p}
  {
    Leave(RemoveInterface(RemoveInterface(s, p, INTROSPECTABLE).0, p, PROPERTIES).0, p)
  }

  /** `object_path_unref`. */
  function PathUnref(s: State, p: Path): State {
    if p !in s.reg then s
    else
      var o := s.reg[p].(refcount := s.reg[p].refcount - 1);
      var s1 := s.(reg := s.reg[p := o]);
      if o.refcount > 0 then s1 else Dismantle(s1, p)
  }

  /** The interfaces a successful registration adds: the new one and, with properties, the built-in one. */
  function Grown(s: State, p: Path, name: string, t: Table, data: map<string, DValue>): (r: State)
    requires p in s.reg
    ensures r.reg.Keys == s.reg.Keys
  {
    var s2 := AddInterface(s, p, NewIface(name, t, data));
    if t.props.Some? && !Has(s2.reg[p].ifaces, PROPERTIES)
    then AddInterface(s2, p, NewIface(PROPERTIES, PROPERTIES_TABLE, map[])) else s2
  }

  /** `g_dbus_register_interface` once it holds its reference. */
  function RegisterOn(s: State, p: Path, name: string, t: Table, data: map<string, DValue>): (State, bool)
    requires p in s.reg
  {
    if Has(s.reg[p].ifaces, name) || !Registrable(t, s.enabled) then (PathUnref(s, p), false)
    else
      var s3 := Grown(s, p, name, t, data);
      (s3.(reg := s3.reg[p := s3.reg[p].(introspect := None)]), true)
  }

  /** `g_dbus_register_interface`. */
  function Register(s: State, p: Path, name: string, t: Table, data: map<string, DValue>): (State, bool) {
    RegisterOn(PathRef(s, p), p, name, t, data)
  }

  /** `g_dbus_unregister_interface`. */
  function Unregister(s: State, p: Path, name: string): (State, bool) {
    if p !in s.reg then (s, false)
    else
      var (s1, ok) := RemoveInterface(s, p, name);
      if !ok then (s1, false)
      else (PathUnref(s1.(reg := s1.reg[p := s1.reg[p].(introspect := None)]), p), true)
  }

  /** `g_dbus_attach_object_manager` on a fresh connection. */
  function Attached(enabled: bool): State {
    var s := PathRef(State(map[], [], None, [], enabled), ROOT);
    AddInterface(s, ROOT, NewIface(OBJECT_MANAGER, MANAGER_TABLE, map[])).(root := Some(ROOT))
  }

  // ---- properties ----

  /** `g_dbus_emit_property_changed`. */
  function EmitPropertyChanged(s: State, p: Path, name: string, prop: string): State {
    if p !in s.reg || !Has(s.reg[p].ifaces, name) then s
    else
      var o := s.reg[p];
      var k := Index(o.ifaces, name);
      if s.root.Some? && name in o.added then s
      else
        match FindProperty(o.ifaces[k].table.Props(), prop, s.enabled)
        case None => s
        case Some(q) =>
          if q in o.ifaces[k].pending then s
          else
            var i := o.ifaces[k].(pending := [q] + o.ifaces[k].pending);
            AddPending(s.(reg := s.reg[p := o.(propFlag := true, ifaces := o.ifaces[k := i])]), p)
  }

  /** The user changes the value behind a property; nothing in the library runs. */
  function SetValue(s: State, p: Path, name: string, prop: string, v: Option<DValue>): State {
    if p !in s.reg || !Has(s.reg[p].ifaces, name) then s
    else
      var o := s.reg[p];
      var k := Index(o.ifaces, name);
      var data := o.ifaces[k].data;
      var data' := if v.Some? then data[prop := v.value] else data - {prop};
      s.(reg := s.reg[p := o.(ifaces := o.ifaces[k := o.ifaces[k].(data := data')])])
  }

  // ---- GetManagedObjects and Introspect ----

  ghost function Below(reg: map<Path, Obj>, p: Path): set<Path> {
    set q | q in reg && IsAncestor(p, q)
  }

  /** `append_object` over a list of children, in depth-first order. The test that a child lies
      strictly below its parent always succeeds on the trees this code builds (`WalkVisitsOnce`). */
  function Walk(reg: map<Path, Obj>, p: Path, kids: seq<Path>): seq<Path>
    decreases Below(reg, p), |kids|
  {
    if kids == [] then []
    else
      (if kids[0] in reg && IsAncestor(p, kids[0])
       then [kids[0]] + (BelowShrinks(reg, p, kids[0]); Walk(reg, kids[0], reg[kids[0]].children))
       else [])
      + Walk(reg, p, kids[1..])
  }

  lemma BelowShrinks(reg: map<Path, Obj>, p: Path, c: Path)
    requires c in reg && IsAncestor(p, c)
    ensures Below(reg, c) < Below(reg, p)
  {
    forall q | q in Below(reg, c) ensures q in Below(reg, p) { AncestorTransitive(p, c, q); }
    if c in Below(reg, c) { AncestorShorter(c, c); }
    assert c in Below(reg, p);
  }

  function Snapshot(s: State, paths: seq<Path>): seq<ObjEntry>
    requires forall k :: 0 <= k < |paths| ==> paths[k] in s.reg
  {
    seq(|paths|, k requires 0 <= k < |paths| =>
      var o := s.reg[paths[k]]; ObjEntry(paths[k], PublishedEntries(o.ifaces, o.added, s.enabled)))
  }

  lemma {:induction false} WalkRegistered(reg: map<Path, Obj>, p: Path, kids: seq<Path>)
    ensures forall k :: 0 <= k < |Walk(reg, p, kids)| ==> Walk(reg, p, kids)[k] in reg
    decreases Below(reg, p), |kids|
  {
    if kids != [] {
      if kids[0] in reg && IsAncestor(p, kids[0]) {
        BelowShrinks(reg, p, kids[0]);
        WalkRegistered(reg, kids[0], reg[kids[0]].children);
      }
      WalkRegistered(reg, p, kids[1..]);
    }
  }

  /** The entries for the subtrees of a list of children. */
  function WalkEntries(s: State, p: Path, kids: seq<Path>): seq<ObjEntry> {
    WalkRegistered(s.reg, p, kids);
    Snapshot(s, Walk(s.reg, p, kids))
  }

  lemma SnapshotConcat(s: State, a: seq<Path>, b: seq<Path>)
    requires forall k :: 0 <= k < |a| ==> a[k] in s.reg
    requires forall k :: 0 <= k < |b| ==> b[k] in s.reg
    ensures forall k :: 0 <= k < |a + b| ==> (a + b)[k] in s.reg
    ensures Snapshot(s, a + b) == Snapshot(s, a) + Snapshot(s, b)
  {
  }

  lemma WalkStep(reg: map<Path, Obj>, p: Path, kids: seq<Path>)
    requires kids != [] && kids[0] in reg && IsAncestor(p, kids[0])
    ensures Walk(reg, p, kids) == [kids[0]] + Walk(reg, kids[0], reg[kids[0]].children) + Walk(reg, p, kids[1..])
  {
    BelowShrinks(reg, p, kids[0]);
  }

  /** The reply for a list of children is put together child by child. */
  lemma WalkEntriesStep(s: State, p: Path, kids: seq<Path>)
    requires kids != [] && kids[0] in s.reg && IsAncestor(p, kids[0])
    ensures var o := s.reg[kids[0]];
      WalkEntries(s, p, kids) == [ObjEntry(kids[0], PublishedEntries(o.ifaces, o.added, s.enabled))]
        + WalkEntries(s, kids[0], o.children) + WalkEntries(s, p, kids[1..])
  {
    var c := kids[0];
    var w1, w2 := Walk(s.reg, c, s.reg[c].children), Walk(s.reg, p, kids[1..]);
    WalkRegistered(s.reg, c, s.reg[c].children);
    WalkRegistered(s.reg, p, kids[1..]);
    WalkStep(s.reg, p, kids);
    SnapshotThree(s, c, w1, w2);
  }

  lemma SnapshotThree(s: State, c: Path, w1: seq<Path>, w2: seq<Path>)
    requires c in s.reg
    requires forall k :: 0 <= k < |w1| ==> w1[k] in s.reg
    requires forall k :: 0 <= k < |w2| ==> w2[k] in s.reg
    ensures forall k :: 0 <= k < |[c] + w1 + w2| ==> ([c] + w1 + w2)[k] in s.reg
    ensures Snapshot(s, [c] + w1 + w2) ==
      [ObjEntry(c, PublishedEntries(s.reg[c].ifaces, s.reg[c].added, s.enabled))] + Snapshot(s, w1) + Snapshot(s, w2)
  {
    SnapshotConcat(s, [c], w1);
    SnapshotConcat(s, [c] + w1, w2);
  }

  /** `get_objects` as run by `process_message`: the reply is built first, then the flush overtakes it. */
  function GetObjects(s: State, client: nat): State {
    if ROOT !in s.reg then s
    else
      Send(s, ManagedObjects(client, WalkEntries(s, ROOT, s.reg[ROOT].children)))
  }

  function VisibleMembers(ms: seq<Member>, enabled: bool): seq<string> {
    if ms == [] then []
    else (if Hidden(ms[0].experimental, enabled) then [] else [ms[0].name]) + VisibleMembers(ms[1..], enabled)
  }

  function VisibleProps(ps: seq<Prop>, enabled: bool): seq<Prop> {
    if ps == [] then []
    else (if Hidden(ps[0].experimental, enabled) then [] else [ps[0]]) + VisibleProps(ps[1..], enabled)
  }

  function Docs(ifaces: seq<Iface>, enabled: bool): seq<IfaceDoc> {
    if ifaces == [] then []
    else
      var t := ifaces[0].table;
      [IfaceDoc(ifaces[0].name, VisibleMembers(t.methods, enabled), VisibleMembers(t.signals, enabled),
                VisibleProps(t.Props(), enabled))] + Docs(ifaces[1..], enabled)
  }

  /** The path element right below `a` on the way down to `p`. */
  function Element(a: Path, p: Path): string
    requires IsAncestor(a, p)
    decreases |p|
  {
    var q := ParentPath(p).value;
    if q == a then p[LastSlash(p) + 1..] else Element(a, q)
  }

  /** `dbus_connection_list_registered`: the elements below `a` that lead to a registered path. */
  function ChildNodes(keys: set<Path>, a: Path): set<string> {
    set q | q in keys && IsAncestor(a, q) :: Element(a, q)
  }

  /** What `generic_introspection_xml` would build for `p` now. */
  function CurrentDoc(s: State, p: Path): Doc
    requires p in s.reg
  {
    Doc(Docs(s.reg[p].ifaces, s.enabled), ChildNodes(s.reg.Keys, p))
  }

  /** `introspect`, then the reply is sent. */
  function Introspect(s: State, p: Path): State {
    if p !in s.reg then s
    else
      var o := s.reg[p];
      var text := if o.introspect == None then Some(CurrentDoc(s, p)) else o.introspect;
      Send(s.(reg := s.reg[p := o.(introspect := text)]), Other)
  }
}
