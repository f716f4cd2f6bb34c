/** What the object library promises, on the fields of interface tables: what can be registered, what a
    client gets to see and what is reported. */
module ObjectRules {
  import opened Lists
  import opened Paths
  import opened DBusValues
  import opened ObjectModel
  import opened ObjectTree
  import opened Observers
  import opened Published
  import opened PropertyValues
  import opened ServerInvariant
  import opened ServerCalls
  import opened ServerApi
  import opened Clients
  import opened ValueInvariant
  import opened ValueCalls
  import opened Runs

  // ---- registering ----

  /** What an addition to the interfaces of an object does to the lists. */
  ghost predicate Puts(o: Obj, o': Obj, i: Iface) {
    && i in o'.ifaces && (forall j :: j in o.ifaces ==> j in o'.ifaces)
    && o'.removed == o.removed && NameSet(o'.ifaces) <= NameSet(o.ifaces) + {i.name, PROPERTIES}
  }

  lemma AddPuts(s: State, p: Path, i: Iface)
    requires p in s.reg
    ensures var s' := AddInterface(s, p, i); s'.enabled == s.enabled && Puts(s.reg[p], s'.reg[p], i)
  {
    AddInterfaceEffect(s, p, i);
    NameSetAppend(s.reg[p].ifaces, i);
    assert i in s.reg[p].ifaces + [i];
  }

  lemma GrownPuts(s: State, p: Path, name: string, t: Table, data: map<string, DValue>)
    requires p in s.reg
    ensures var s' := Grown(s, p, name, t, data);
      s'.enabled == s.enabled && Puts(s.reg[p], s'.reg[p], NewIface(name, t, data))
  {
    AddPuts(s, p, NewIface(name, t, data));
    var s2 := AddInterface(s, p, NewIface(name, t, data));
    if t.props.Some? && !Has(s2.reg[p].ifaces, PROPERTIES) { AddPuts(s2, p, NewIface(PROPERTIES, PROPERTIES_TABLE, map[])); }
  }

  lemma RefKeeps(s: State, p: Path, name: string)
    requires Good(s) && MayRegister(s, p, name) && (p in s.reg ==> !Has(s.reg[p].ifaces, name))
    ensures var s1 := PathRef(s, p);
      && s1.enabled == s.enabled && !Has(s1.reg[p].ifaces, name)
      && if p in s.reg then s1.reg[p].ifaces == s.reg[p].ifaces && s1.reg[p].removed == s.reg[p].removed
         else NameSet(s1.reg[p].ifaces) == {INTROSPECTABLE} && s1.reg[p].removed == []
  {
    PathRefGood(s, p);
    if p !in s.reg { NewNames(PathRef(s, p).reg[p].ifaces); }
  }

  /** A registration under its guard puts the interface where the others stay. */
  lemma RegisterPuts(s: State, p: Path, name: string, t: Table, data: map<string, DValue>)
    requires Good(s) && MayRegister(s, p, name) && Registrable(t, s.enabled) && (p in s.reg ==> !Has(s.reg[p].ifaces, name))
    ensures var r := ObjectModel.Register(s, p, name, t, data);
      && r.1 && p in r.0.reg && r.0.enabled == s.enabled && NewIface(name, t, data) in r.0.reg[p].ifaces
      && if p in s.reg then Puts(s.reg[p], r.0.reg[p], NewIface(name, t, data))
         else r.0.reg[p].removed == [] && NameSet(r.0.reg[p].ifaces) <= {INTROSPECTABLE, PROPERTIES, name}
  {
    RefKeeps(s, p, name);
    GrownPuts(PathRef(s, p), p, name, t, data);
  }

  /** An interface with this name is on the path. */
  ghost predicate On(s: State, p: Path, name: string) {
    p in s.reg && exists k :: 0 <= k < |s.reg[p].ifaces| && s.reg[p].ifaces[k].name == name
  }

  /** Some method, signal or property is not experimental, or experimental members are enabled. */
  ghost predicate Offered(t: Table, enabled: bool) {
    || (exists m :: m in t.methods && (m.experimental ==> enabled))
    || (exists m :: m in t.signals && (m.experimental ==> enabled))
    || (t.props.Some? && exists m :: m in t.props.value && (m.experimental ==> enabled))
  }

  lemma OfferedIsRegistrable(t: Table, enabled: bool)
    ensures Registrable(t, enabled) <==> Offered(t, enabled)
  {
    if Registrable(t, enabled) {
      if i :| 0 <= i < |t.methods| && !Hidden(t.methods[i].experimental, enabled) { assert t.methods[i] in t.methods; }
      if i :| 0 <= i < |t.signals| && !Hidden(t.signals[i].experimental, enabled) { assert t.signals[i] in t.signals; }
      if i :| 0 <= i < |t.Props()| && !Hidden(t.Props()[i].experimental, enabled) { assert t.Props()[i] in t.Props(); }
    }
    if m :| m in t.methods && (m.experimental ==> enabled) { var i :| 0 <= i < |t.methods| && t.methods[i] == m; }
    if m :| m in t.signals && (m.experimental ==> enabled) { var i :| 0 <= i < |t.signals| && t.signals[i] == m; }
    if t.props.Some? {
      if m :| m in t.props.value && (m.experimental ==> enabled) { var i :| 0 <= i < |t.Props()| && t.Props()[i] == m; }
    }
  }

  lemma HasIff(ifaces: seq<Iface>, name: string)
    ensures Has(ifaces, name) <==> exists k :: 0 <= k < |ifaces| && ifaces[k].name == name
  {
    if Has(ifaces, name) { assert ifaces[Index(ifaces, name)].name == name; }
  }

  lemma RefNames(s: State, p: Path, name: string)
    requires Good(s) && MayRegister(s, p, name)
    ensures var s1 := PathRef(s, p);
      && s1.enabled == s.enabled && (Has(s1.reg[p].ifaces, name) <==> On(s, p, name))
      && (p in s.reg ==> s.reg[p].ifaces == s1.reg[p].ifaces)
  {
    PathRefGood(s, p);
    if p in s.reg {
      HasIff(s.reg[p].ifaces, name);
    } else {
      NewNames(PathRef(s, p).reg[p].ifaces);
      RefKeeps(s, p, name);
    }
  }

  lemma GrownExtends(s: State, p: Path, name: string, t: Table, data: map<string, DValue>)
    requires p in s.reg
    ensures var s' := Grown(s, p, name, t, data);
      s.reg[p].ifaces <= s'.reg[p].ifaces && Iface(name, t, data, []) in s'.reg[p].ifaces
  {
    var i := NewIface(name, t, data);
    var s2 := AddInterface(s, p, i);
    AddInterfaceEffect(s, p, i);
    assert i in s.reg[p].ifaces + [i];
    if t.props.Some? && !Has(s2.reg[p].ifaces, PROPERTIES) { AddInterfaceEffect(s2, p, NewIface(PROPERTIES, PROPERTIES_TABLE, map[])); }
  }

  /** A registration under its guard succeeds exactly if the name is not on the path and the table offers
      something; then the interface is on the object as it was given, behind the others. */
  lemma RegisterIff(s: State, p: Path, name: string, t: Table, data: map<string, DValue>)
    requires Good(s) && MayRegister(s, p, name)
    ensures ObjectModel.Register(s, p, name, t, data).1 <==> !On(s, p, name) && Offered(t, s.enabled)
    ensures var r := ObjectModel.Register(s, p, name, t, data);
      r.1 ==> p in r.0.reg && Iface(name, t, data, []) in r.0.reg[p].ifaces && (p in s.reg ==> s.reg[p].ifaces <= r.0.reg[p].ifaces)
  {
    OfferedIsRegistrable(t, s.enabled);
    RefNames(s, p, name);
    RegisterOnIs(PathRef(s, p), p, name, t, data);
  }

  lemma RegisterOnIs(s: State, p: Path, name: string, t: Table, data: map<string, DValue>)
    requires p in s.reg
    ensures var r := RegisterOn(s, p, name, t, data);
      && (r.1 <==> !Has(s.reg[p].ifaces, name) && Registrable(t, s.enabled))
      && (r.1 ==> p in r.0.reg && Iface(name, t, data, []) in r.0.reg[p].ifaces && s.reg[p].ifaces <= r.0.reg[p].ifaces)
  {
    GrownExtends(s, p, name, t, data);
  }

  // ---- what clients see ----

  /** The value behind a property; the library asks the getter also if the user has stored none. */
  function Behind(m: Prop, data: map<string, DValue>): DValue { if m.name in data then data[m.name] else Str("") }

  /** The table has exactly the readable properties that are not experimental unless these are enabled, and
      that exist if they are optional, each with the value behind it. */
  ghost predicate Shows(t: PropTable, props: seq<Prop>, data: map<string, DValue>, enabled: bool) {
    && (forall m :: m in props ==>
        (m.name in t <==> m.readable && (m.experimental ==> enabled) && (m.optional ==> m.name in data)))
    && (forall m :: m in props && m.name in t ==> t[m.name] == Behind(m, data))
    && (forall q :: q in t ==> exists m :: m in props && m.name == q)
  }

  lemma LiveShows(i: Iface, t: PropTable, enabled: bool)
    requires LiveTable(i, t, enabled) && DistinctProps(i.table.Props())
    ensures Shows(t, i.table.Props(), i.data, enabled)
  {
    var props := i.table.Props();
    forall m | m in props
      ensures m.name in t <==> m.readable && (m.experimental ==> enabled) && (m.optional ==> m.name in i.data)
      ensures m.name in t ==> t[m.name] == Behind(m, i.data)
    {
      CurrentOfProp(props, i.data, enabled, m);
      assert Look(t, m.name) == Now(i, m.name, enabled);
    }
    forall q | q in t ensures exists m :: m in props && m.name == q {
      assert Look(t, q) == Now(i, q, enabled);
      CurrentNeedsProp(props, i.data, q, enabled);
      var k :| 0 <= k < |props| && props[k].name == q;
      assert props[k] in props;
    }
  }

  /** In every disciplined and careful run with nothing left unreported, the table a synced client holds of
      a live interface shows exactly these properties, whether experimental ones are enabled or not. */
  lemma ClientShows(enabled: bool, acts: seq<Action>, c: nat, p: Path, k: nat)
    requires Disciplined(enabled, acts) && Careful(enabled, acts) && Runs.Open(acts) == {}
    requires p in Run(enabled, acts).reg && p != ROOT && k < |Run(enabled, acts).reg[p].ifaces|
    ensures var s := Run(enabled, acts); var i, cv := s.reg[p].ifaces[k], Client(Flush(s).out, c, p);
      cv.on && cv.synced && !Builtin(i.name) ==> i.name in cv.view && Shows(cv.view[i.name], i.table.Props(), i.data, enabled)
  {
    var s := Run(enabled, acts);
    RunValues(enabled, acts);
    RunEnabled(enabled, acts);
    ValueCoherence(enabled, acts, c, p, k);
    assert IfaceOk(p, s.reg[p], k, Told(s.out, p), {}, s.enabled);
    var i, cv := s.reg[p].ifaces[k], Client(Flush(s).out, c, p);
    if cv.on && cv.synced && !Builtin(i.name) { LiveShows(i, cv.view[i.name], enabled); }
  }

  lemma {:induction false} RunEnabled(enabled: bool, acts: seq<Action>)
    requires Disciplined(enabled, acts)
    ensures Run(enabled, acts).enabled == enabled
  {
    if acts != [] {
      RunEnabled(enabled, acts[..|acts| - 1]);
      RunGood(enabled, acts[..|acts| - 1]);
      StepEnabled(Run(enabled, acts[..|acts| - 1]), acts[|acts| - 1]);
    }
  }

  lemma StepEnabled(s: State, a: Action)
    requires Good(s) && Allowed(s, a)
    ensures Step(s, a).enabled == s.enabled
  {
    match a
    case Register(p, n, t, d) =>
      if ObjectModel.Register(s, p, n, t, d).1 { RegisterSucceeds(s, p, n, t, d); } else { RegisterFails(s, p, n, t, d); }
    case Unregister(p, n) => UnregisterKeeps(s, p, n);
    case Report(p, n, q) => EmitStep(s, p, n, q);
    case Change(p, n, q, v) => SetOthers(s, p, n, q, v);
    case Idle(p) => if p in s.reg { ProcessChangesLocal(s, p); }
    case SendMessage => FlushListContents(s, s.pending);
    case Subscribe(c) =>
    case GetManagedObjects(c) => FlushListContents(s, s.pending);
    case GetIntrospection(p) => IntrospectEnabled(s, p);
  }

  lemma IntrospectEnabled(s: State, p: Path)
    ensures Introspect(s, p).enabled == s.enabled
  {
    if p in s.reg {
      var o := s.reg[p];
      var text := if o.introspect == None then Some(CurrentDoc(s, p)) else o.introspect;
      var s1 := s.(reg := s.reg[p := o.(introspect := text)]);
      FlushListContents(s1, s1.pending);
    }
  }

  /** A synced client knows, of every path below the root, exactly the interfaces that are there, without
      the two that the library adds by itself. */
  lemma ClientNames(enabled: bool, acts: seq<Action>, c: nat, p: Path, name: string)
    requires Disciplined(enabled, acts) && p != "/"
    ensures var s := Run(enabled, acts); var cv := Client(Flush(s).out, c, p);
      cv.on && cv.synced ==> (name in cv.view <==>
        On(s, p, name) && name != "org.freedesktop.DBus.Introspectable" && name != "org.freedesktop.DBus.Properties")
  {
    SetCoherence(enabled, acts, c, p);
    var s := Run(enabled, acts);
    if p in s.reg { HasIff(s.reg[p].ifaces, name); }
  }

  // ---- what is reported ----

  /** The object has announced this interface, or there is no object manager to do so, and the interface
      offers this property. */
  ghost predicate Reportable(o: Obj, k: nat, prop: string, enabled: bool, managed: bool)
    requires k < |o.ifaces|
  {
    (managed ==> o.ifaces[k].name !in o.added) && exists m :: m in o.ifaces[k].table.Props() && m.name == prop && (m.experimental ==> enabled)
  }

  lemma {:induction false} FindIff(props: seq<Prop>, name: string, enabled: bool)
    requires DistinctProps(props)
    ensures FindProperty(props, name, enabled).Some? <==> exists m :: m in props && m.name == name && (m.experimental ==> enabled)
  {
    if props != [] {
      assert forall k :: 0 <= k < |props[1..]| ==> props[1..][k] == props[k + 1];
      FindIff(props[1..], name, enabled);
      assert props[0] in props;
      forall m | m in props && m.name == name && props[0].name == name ensures m == props[0] {
        var k :| 0 <= k < |props| && props[k] == m;
      }
    }
  }

  /** A report leaves its property on the queue of its interface exactly if it was there already, or the
      interface is announced and offers the property; it leaves all other properties as they were. This is
      so in every state, with an object manager or without. */
  lemma ReportQueues(s: State, p: Path, k: nat, prop: string, q: string)
    requires p in s.reg && DistinctNames(s.reg[p].ifaces) && k < |s.reg[p].ifaces| && DistinctProps(s.reg[p].ifaces[k].table.Props())
    ensures var o := s.reg[p];
      var o' := EmitPropertyChanged(s, p, o.ifaces[k].name, prop).reg[p];
      && |o'.ifaces| == |o.ifaces|
      && (Waiting(o'.ifaces[k], q) <==> Waiting(o.ifaces[k], q) || (q == prop && Reportable(o, k, prop, s.enabled, s.root.Some?)))
  {
    IndexOfEach(s.reg[p].ifaces, k);
    FindIff(s.reg[p].ifaces[k].table.Props(), prop, s.enabled);
    ReportOne(s, p, k, prop, q);
  }

  lemma ReportOne(s: State, p: Path, k: nat, prop: string, q: string)
    requires p in s.reg && k < |s.reg[p].ifaces| && Index(s.reg[p].ifaces, s.reg[p].ifaces[k].name) == k
    ensures var o := s.reg[p];
      var o' := EmitPropertyChanged(s, p, o.ifaces[k].name, prop).reg[p];
      && |o'.ifaces| == |o.ifaces|
      && var found := (s.root.Some? ==> o.ifaces[k].name !in o.added) && FindProperty(o.ifaces[k].table.Props(), prop, s.enabled).Some?;
        Waiting(o'.ifaces[k], q) <==> Waiting(o.ifaces[k], q) || (q == prop && found)
  {
    var i := s.reg[p].ifaces[k];
    var m := FindProperty(i.table.Props(), prop, s.enabled);
    if m.Some? {
      WaitingCons(i, m.value, q);
      if m.value in i.pending {
        var j :| 0 <= j < |i.pending| && i.pending[j] == m.value;
        assert i.pending[j].name == prop;
      }
    }
  }

  lemma WaitingCons(i: Iface, m: Prop, q: string)
    ensures Waiting(i.(pending := [m] + i.pending), q) <==> q == m.name || Waiting(i, q)
  {
    var l := [m] + i.pending;
    assert l[0] == m;
    if Waiting(i, q) {
      var k :| 0 <= k < |i.pending| && i.pending[k].name == q;
      assert l[k + 1].name == q;
    }
  }
}
