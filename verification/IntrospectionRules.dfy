/** What an introspection text lists, on the fields of interface tables and on the paths themselves. */
module IntrospectionRules {
  import opened Lists
  import opened Paths
  import opened DBusValues
  import opened ObjectModel
  import opened ServerInvariant
  import opened ServerApi
  import opened ObjectRules

  // ---- the introspection text ----

  lemma {:induction false} MembersListed(ms: seq<Member>, enabled: bool, name: string)
    ensures name in VisibleMembers(ms, enabled) <==> exists m :: m in ms && m.name == name && (m.experimental ==> enabled)
  {
    if ms != [] {
      MembersListed(ms[1..], enabled, name);
      assert ms == [ms[0]] + ms[1..];
    }
  }

  lemma {:induction false} PropsListed(ps: seq<Prop>, enabled: bool, m: Prop)
    ensures m in VisibleProps(ps, enabled) <==> m in ps && (m.experimental ==> enabled)
  {
    if ps != [] {
      PropsListed(ps[1..], enabled, m);
      assert ps == [ps[0]] + ps[1..];
    }
  }

  lemma {:induction false} DocAt(ifaces: seq<Iface>, enabled: bool, k: nat)
    requires k < |ifaces|
    ensures |Docs(ifaces, enabled)| == |ifaces|
    ensures var i, d := ifaces[k], Docs(ifaces, enabled)[k];
      && d.name == i.name && d.methods == VisibleMembers(i.table.methods, enabled)
      && d.signals == VisibleMembers(i.table.signals, enabled) && d.props == VisibleProps(i.table.Props(), enabled)
  {
    if k > 0 {
      DocAt(ifaces[1..], enabled, k - 1);
    } else if |ifaces| > 1 {
      DocAt(ifaces[1..], enabled, 0);
    } else {
      assert Docs(ifaces[1..], enabled) == [];
    }
  }

  /** The text lists the interfaces in order, each with its members that are not experimental unless these
      are enabled. */
  lemma DocLists(s: State, p: Path, k: nat)
    requires p in s.reg && k < |s.reg[p].ifaces|
    ensures var t, d := s.reg[p].ifaces[k].table, CurrentDoc(s, p);
      && d.Doc? && |d.ifaces| == |s.reg[p].ifaces| && d.ifaces[k].name == s.reg[p].ifaces[k].name
      && (forall n :: n in d.ifaces[k].methods <==> exists m :: m in t.methods && m.name == n && (m.experimental ==> s.enabled))
      && (forall n :: n in d.ifaces[k].signals <==> exists m :: m in t.signals && m.name == n && (m.experimental ==> s.enabled))
      && (forall m :: m in d.ifaces[k].props <==> m in t.Props() && (m.experimental ==> s.enabled))
  {
    var t := s.reg[p].ifaces[k].table;
    DocAt(s.reg[p].ifaces, s.enabled, k);
    forall n { MembersListed(t.methods, s.enabled, n); }
    forall n { MembersListed(t.signals, s.enabled, n); }
    forall m { PropsListed(t.Props(), s.enabled, m); }
  }

  /** The built-in interfaces around the first one of an object. */
  predicate FirstListed(d: seq<IfaceDoc>, name: string, withProperties: bool) {
    && |d| == (if withProperties then 3 else 2)
    && d[0] == IfaceDoc("org.freedesktop.DBus.Introspectable", ["Introspect"], [], [])
    && d[1].name == name
    && (withProperties ==> d[2] == IfaceDoc("org.freedesktop.DBus.Properties", ["Get", "Set", "GetAll"], ["PropertiesChanged"], []))
  }

  /** The built-in interfaces of an object that is made for its first interface, as its text lists them. */
  lemma BuiltinsListed(s: State, p: Path, name: string, t: Table, data: map<string, DValue>)
    requires Good(s) && MayRegister(s, p, name) && p !in s.reg && Offered(t, s.enabled)
    ensures var s' := ObjectModel.Register(s, p, name, t, data).0;
      p in s'.reg && CurrentDoc(s', p).Doc? && FirstListed(CurrentDoc(s', p).ifaces, name, t.props.Some?)
  {
    FirstIfaces(s, p, name, t, data);
    TextListed(ObjectModel.Register(s, p, name, t, data).0, p, name, t, data);
  }

  const FIRST: seq<Iface> := [NewIface(INTROSPECTABLE, INTROSPECT_TABLE, map[])]

  lemma FirstIfaces(s: State, p: Path, name: string, t: Table, data: map<string, DValue>)
    requires Good(s) && MayRegister(s, p, name) && p !in s.reg && Offered(t, s.enabled)
    ensures var s' := ObjectModel.Register(s, p, name, t, data).0;
      p in s'.reg && s'.reg[p].ifaces == FIRST + Additions(name, t, data)
  {
    OfferedIsRegistrable(t, s.enabled);
    PathRefGood(s, p);
    RefKeeps(s, p, name);
    NewNames(FIRST);
    RegisteredList(PathRef(s, p), p, name, t, data, FIRST);
  }

  lemma TextListed(s: State, p: Path, name: string, t: Table, data: map<string, DValue>)
    requires p in s.reg && s.reg[p].ifaces == FIRST + Additions(name, t, data)
    ensures CurrentDoc(s, p).Doc? && FirstListed(CurrentDoc(s, p).ifaces, name, t.props.Some?)
  {
    NewDocs(FIRST + Additions(name, t, data), name, t.props.Some?, s.enabled);
  }

  /** What a registration on an object without properties puts behind its interfaces. */
  function Additions(name: string, t: Table, data: map<string, DValue>): seq<Iface> {
    [NewIface(name, t, data)] + if t.props.Some? then [NewIface(PROPERTIES, PROPERTIES_TABLE, map[])] else []
  }

  lemma RegisteredList(s: State, p: Path, name: string, t: Table, data: map<string, DValue>, l: seq<Iface>)
    requires p in s.reg && s.reg[p].ifaces == l && !Builtin(name) && !Has(l, PROPERTIES) && !Has(l, name) && Registrable(t, s.enabled)
    ensures var s' := RegisterOn(s, p, name, t, data).0;
      p in s'.reg && s'.reg[p].ifaces == l + Additions(name, t, data) && s'.enabled == s.enabled
  {
    GrownList(s, p, name, t, data, l);
    GrownPuts(s, p, name, t, data);
  }

  lemma GrownList(s: State, p: Path, name: string, t: Table, data: map<string, DValue>, l: seq<Iface>)
    requires p in s.reg && s.reg[p].ifaces == l && !Builtin(name) && !Has(l, PROPERTIES)
    ensures Grown(s, p, name, t, data).reg[p].ifaces == l + Additions(name, t, data)
  {
    var i := NewIface(name, t, data);
    AddInterfaceEffect(s, p, i);
    HasIff(l, PROPERTIES);
    HasIff(l + [i], PROPERTIES);
  }

  lemma BuiltinMembers(enabled: bool)
    ensures VisibleMembers(INTROSPECT_TABLE.methods, enabled) == ["Introspect"]
    ensures VisibleMembers(PROPERTIES_TABLE.methods, enabled) == ["Get", "Set", "GetAll"]
    ensures VisibleMembers(PROPERTIES_TABLE.signals, enabled) == ["PropertiesChanged"]
  {
    var ms := PROPERTIES_TABLE.methods;
    assert ms[1..] == [Member("Set", false), Member("GetAll", false)] && ms[1..][1..] == [Member("GetAll", false)];
    assert VisibleMembers(ms[1..][1..], enabled) == ["GetAll"];
  }

  lemma NewDocs(l: seq<Iface>, name: string, withProperties: bool, enabled: bool)
    requires |l| >= 2 && l[0] == NewIface(INTROSPECTABLE, INTROSPECT_TABLE, map[]) && l[1].name == name
    requires if withProperties then |l| == 3 && l[2] == NewIface(PROPERTIES, PROPERTIES_TABLE, map[]) else |l| == 2
    ensures FirstListed(Docs(l, enabled), name, withProperties)
  {
    BuiltinMembers(enabled);
    DocAt(l, enabled, 0);
    DocAt(l, enabled, 1);
    if |l| == 3 { DocAt(l, enabled, 2); }
  }

  /** The text of the root object once the object manager is attached. */
  lemma ManagerListed(enabled: bool)
    ensures var s := Attached(enabled);
      && s.root == Some(ROOT) && ROOT in s.reg && CurrentDoc(s, ROOT).Doc?
      && CurrentDoc(s, ROOT).ifaces == [
        IfaceDoc("org.freedesktop.DBus.Introspectable", ["Introspect"], [], []),
        IfaceDoc("org.freedesktop.DBus.ObjectManager", ["GetManagedObjects"], ["InterfacesAdded", "InterfacesRemoved"], [])]
  {
    var s := Attached(enabled);
    assert s.reg[ROOT].ifaces == FIRST + [NewIface(OBJECT_MANAGER, MANAGER_TABLE, map[])];
    ManagerDocs(enabled);
  }

  lemma ManagerDocs(enabled: bool)
    ensures Docs(FIRST + [NewIface(OBJECT_MANAGER, MANAGER_TABLE, map[])], enabled) == [
      IfaceDoc("org.freedesktop.DBus.Introspectable", ["Introspect"], [], []),
      IfaceDoc("org.freedesktop.DBus.ObjectManager", ["GetManagedObjects"], ["InterfacesAdded", "InterfacesRemoved"], [])]
  {
    var l := FIRST + [NewIface(OBJECT_MANAGER, MANAGER_TABLE, map[])];
    var gs := MANAGER_TABLE.signals;
    DocAt(l, enabled, 0);
    DocAt(l, enabled, 1);
    BuiltinMembers(enabled);
    assert VisibleMembers(MANAGER_TABLE.methods, enabled) == ["GetManagedObjects"];
    assert gs[1..] == [Member("InterfacesRemoved", false)];
    assert VisibleMembers(gs[1..], enabled) == ["InterfacesRemoved"];
    assert VisibleMembers(gs, enabled) == ["InterfacesAdded"] + ["InterfacesRemoved"];
    var d := Docs(l, enabled);
    assert d[0] == IfaceDoc(INTROSPECTABLE, ["Introspect"], [], []);
    assert d[1] == IfaceDoc(OBJECT_MANAGER, ["GetManagedObjects"], ["InterfacesAdded", "InterfacesRemoved"], []);
    assert d == [d[0], d[1]];
  }

  /** What the D-Bus Specification, section "Valid Object Paths", asks: no empty element. */
  ghost predicate Proper(p: Path) {
    && p != "" && p[0] == '/' && (p != ROOT ==> p[|p| - 1] != '/')
    && forall i :: 0 <= i < |p| - 1 && p[i] == '/' ==> p[i + 1] != '/'
  }

  function Top(a: Path): string { if a == ROOT then "/" else a + "/" }

  /** `e` is the element right below `a` on the way to `p`. */
  ghost predicate Next(a: Path, e: string, p: Path) { '/' !in e && (p == Top(a) + e || Top(a) + e + "/" <= p) }

  lemma {:induction false} ElementIsNext(a: Path, p: Path)
    requires Proper(p) && IsAncestor(a, p)
    ensures Next(a, Element(a, p), p)
    decreases |p|
  {
    var slash, q := LastSlash(p), ParentPath(p).value;
    assert p == p[..slash] + "/" + p[slash + 1..];
    if q == a {
      assert slash == 0 || (q == p[..slash] && q != ROOT);
    } else {
      RootHasNoAncestor(a);
      assert q == p[..slash];
      ProperUp(p);
      ElementIsNext(a, q);
      NextLonger(a, Element(a, q), q, p);
    }
  }

  lemma ProperUp(p: Path)
    requires Proper(p) && ParentPath(p).Some? && ParentPath(p).value != ROOT
    ensures Proper(ParentPath(p).value) && ParentPath(p).value == p[..LastSlash(p)]
  {
  }

  lemma NextLonger(a: Path, e: string, q: Path, p: Path)
    requires Next(a, e, q) && q + "/" <= p
    ensures Next(a, e, p)
  {
    if q == Top(a) + e {
      assert Top(a) + e + "/" <= p;
    } else {
      assert Top(a) + e + "/" <= q <= p;
    }
  }

  lemma At(t: string, e: string, p: Path)
    requires t + e <= p
    ensures |t| + |e| <= |p| && forall j :: 0 <= j < |e| ==> e[j] == p[|t| + j]
  {
    forall j | 0 <= j < |e| ensures e[j] == p[|t| + j] { assert (t + e)[|t| + j] == e[j]; }
  }

  lemma NextOnce(a: Path, e: string, f: string, p: Path)
    requires Next(a, e, p) && Next(a, f, p) && |e| <= |f|
    ensures e == f
  {
    var n := |Top(a)|;
    At(Top(a), e, p);
    At(Top(a), f, p);
    assert Top(a) + e + "/" <= p ==> p[n + |e|] == (Top(a) + e + "/")[n + |e|] == '/';
    forall j | 0 <= j < |f| ensures f[j] != '/' { assert f[j] in f; }
    assert e == f[..|e|];
  }

  lemma NextIsBelow(a: Path, e: string, p: Path)
    requires Proper(p) && a != "" && a != p && Next(a, e, p)
    ensures IsAncestor(a, p)
  {
    AncestorIsPrefix(a, p);
    if a != ROOT { assert Top(a) <= Top(a) + e <= p; }
  }

  /** The text names as child nodes exactly the elements that lead down to a registered path. */
  lemma NodesLead(s: State, a: Path, e: string)
    requires a in s.reg && forall q :: q in s.reg ==> Proper(q)
    ensures e in CurrentDoc(s, a).nodes <==> exists q :: q in s.reg && q != a && Next(a, e, q)
  {
    if e in CurrentDoc(s, a).nodes {
      var q :| q in s.reg && IsAncestor(a, q) && Element(a, q) == e;
      ElementIsNext(a, q);
      AncestorShorter(a, q);
    }
    if q :| q in s.reg && q != a && Next(a, e, q) {
      NextIsBelow(a, e, q);
      ElementIsNext(a, q);
      if |e| <= |Element(a, q)| { NextOnce(a, e, Element(a, q), q); } else { NextOnce(a, Element(a, q), e, q); }
    }
  }
}
