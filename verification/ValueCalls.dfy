/** The value invariant kept by the calls of the library, and the values clients hold. */
module ValueCalls {
  import opened Lists
  import opened Paths
  import opened DBusValues
  import opened ObjectModel
  import opened ObjectTree
  import opened Observers
  import opened Published
  import opened PropertyValues
  import opened ServerInvariant
  import opened ServerCalls
  import opened ServerApi
  import opened Clients
  import opened ValueInvariant

  // ---- objects that are not concerned ----

  lemma ValuesElsewhere(s: State, s': State, p: Path, open: Unreported, open': Unreported)
    requires Values(s, open) && OthersKept(s, s', p) && GrowsAt(s, s', p)
    requires forall x :: x in open && x.0 != p ==> x in open'
    requires p in s'.reg && p != ROOT ==> ValuesOk(p, s'.reg[p], Told(s'.out, p), open', s'.enabled)
    ensures Values(s', open')
  {
    forall q | q in s'.reg && q != ROOT && q != p ensures ValuesOk(q, s'.reg[q], Told(s'.out, q), open', s'.enabled) {
      assert q in s.reg.Keys - {p};
      GrowsAtTold(s, s', p, q);
      SameValues(q, s.reg[q], s'.reg[q], Told(s.out, q), open, open', s.enabled);
    }
  }

  lemma SameValues(p: Path, o: Obj, o': Obj, told: PathView, open: Unreported, open': Unreported, enabled: bool)
    requires ValuesOk(p, o, told, open, enabled) && SameButLinks(o, o')
    requires forall x :: x in open && x.0 == p ==> x in open'
    ensures ValuesOk(p, o', told, open', enabled)
  {
    forall k | 0 <= k < |o'.ifaces| ensures IfaceOk(p, o', k, told, open', enabled) {
      assert IfaceOk(p, o, k, told, open, enabled);
      MoreOpen(p, o.ifaces[k], Known(told, o.ifaces[k].name), open, open', enabled);
    }
  }

  lemma MoreOpen(p: Path, i: Iface, t: PropTable, open: Unreported, open': Unreported, enabled: bool)
    requires forall x :: x in open && x.0 == p ==> x in open'
    ensures Fresh(p, i, t, open, enabled) ==> Fresh(p, i, t, open', enabled)
  {
    if Fresh(p, i, t, open, enabled) {
      forall q ensures Agrees(i, t, q, enabled) || (Offers(i.table.Props(), q, enabled) && (Waiting(i, q) || (p, i.name, q) in open')) {
        assert Agrees(i, t, q, enabled) || (Offers(i.table.Props(), q, enabled) && (Waiting(i, q) || (p, i.name, q) in open));
      }
    }
  }

  // ---- process_changes and flush ----

  lemma ProcessValues(s: State, p: Path, open: Unreported)
    requires Good(s) && Values(s, open) && p in s.reg
    ensures Values(ProcessChanges(s, p), open)
  {
    var s' := ProcessChanges(s, p);
    ProcessGrows(s, p);
    ProcessChangesLocal(s, p);
    LocalOthers(s, s', p, Processed(s.reg[p], p, Quiet(s, p), s.enabled).1);
    if p != ROOT {
      assert PathOk(s, p);
      ProcessedFresh(p, s.reg[p], Told(s.out, p), open, s.enabled);
      HearAllConcat(false, map[], p, s.out, Processed(s.reg[p], p, false, s.enabled).1);
    }
    ValuesElsewhere(s, s', p, open, open);
  }

  /** The same interfaces with the same tables and user data. */
  ghost predicate SameContents(o: Obj, o': Obj) {
    |o'.ifaces| == |o.ifaces| && forall k :: 0 <= k < |o.ifaces| ==>
      o'.ifaces[k].name == o.ifaces[k].name && o'.ifaces[k].table == o.ifaces[k].table && o'.ifaces[k].data == o.ifaces[k].data
  }

  lemma {:induction false} FlushListValues(s: State, dirty: seq<Path>, open: Unreported)
    requires Good(s) && Values(s, open)
    ensures Values(FlushList(s, dirty), open)
    decreases dirty
  {
    if dirty != [] {
      if dirty[0] in s.reg {
        ProcessValues(s, dirty[0], open);
        ProcessGood(s, dirty[0]);
        FlushListValues(ProcessChanges(s, dirty[0]), dirty[1..], open);
      } else {
        FlushListValues(s, dirty[1..], open);
      }
    }
  }

  lemma {:induction false} FlushListContents(s: State, dirty: seq<Path>)
    ensures var s' := FlushList(s, dirty);
      s'.reg.Keys == s.reg.Keys && s'.enabled == s.enabled && forall p :: p in s.reg ==> SameContents(s.reg[p], s'.reg[p])
    decreases dirty
  {
    if dirty != [] {
      if dirty[0] in s.reg {
        var s1 := ProcessChanges(s, dirty[0]);
        ProcessContents(s, dirty[0]);
        FlushListContents(s1, dirty[1..]);
        forall p | p in s.reg ensures SameContents(s.reg[p], FlushList(s1, dirty[1..]).reg[p]) {
          ContentsTrans(s.reg[p], s1.reg[p], FlushList(s1, dirty[1..]).reg[p]);
        }
      } else {
        FlushListContents(s, dirty[1..]);
      }
    }
  }

  lemma ContentsTrans(a: Obj, b: Obj, c: Obj)
    requires SameContents(a, b) && SameContents(b, c)
    ensures SameContents(a, c)
  {
  }

  lemma ProcessContents(s: State, p: Path)
    requires p in s.reg
    ensures forall q :: q in s.reg ==> SameContents(s.reg[q], ProcessChanges(s, p).reg[q])
    ensures ProcessChanges(s, p).enabled == s.enabled
  {
  }

  lemma AppendValues(s: State, m: Msg, open: Unreported)
    requires Values(s, open) && (m.Other? || m.ManagedObjects? || m.Subscribed?)
    ensures Values(s.(out := s.out + [m]), open)
  {
    forall p | p in s.reg && p != ROOT ensures ValuesOk(p, s.reg[p], Told(s.out + [m], p), open, s.enabled) {
      ToldSilent(s.out, [m], p);
    }
  }

  lemma SendValues(s: State, m: Msg, open: Unreported)
    requires Good(s) && Values(s, open) && (m.Other? || m.ManagedObjects? || m.Subscribed?)
    ensures Values(Send(s, m), open)
  {
    FlushListValues(s, s.pending, open);
    AppendValues(Flush(s), m, open);
  }

  lemma IntrospectValues(s: State, p: Path, open: Unreported)
    requires Good(s) && Values(s, open)
    ensures Values(Introspect(s, p), open)
  {
    if p in s.reg {
      var text := if s.reg[p].introspect == None then Some(CurrentDoc(s, p)) else s.reg[p].introspect;
      var s1 := s.(reg := s.reg[p := s.reg[p].(introspect := text)]);
      CacheKeeps(s, p, text);
      BooksKept(s, s1);
      CacheValues(s, p, text, open);
      SendValues(s1, Other, open);
    }
  }

  lemma CacheValues(s: State, p: Path, text: Option<Doc>, open: Unreported)
    requires Inv(s) && Values(s, open) && p in s.reg
    ensures Values(s.(reg := s.reg[p := s.reg[p].(introspect := text)]), open)
  {
    var s' := s.(reg := s.reg[p := s.reg[p].(introspect := text)]);
    CacheKeeps(s, p, text);
    GrowsAtBy(s, s', p, []);
    if p != ROOT { SameValues(p, s.reg[p], s'.reg[p], Told(s.out, p), open, open, s.enabled); }
    ValuesElsewhere(s, s', p, open, open);
  }

  // ---- registering ----

  lemma AddValues(s: State, p: Path, i: Iface, open: Unreported)
    requires Inv(s) && Values(s, open) && p in s.reg && i.pending == [] && WellFormed(i, s.enabled)
    requires !Has(s.reg[p].ifaces, i.name) && i.name !in s.reg[p].removed
    ensures Values(AddInterface(s, p, i), open)
  {
    var s' := AddInterface(s, p, i);
    AddBalanced(s, p, i);
    AddInterfaceEffect(s, p, i);
    HasParent(s, p);
    GrowsAtBy(s, s', p, []);
    if p != ROOT { AddFresh(p, s.reg[p], Told(s.out, p), i, open, s.enabled); }
    ValuesElsewhere(s, s', p, open, open);
  }

  lemma PathRefValues(s: State, p: Path, open: Unreported)
    requires Good(s) && Values(s, open) && Absolute(p) && (p !in s.reg ==> NoneBelow(s.reg, p))
    ensures Values(PathRef(s, p), open)
  {
    var s1 := PathRef(s, p);
    PathRefGood(s, p);
    GrowsAtBy(s, s1, p, []);
    if p in s.reg {
      if p != ROOT { CountedValues(s, p, open); }
    } else {
      PathRefNew(s, p);
      NewValues(p, s1.reg[p], Told(s1.out, p), open, s.enabled);
    }
    ValuesElsewhere(s, s1, p, open, open);
  }

  lemma NewValues(p: Path, o: Obj, told: PathView, open: Unreported, enabled: bool)
    requires o.ifaces == [NewIface(INTROSPECTABLE, INTROSPECT_TABLE, map[])] && o.added == [INTROSPECTABLE]
    ensures ValuesOk(p, o, told, open, enabled)
  {
    assert o.ifaces[0].name in o.added;
  }

  lemma CountedValues(s: State, p: Path, open: Unreported)
    requires p in s.reg && p != ROOT && Values(s, open)
    ensures ValuesOk(p, PathRef(s, p).reg[p], Told(PathRef(s, p).out, p), open, s.enabled)
  {
    var o := s.reg[p];
    var o' := o.(refcount := o.refcount + 1);
    forall k | 0 <= k < |o'.ifaces| ensures IfaceOk(p, o', k, Told(s.out, p), open, s.enabled) {
      assert IfaceOk(p, o, k, Told(s.out, p), open, s.enabled);
    }
  }

  lemma RegisterValues(s: State, p: Path, name: string, t: Table, data: map<string, DValue>, open: Unreported)
    requires Good(s) && Values(s, open) && MayRegister(s, p, name) && DistinctProps(t.Props())
    ensures Values(Register(s, p, name, t, data).0, open)
  {
    var s' := Register(s, p, name, t, data).0;
    if Register(s, p, name, t, data).1 {
      var s1 := PathRef(s, p);
      PathRefGood(s, p);
      PathRefValues(s, p, open);
      assert !Has(s1.reg[p].ifaces, name);
      GrownGood(s1, p, name, t, data);
      GrownValues(s1, p, name, t, data, open);
      CacheValues(Grown(s1, p, name, t, data), p, None, open);
    } else {
      RegisterFails(s, p, name, t, data);
      if p !in s.reg {
        RegisterGrows(s, p, name, t, data);
        ValuesElsewhere(s, s', p, open, open);
      }
    }
  }

  lemma GrownValues(s: State, p: Path, name: string, t: Table, data: map<string, DValue>, open: Unreported)
    requires Inv(s) && Values(s, open) && p in s.reg && DistinctProps(t.Props())
    requires !Builtin(name) && !Has(s.reg[p].ifaces, name) && name !in s.reg[p].removed
    requires forall n :: n in s.reg[p].removed ==> !Builtin(n)
    ensures Values(Grown(s, p, name, t, data), open)
  {
    var i := NewIface(name, t, data);
    var s2 := AddInterface(s, p, i);
    AddBalanced(s, p, i);
    AddValues(s, p, i, open);
    if t.props.Some? && !Has(s2.reg[p].ifaces, PROPERTIES) {
      AddValues(s2, p, NewIface(PROPERTIES, PROPERTIES_TABLE, map[]), open);
    }
  }

  // ---- unregistering ----

  lemma RemoveValuesAt(s: State, p: Path, name: string, open: Unreported)
    requires Inv(s) && Values(s, open) && p in s.reg && Has(s.reg[p].ifaces, name)
    requires p != ROOT && SiblingsIdle(s.reg[p].ifaces, name)
    ensures var s' := RemoveInterface(s, p, name).0; ValuesOk(p, s'.reg[p], Told(s'.out, p), open, s'.enabled)
  {
    var s' := RemoveInterface(s, p, name).0;
    assert PathOk(s, p);
    HasParent(s, p);
    RemoveInterfaceEffect(s, p, name);
    RemoveFresh(p, s.reg[p], Told(s.out, p), name, s'.reg[p].queued, open, s.enabled);
    HearAllConcat(false, map[], p, s.out, ChangedMsgs(p, s.reg[p].ifaces[Index(s.reg[p].ifaces, name)]));
  }

  lemma UnregisterValues(s: State, p: Path, name: string, open: Unreported)
    requires Good(s) && Values(s, open) && MayUnregister(s, p, name)
    requires p in s.reg && p != ROOT ==> SiblingsIdle(s.reg[p].ifaces, name)
    ensures Values(Unregister(s, p, name).0, open)
  {
    if p in s.reg && Has(s.reg[p].ifaces, name) {
      var s' := Unregister(s, p, name).0;
      UnregisterKeeps(s, p, name);
      UnregisterGrows(s, p, name);
      if p in s'.reg && p != ROOT { SurvivorValues(s, p, name, open); }
      ValuesElsewhere(s, s', p, open, open);
    }
  }

  lemma SurvivorValues(s: State, p: Path, name: string, open: Unreported)
    requires Good(s) && Values(s, open) && p in s.reg && p != ROOT && Has(s.reg[p].ifaces, name)
    requires SiblingsIdle(s.reg[p].ifaces, name) && p in Unregister(s, p, name).0.reg
    ensures var s' := Unregister(s, p, name).0; ValuesOk(p, s'.reg[p], Told(s'.out, p), open, s'.enabled)
  {
    var s1 := RemoveInterface(s, p, name).0;
    RemovesName(s, p, name);
    RemoveValuesAt(s, p, name, open);
    var s2 := s1.(reg := s1.reg[p := s1.reg[p].(introspect := None)]);
    var s' := PathUnref(s2, p);
    assert s' == Unregister(s, p, name).0;
    assert s2.reg[p].refcount > 1;
    LessCounted(p, s1.reg[p], s'.reg[p], Told(s1.out, p), open, s.enabled);
  }

  lemma LessCounted(p: Path, o: Obj, o': Obj, told: PathView, open: Unreported, enabled: bool)
    requires ValuesOk(p, o, told, open, enabled)
    requires o'.ifaces == o.ifaces && o'.added == o.added && o'.propFlag == o.propFlag && o'.queued == o.queued
    ensures ValuesOk(p, o', told, open, enabled)
  {
    forall k | 0 <= k < |o'.ifaces| ensures IfaceOk(p, o', k, told, open, enabled) {
      assert IfaceOk(p, o, k, told, open, enabled);
    }
  }

  // ---- property calls ----

  lemma SetValues(s: State, p: Path, name: string, prop: string, v: Option<DValue>, open: Unreported)
    requires Good(s) && Values(s, open)
    ensures Values(SetValue(s, p, name, prop, v), open + {(p, name, prop)})
  {
    var s' := SetValue(s, p, name, prop, v);
    SetOthers(s, p, name, prop, v);
    GrowsAtBy(s, s', p, []);
    if p in s.reg && p != ROOT { SetValuesAt(s, p, name, prop, v, open); }
    ValuesElsewhere(s, s', p, open, open + {(p, name, prop)});
  }

  lemma SetOthers(s: State, p: Path, name: string, prop: string, v: Option<DValue>)
    ensures var s' := SetValue(s, p, name, prop, v); OthersKept(s, s', p) && s'.out == s.out && s'.reg.Keys == s.reg.Keys
  {
  }

  lemma SetValuesAt(s: State, p: Path, name: string, prop: string, v: Option<DValue>, open: Unreported)
    requires Values(s, open) && p in s.reg && p != ROOT
    ensures var s' := SetValue(s, p, name, prop, v); ValuesOk(p, s'.reg[p], Told(s.out, p), open + {(p, name, prop)}, s.enabled)
  {
    var o, o' := s.reg[p], SetValue(s, p, name, prop, v).reg[p];
    if Has(o.ifaces, name) {
      var k := Index(o.ifaces, name);
      SetFresh(p, o, Told(s.out, p), k, prop, o'.ifaces[k].data, open, s.enabled);
    } else {
      SameValues(p, o, o', Told(s.out, p), open, open + {(p, name, prop)}, s.enabled);
    }
  }

  /** Reporting a change discharges it: the property is queued, or not announced yet, or not offered. */
  lemma EmitValues(s: State, p: Path, name: string, prop: string, open: Unreported)
    requires Good(s) && Values(s, open)
    ensures Values(EmitPropertyChanged(s, p, name, prop), open - {(p, name, prop)})
  {
    var s' := EmitPropertyChanged(s, p, name, prop);
    EmitStep(s, p, name, prop);
    GrowsAtBy(s, s', p, []);
    if s' != s { LocalOthers(s, s', p, []); }
    if p in s.reg && p != ROOT { EmitValuesAt(s, p, name, prop, open); }
    ValuesElsewhere(s, s', p, open, open - {(p, name, prop)});
  }

  lemma EmitValuesAt(s: State, p: Path, name: string, prop: string, open: Unreported)
    requires Good(s) && Values(s, open) && p in s.reg && p != ROOT
    ensures var s' := EmitPropertyChanged(s, p, name, prop);
      ValuesOk(p, s'.reg[p], Told(s'.out, p), open - {(p, name, prop)}, s'.enabled)
  {
    assert PathOk(s, p);
    var o := s.reg[p];
    var k := Index(o.ifaces, name);
    if !Has(o.ifaces, name) || name in o.added {
      Discharged(p, o, Told(s.out, p), name, prop, open, s.enabled);
    } else {
      assert IfaceOk(p, o, k, Told(s.out, p), open, s.enabled);
      FoundOrNotOffered(o.ifaces[k].table.Props(), prop, s.enabled);
      var f := FindProperty(o.ifaces[k].table.Props(), prop, s.enabled);
      if f.None? || f.value in o.ifaces[k].pending {
        Discharged(p, o, Told(s.out, p), name, prop, open, s.enabled);
      } else {
        var s' := EmitPropertyChanged(s, p, name, prop);
        ReportFresh(p, o, s'.reg[p], Told(s.out, p), k, f.value, open, s.enabled);
      }
    }
  }

  lemma {:induction false} FoundOrNotOffered(props: seq<Prop>, q: string, enabled: bool)
    requires DistinctProps(props)
    ensures FindProperty(props, q, enabled).None? ==> !Offers(props, q, enabled)
  {
    if props != [] {
      assert forall k :: 0 <= k < |props[1..]| ==> props[1..][k] == props[k + 1];
      if props[0].name != q {
        FoundOrNotOffered(props[1..], q, enabled);
        if Offers(props, q, enabled) {
          var k :| 0 <= k < |props| && props[k].name == q && props[k].readable && !Hidden(props[k].experimental, enabled);
          assert props[1..][k - 1] == props[k];
        }
      } else {
        assert forall k :: 0 < k < |props| ==> props[k].name != q;
      }
    }
  }

  lemma Discharged(p: Path, o: Obj, told: PathView, name: string, prop: string, open: Unreported, enabled: bool)
    requires ValuesOk(p, o, told, open, enabled) && DistinctNames(o.ifaces)
    requires Has(o.ifaces, name) && name !in o.added ==>
      var i := o.ifaces[Index(o.ifaces, name)]; !Offers(i.table.Props(), prop, enabled) || Waiting(i, prop)
    ensures ValuesOk(p, o, told, open - {(p, name, prop)}, enabled)
  {
    var open' := open - {(p, name, prop)};
    forall k | 0 <= k < |o.ifaces| ensures IfaceOk(p, o, k, told, open', enabled) {
      assert IfaceOk(p, o, k, told, open, enabled);
      IndexOfEach(o.ifaces, k);
      var i := o.ifaces[k];
      if i.name !in o.added {
        var t := Known(told, i.name);
        forall q ensures Agrees(i, t, q, enabled) || (Offers(i.table.Props(), q, enabled) && (Waiting(i, q) || (p, i.name, q) in open')) {
          assert Agrees(i, t, q, enabled) || (Offers(i.table.Props(), q, enabled) && (Waiting(i, q) || (p, i.name, q) in open));
        }
      }
    }
  }

  // ---- the tables clients hold ----

  /** What the client knows of `p` is exactly what everybody was told. */
  ghost predicate ClientExact(out: seq<Msg>, c: nat, p: Path) {
    var cv := Client(out, c, p);
    cv.on ==> forall n :: n in cv.view ==> n in Told(out, p) && cv.view[n] == Told(out, p)[n]
  }

  ghost predicate Exact(out: seq<Msg>) { forall c: nat, p: Path :: p != ROOT ==> ClientExact(out, c, p) }

  ghost predicate Part(v: PathView, t: PathView) { forall n :: n in v ==> n in t && v[n] == t[n] }

  lemma HearPart(v: PathView, t: PathView, p: Path, m: Msg)
    requires Part(v, t) && Fits(t, p, m)
    ensures Part(Hear(true, v, p, m), Hear(false, t, p, m))
  {
    match m
    case Added(q, es) => if q == p { AddedPart(v, t, es); }
    case _ =>
  }

  lemma AddedPart(v: PathView, t: PathView, es: seq<IfaceEntry>)
    requires Part(v, t) && NoDup(EntryNames(es)) && forall n :: n in EntryNames(es) ==> n !in t
    ensures Part(HearIfaces(true, v, es), HearIfaces(false, t, es))
  {
    var v', t' := HearIfaces(true, v, es), HearIfaces(false, t, es);
    HearIfacesKeys(true, v, es);
    HearIfacesKeys(false, t, es);
    forall n | n in v' ensures n in t' && v'[n] == t'[n] {
      if n in EntryNames(es) {
        var k :| 0 <= k < |es| && EntryNames(es)[k] == n;
        assert n !in v;
        HearIfacesAt(true, v, es, k);
        HearIfacesAt(false, t, es, k);
      } else {
        HearIfacesOther(true, v, es, n);
        HearIfacesOther(false, t, es, n);
      }
    }
  }

  lemma {:induction false} HearAllPart(v: PathView, t: PathView, p: Path, ms: seq<Msg>)
    requires Part(v, t) && Safe(t, p, ms)
    ensures Part(HearAll(true, v, p, ms), HearAll(false, t, p, ms))
  {
    if ms != [] {
      var n := |ms| - 1;
      HearAllPart(v, t, p, ms[..n]);
      HearPart(HearAll(true, v, p, ms[..n]), HearAll(false, t, p, ms[..n]), p, ms[n]);
    }
  }

  lemma GrowsKeepsExact(s: State, s': State)
    requires Exact(s.out) && Grows(s, s') && Inv(s')
    ensures Exact(s'.out)
  {
    var ms := s'.out[|s.out|..];
    assert s'.out == s.out + ms;
    forall c: nat, p: Path | p != ROOT ensures ClientExact(s'.out, c, p) {
      assert ClientExact(s.out, c, p) && PathOk(s', p);
      ClientPlain(s.out, ms, c, p);
      HearAllConcat(false, map[], p, s.out, ms);
      SafeConcat(map[], p, s.out, ms);
      if Client(s.out, c, p).on { HearAllPart(Client(s.out, c, p).view, Told(s.out, p), p, ms); }
    }
  }

  lemma SubscribeKeepsExact(out: seq<Msg>, d: nat)
    requires Exact(out)
    ensures Exact(out + [Subscribed(d)])
  {
    forall c: nat, p: Path | p != ROOT ensures ClientExact(out + [Subscribed(d)], c, p) {
      assert ClientExact(out, c, p);
      ClientLast(out, Subscribed(d), c, p);
      ToldSilent(out, [Subscribed(d)], p);
    }
  }

  lemma {:induction false} PublishedMembers(ifaces: seq<Iface>, added: seq<string>, enabled: bool)
    requires DistinctNames(ifaces)
    ensures var es := PublishedEntries(ifaces, added, enabled);
      NoDup(EntryNames(es)) && forall k :: 0 <= k < |es| ==> PublishedFrom(ifaces, enabled, es[k])
  {
    if ifaces != [] {
      var rest := PublishedEntries(ifaces[1..], added, enabled);
      assert forall j :: 0 <= j < |ifaces[1..]| ==> ifaces[1..][j] == ifaces[j + 1];
      PublishedMembers(ifaces[1..], added, enabled);
      forall k | 0 <= k < |rest| ensures PublishedFrom(ifaces, enabled, rest[k]) && rest[k].name != ifaces[0].name {
        FromTail(ifaces, enabled, rest[k]);
      }
      assert PublishedFrom(ifaces, enabled, EntryOf(ifaces[0], enabled));
      NamesCons(EntryOf(ifaces[0], enabled), rest);
      assert [] + rest == rest;
    }
  }

  lemma NamesCons(e: IfaceEntry, es: seq<IfaceEntry>)
    requires NoDup(EntryNames(es)) && forall k :: 0 <= k < |es| ==> es[k].name != e.name
    ensures NoDup(EntryNames([e] + es))
  {
    assert EntryNames([e] + es) == [e.name] + EntryNames(es);
    NoDupConcat([e.name], EntryNames(es));
  }

  lemma FromTail(ifaces: seq<Iface>, enabled: bool, e: IfaceEntry)
    requires ifaces != [] && DistinctNames(ifaces) && PublishedFrom(ifaces[1..], enabled, e)
    ensures PublishedFrom(ifaces, enabled, e) && e.name != ifaces[0].name
  {
    var j :| 0 <= j < |ifaces[1..]| && EntryOf(ifaces[1..][j], enabled) == e;
    assert EntryOf(ifaces[j + 1], enabled) == e;
  }

  ghost predicate PublishedFrom(ifaces: seq<Iface>, enabled: bool, e: IfaceEntry) {
    exists j :: 0 <= j < |ifaces| && EntryOf(ifaces[j], enabled) == e
  }

  /** Every announced interface is told exactly as the getters speak now. */
  ghost predicate AllCurrent(o: Obj, told: PathView, enabled: bool) {
    forall k :: 0 <= k < |o.ifaces| ==> o.ifaces[k].name in told && CurrentAt(o.ifaces[k], told, enabled)
  }

  ghost predicate CurrentAt(i: Iface, told: PathView, enabled: bool) {
    DistinctProps(i.table.Props()) && forall q :: Agrees(i, Known(told, i.name), q, enabled)
  }

  /** With nothing queued and nothing unreported everything is current. */
  lemma SettledCurrent(s: State, p: Path, open: Unreported)
    requires Good(s) && Values(s, open) && p in s.reg && p != ROOT
    requires !s.reg[p].queued && forall x :: x in open ==> x.0 != p
    ensures AllCurrent(s.reg[p], Told(s.out, p), s.enabled) && Told(s.out, p).Keys == NameSet(s.reg[p].ifaces)
  {
    assert PathOk(s, p);
    SettledObject(p, s.reg[p], Told(s.out, p), open, s.enabled);
  }

  lemma SettledObject(p: Path, o: Obj, told: PathView, open: Unreported, enabled: bool)
    requires Consistent(o, told) && ValuesOk(p, o, told, open, enabled) && !HasWork(o)
    requires !o.queued && forall x :: x in open ==> x.0 != p
    ensures AllCurrent(o, told, enabled) && told.Keys == NameSet(o.ifaces)
  {
    FlushedTold(o, told);
    forall k | 0 <= k < |o.ifaces| ensures o.ifaces[k].name in told && CurrentAt(o.ifaces[k], told, enabled) {
      IndexOfEach(o.ifaces, k);
      assert o.ifaces[k].name in NameSet(o.ifaces);
      assert IfaceOk(p, o, k, told, open, enabled);
      assert o.ifaces[k].pending == [];
      forall q ensures Agrees(o.ifaces[k], Known(told, o.ifaces[k].name), q, enabled) {}
    }
  }

  /** Entries built from current data change nothing in a table that is current. */
  lemma RelearnCurrent(i: Iface, t: PropTable, known: PropTable, enabled: bool)
    requires DistinctProps(i.table.Props()) && (forall q :: Agrees(i, t, q, enabled)) && (known == t || known == map[])
    ensures Learn(known, EntryOf(i, enabled).props) == t
  {
    var l := Learn(known, EntryOf(i, enabled).props);
    forall q ensures Look(l, q) == Look(t, q) {
      AnnouncedLook(i, known, q, enabled);
      assert Agrees(i, t, q, enabled);
    }
    SameLooks(l, t);
  }

  lemma SameLooks(a: PropTable, b: PropTable)
    requires forall q :: Look(a, q) == Look(b, q)
    ensures a == b
  {
    forall q ensures q in a <==> q in b { assert Look(a, q) == Look(b, q); }
    forall q | q in a ensures a[q] == b[q] { assert Look(a, q) == Look(b, q); }
  }

  lemma EntriesExact(o: Obj, o1: Obj, v: PathView, told: PathView, enabled: bool)
    requires DistinctNames(o.ifaces) && SameContents(o, o1) && AllCurrent(o1, told, enabled) && Part(v, told)
    ensures Part(HearIfaces(true, v, PublishedEntries(o.ifaces, o.added, enabled)), told)
  {
    var es := PublishedEntries(o.ifaces, o.added, enabled);
    var v' := HearIfaces(true, v, es);
    PublishedMembers(o.ifaces, o.added, enabled);
    HearIfacesKeys(true, v, es);
    forall n | n in v' ensures n in told && v'[n] == told[n] {
      if n in EntryNames(es) {
        var k :| 0 <= k < |es| && EntryNames(es)[k] == n;
        if Builtin(n) {
          HearIfacesBuiltin(v, es, n);
        } else {
          HearIfacesAt(true, v, es, k);
          assert PublishedFrom(o.ifaces, enabled, es[k]);
          var j :| 0 <= j < |o.ifaces| && EntryOf(o.ifaces[j], enabled) == es[k];
          EntryExact(o.ifaces[j], o1.ifaces[j], Known(v, n), told, enabled);
        }
      } else {
        HearIfacesOther(true, v, es, n);
      }
    }
  }

  lemma EntryExact(i: Iface, i1: Iface, known: PropTable, told: PathView, enabled: bool)
    requires i1.name == i.name && i1.table == i.table && i1.data == i.data
    requires i.name in told && CurrentAt(i1, told, enabled) && (known == told[i.name] || known == map[])
    ensures Learn(known, EntryOf(i, enabled).props) == told[i.name]
  {
    forall q ensures Agrees(i1, told[i.name], q, enabled) {
      assert Agrees(i1, Known(told, i1.name), q, enabled);
    }
    RelearnCurrent(i1, told[i.name], known, enabled);
  }

  lemma {:induction false} HearIfacesBuiltin(v: PathView, es: seq<IfaceEntry>, n: string)
    requires Builtin(n)
    ensures n in HearIfaces(true, v, es) <==> n in v
    ensures n in v ==> HearIfaces(true, v, es)[n] == v[n]
    decreases es
  {
    if es != [] { HearIfacesBuiltin(HearIface(true, v, es[0]), es[1..], n); }
  }

  lemma GetObjectsKeepsExact(s: State, d: nat, open: Unreported)
    requires Good(s) && Values(s, open) && open == {} && Exact(s.out)
    ensures Exact(GetObjects(s, d).out)
  {
    FlushListGrows(s, s.pending);
    FlushKeeps(s);
    var s1 := Flush(s);
    GrowsKeepsExact(s, s1);
    var m := ManagedObjects(d, Reply(s));
    assert GetObjects(s, d).out == s1.out + [m];
    forall c: nat, p: Path | p != ROOT ensures ClientExact(s1.out + [m], c, p) { RepliedExact(s, d, c, p); }
  }

  lemma RepliedExact(s: State, d: nat, c: nat, p: Path)
    requires Good(s) && Values(s, {}) && Exact(Flush(s).out) && p != ROOT
    ensures ClientExact(Flush(s).out + [ManagedObjects(d, Reply(s))], c, p)
  {
    var out, m := Flush(s).out, ManagedObjects(d, Reply(s));
    assert ClientExact(out, c, p);
    ClientLast(out, m, c, p);
    ToldSilent(out, [m], p);
    if c == d && Client(out, c, p).on { ReplyExact(s, Client(out, c, p).view, p); }
  }

  lemma ReplyExact(s: State, v: PathView, p: Path)
    requires Good(s) && Values(s, {}) && p != ROOT && Part(v, Told(Flush(s).out, p))
    ensures Part(LearnObjects(v, p, Reply(s)), Told(Flush(s).out, p))
  {
    var s1 := Flush(s);
    var k := ReplyLists(s, p);
    if p in s.reg {
      FlushListGood(s, s.pending);
      FlushKeeps(s);
      FlushListValues(s, s.pending, {});
      FlushListContents(s, s.pending);
      SettledCurrent(s1, p, {});
      LearnOnce(v, p, Reply(s), k);
      assert PathOk(s, p);
      EntriesExact(s.reg[p], s1.reg[p], v, Told(s1.out, p), s.enabled);
    } else {
      LearnAbsent(v, p, Reply(s));
    }
  }
}
