/** The values observers hold: for every announced interface each property is current, or queued, or
    changed by the user and not yet reported. */
module ValueInvariant {
  import opened Lists
  import opened Paths
  import opened DBusValues
  import opened ObjectModel
  import opened ObjectTree
  import opened Observers
  import opened Published
  import opened PropertyValues
  import opened ServerInvariant
  import opened ServerCalls
  import opened ServerApi
  import opened Clients

  /** Values the user changed and has not reported yet. */
  type Unreported = set<(Path, string, string)>

  ghost predicate Agrees(i: Iface, t: PropTable, q: string, enabled: bool) { Look(t, q) == Now(i, q, enabled) }

  /** One announced interface against what observers were told of it. */
  ghost predicate Fresh(p: Path, i: Iface, t: PropTable, open: Unreported, enabled: bool) {
    forall q :: Agrees(i, t, q, enabled)
      || (Offers(i.table.Props(), q, enabled) && (Waiting(i, q) || (p, i.name, q) in open))
  }

  ghost predicate IfaceOk(p: Path, o: Obj, k: nat, told: PathView, open: Unreported, enabled: bool)
    requires k < |o.ifaces|
  {
    && WellFormed(o.ifaces[k], enabled)
    && (o.ifaces[k].name !in o.added ==> Fresh(p, o.ifaces[k], Known(told, o.ifaces[k].name), open, enabled))
  }

  predicate AnyWaiting(ifaces: seq<Iface>) { exists k :: 0 <= k < |ifaces| && ifaces[k].pending != [] }

  ghost predicate ValuesOk(p: Path, o: Obj, told: PathView, open: Unreported, enabled: bool) {
    && (forall k :: 0 <= k < |o.ifaces| ==> IfaceOk(p, o, k, told, open, enabled))
    && (AnyWaiting(o.ifaces) ==> o.propFlag && o.queued)
  }

  ghost predicate Values(s: State, open: Unreported) {
    forall p :: p in s.reg && p != ROOT ==> ValuesOk(p, s.reg[p], Told(s.out, p), open, s.enabled)
  }

  // ---- the three stages of process_changes ----

  lemma AddedFresh(p: Path, o: Obj, told: PathView, open: Unreported, enabled: bool)
    requires Consistent(o, told) && ValuesOk(p, o, told, open, enabled)
    ensures var r := EmitAdded(o, p, false, enabled);
      forall k :: 0 <= k < |o.ifaces| ==> IfaceOk(p, r.0, k, HearAll(false, told, p, r.1), open, enabled)
  {
    if o.added != [] {
      var r := EmitAdded(o, p, false, enabled);
      EntriesOfAll(o.ifaces, o.added, enabled);
      OneMessage(false, told, p, r.1[0]);
      forall k | 0 <= k < |o.ifaces| ensures IfaceOk(p, r.0, k, HearAll(false, told, p, r.1), open, enabled) {
        assert IfaceOk(p, o, k, told, open, enabled);
        AddedFreshAt(p, o, told, open, enabled, k);
      }
    }
  }

  lemma AddedFreshAt(p: Path, o: Obj, told: PathView, open: Unreported, enabled: bool, k: nat)
    requires Consistent(o, told) && k < |o.ifaces| && IfaceOk(p, o, k, told, open, enabled)
    ensures var es := EntriesOf(o.ifaces, o.added, enabled);
      Fresh(p, o.ifaces[k], Known(HearIfaces(false, told, es), o.ifaces[k].name), open, enabled)
  {
    var es := EntriesOf(o.ifaces, o.added, enabled);
    var i := o.ifaces[k];
    EntriesOfAll(o.ifaces, o.added, enabled);
    IndexOfEach(o.ifaces, k);
    if i.name in o.added {
      var j :| 0 <= j < |o.added| && o.added[j] == i.name;
      HearIfacesAt(false, told, es, j);
      NotYetTold(o, told, i.name);
      forall q ensures Agrees(i, Learn(map[], es[j].props), q, enabled) {
        AnnouncedLook(i, map[], q, enabled);
      }
    } else {
      HearIfacesOther(false, told, es, i.name);
    }
  }

  lemma NotYetTold(o: Obj, told: PathView, name: string)
    requires Consistent(o, told) && name in o.added
    ensures name !in told
  {
    assert name in ToSet(o.added);
    assert name in NameSet(o.ifaces);
  }

  /** After all the PropertiesChanged signals of an object each of its interfaces has heard its own. */
  lemma {:induction false} AllChangedLook(v: PathView, p: Path, ifaces: seq<Iface>, k: nat)
    requires DistinctNames(ifaces) && k < |ifaces| && forall j :: 0 <= j < |ifaces| ==> ifaces[j].name in v
    ensures Known(HearAll(false, v, p, AllChangedMsgs(p, ifaces)), ifaces[k].name) ==
      if ifaces[k].pending == [] then v[ifaces[k].name] else AfterChanged(ifaces[k], v[ifaces[k].name])
    decreases ifaces
  {
    var ms, rest := ChangedMsgs(p, ifaces[0]), AllChangedMsgs(p, ifaces[1..]);
    HearAllConcat(false, v, p, ms, rest);
    var v1 := HearAll(false, v, p, ms);
    OneChangedLook(v, p, ifaces[0]);
    assert forall j :: 0 <= j < |ifaces[1..]| ==> ifaces[1..][j] == ifaces[j + 1];
    if k > 0 {
      AllChangedLook(v1, p, ifaces[1..], k - 1);
    } else {
      ChangedElsewhere(v1, p, ifaces[1..], ifaces[0].name);
    }
  }

  lemma OneChangedLook(v: PathView, p: Path, i: Iface)
    requires i.name in v
    ensures var v' := HearAll(false, v, p, ChangedMsgs(p, i));
      && v'.Keys == v.Keys
      && v'[i.name] == (if i.pending == [] then v[i.name] else AfterChanged(i, v[i.name]))
      && forall n :: n in v && n != i.name ==> v'[n] == v[n]
  {
    if i.pending != [] { OneMessage(false, v, p, ChangedMsgs(p, i)[0]); }
  }

  lemma {:induction false} ChangedElsewhere(v: PathView, p: Path, ifaces: seq<Iface>, name: string)
    requires forall j :: 0 <= j < |ifaces| ==> ifaces[j].name != name && ifaces[j].name in v
    ensures Known(HearAll(false, v, p, AllChangedMsgs(p, ifaces)), name) == Known(v, name)
    decreases ifaces
  {
    if ifaces != [] {
      var ms, rest := ChangedMsgs(p, ifaces[0]), AllChangedMsgs(p, ifaces[1..]);
      HearAllConcat(false, v, p, ms, rest);
      OneChangedLook(v, p, ifaces[0]);
      ChangedElsewhere(HearAll(false, v, p, ms), p, ifaces[1..], name);
    }
  }

  lemma ClearedFresh(p: Path, i: Iface, t: PropTable, open: Unreported, enabled: bool)
    requires WellFormed(i, enabled) && Fresh(p, i, t, open, enabled)
    ensures Fresh(p, i.(pending := []), if i.pending == [] then t else AfterChanged(i, t), open, enabled)
  {
    var i' := i.(pending := []);
    var t' := if i.pending == [] then t else AfterChanged(i, t);
    forall q ensures Agrees(i', t', q, enabled) || (Offers(i.table.Props(), q, enabled) && (p, i.name, q) in open) {
      if i.pending != [] { ChangedLook(i, t, q, enabled); }
      assert Agrees(i, t, q, enabled) || (Offers(i.table.Props(), q, enabled) && (Waiting(i, q) || (p, i.name, q) in open));
    }
  }

  lemma ChangesFresh(p: Path, o: Obj, told: PathView, open: Unreported, enabled: bool)
    requires Consistent(o, told) && o.added == [] && ValuesOk(p, o, told, open, enabled)
    ensures var r := EmitChanges(o, p);
      && ValuesOk(p, r.0, HearAll(false, told, p, r.1), open, enabled) && !AnyWaiting(r.0.ifaces)
  {
    var r := EmitChanges(o, p);
    if o.propFlag && o.ifaces != [] {
      forall j | 0 <= j < |o.ifaces| ensures o.ifaces[j].name in told { IndexOfEach(o.ifaces, j); }
      forall k | 0 <= k < |o.ifaces| ensures IfaceOk(p, r.0, k, HearAll(false, told, p, r.1), open, enabled) {
        assert IfaceOk(p, o, k, told, open, enabled);
        AllChangedLook(told, p, o.ifaces, k);
        ClearedFresh(p, o.ifaces[k], told[o.ifaces[k].name], open, enabled);
      }
    }
  }

  lemma RemovedFresh(p: Path, o: Obj, told: PathView, open: Unreported, enabled: bool)
    requires Consistent(o, told) && ValuesOk(p, o, told, open, enabled)
    ensures var r := EmitRemoved(o, p, false);
      ValuesOk(p, r.0, HearAll(false, told, p, r.1), open, enabled)
  {
    if o.removed != [] {
      var r := EmitRemoved(o, p, false);
      OneMessage(false, told, p, Removed(p, o.removed));
      forall k | 0 <= k < |o.ifaces| ensures IfaceOk(p, r.0, k, HearAll(false, told, p, r.1), open, enabled) {
        assert IfaceOk(p, o, k, told, open, enabled);
        IndexOfEach(o.ifaces, k);
        assert o.ifaces[k].name !in ToSet(o.removed);
      }
    }
  }

  /** `process_changes` leaves nothing queued, and every value is current unless it is unreported. */
  lemma ProcessedFresh(p: Path, o: Obj, told: PathView, open: Unreported, enabled: bool)
    requires Consistent(o, told) && ValuesOk(p, o, told, open, enabled)
    ensures var r := Processed(o, p, false, enabled);
      ValuesOk(p, r.0, HearAll(false, told, p, r.1), open, enabled) && !AnyWaiting(r.0.ifaces)
  {
    var r1 := EmitAdded(o, p, false, enabled);
    AddedKeeps(o, p, told, enabled);
    AddedFresh(p, o, told, open, enabled);
    var v1 := HearAll(false, told, p, r1.1);
    var r2 := EmitChanges(r1.0, p);
    ChangesKeep(r1.0, p, v1);
    ChangesFresh(p, r1.0, v1, open, enabled);
    var v2 := HearAll(false, v1, p, r2.1);
    var r3 := EmitRemoved(r2.0, p, false);
    RemovedFresh(p, r2.0, v2, open, enabled);
    ConcatThree(told, p, r1.1, r2.1, r3.1);
    UnqueuedFirst(o, p, enabled);
    UnqueuedOk(p, r3.0, HearAll(false, v2, p, r3.1), open, enabled);
  }

  /** Taking the object off the dirty list first makes no difference to what is sent. */
  lemma UnqueuedFirst(o: Obj, p: Path, enabled: bool)
    ensures var r1 := EmitAdded(o, p, false, enabled); var r2 := EmitChanges(r1.0, p); var r3 := EmitRemoved(r2.0, p, false);
      Processed(o, p, false, enabled) == (r3.0.(queued := false), r1.1 + r2.1 + r3.1)
  {
  }

  lemma UnqueuedOk(p: Path, o: Obj, told: PathView, open: Unreported, enabled: bool)
    requires ValuesOk(p, o, told, open, enabled) && !AnyWaiting(o.ifaces)
    ensures ValuesOk(p, o.(queued := false), told, open, enabled)
  {
    forall k | 0 <= k < |o.ifaces| ensures IfaceOk(p, o.(queued := false), k, told, open, enabled) {
      assert IfaceOk(p, o, k, told, open, enabled);
    }
  }

  // ---- interfaces come and go ----

  lemma AddFresh(p: Path, o: Obj, told: PathView, i: Iface, open: Unreported, enabled: bool)
    requires ValuesOk(p, o, told, open, enabled) && WellFormed(i, enabled) && i.pending == []
    ensures ValuesOk(p, WithInterface(o, i).(queued := true), told, open, enabled)
  {
    var o' := WithInterface(o, i).(queued := true);
    forall k | 0 <= k < |o'.ifaces| ensures IfaceOk(p, o', k, told, open, enabled) {
      if k < |o.ifaces| {
        assert IfaceOk(p, o, k, told, open, enabled);
        assert o'.ifaces[k] == o.ifaces[k];
      } else {
        assert o'.added[|o.added|] == i.name;
      }
    }
    if AnyWaiting(o'.ifaces) {
      var k :| 0 <= k < |o'.ifaces| && o'.ifaces[k].pending != [];
      assert o.ifaces[k].pending != [];
    }
  }

  /** No sibling of `name` has queued property changes. */
  predicate SiblingsIdle(ifaces: seq<Iface>, name: string) {
    forall k :: 0 <= k < |ifaces| && ifaces[k].name != name ==> ifaces[k].pending == []
  }

  lemma RemoveFresh(p: Path, o: Obj, told: PathView, name: string, queued: bool, open: Unreported, enabled: bool)
    requires Consistent(o, told) && ValuesOk(p, o, told, open, enabled) && Has(o.ifaces, name) && SiblingsIdle(o.ifaces, name)
    ensures var ms := ChangedMsgs(p, o.ifaces[Index(o.ifaces, name)]);
      ValuesOk(p, WithoutInterface(o, name).(queued := queued), HearAll(false, told, p, ms), open, enabled)
  {
    var k0 := Index(o.ifaces, name);
    var o' := WithoutInterface(o, name).(queued := queued);
    var told' := HearAll(false, told, p, ChangedMsgs(p, o.ifaces[k0]));
    forall k | 0 <= k < |o'.ifaces| ensures IfaceOk(p, o', k, told', open, enabled) && o'.ifaces[k].pending == [] {
      var j := if k < k0 then k else k + 1;
      assert o'.ifaces[k] == o.ifaces[j];
      assert IfaceOk(p, o, j, told, open, enabled);
      assert o.ifaces[j].name != name;
      RemoveFirstNoDup(o.added, name);
      KnownElsewhere(told, p, o.ifaces[k0], o.ifaces[j].name);
    }
  }

  lemma KnownElsewhere(told: PathView, p: Path, i: Iface, name: string)
    requires name != i.name
    ensures Known(HearAll(false, told, p, ChangedMsgs(p, i)), name) == Known(told, name)
  {
    if i.pending != [] { OneMessage(false, told, p, ChangedMsgs(p, i)[0]); }
  }

  // ---- property calls ----

  /** A value changes and is noted as unreported. */
  lemma SetFresh(p: Path, o: Obj, told: PathView, k0: nat, q: string, data: map<string, DValue>, open: Unreported, enabled: bool)
    requires ValuesOk(p, o, told, open, enabled) && k0 < |o.ifaces|
    requires forall x :: x != q ==> (x in data <==> x in o.ifaces[k0].data)
    requires forall x :: x != q && x in data ==> data[x] == o.ifaces[k0].data[x]
    ensures ValuesOk(p, o.(ifaces := o.ifaces[k0 := o.ifaces[k0].(data := data)]), told, open + {(p, o.ifaces[k0].name, q)}, enabled)
  {
    var o' := o.(ifaces := o.ifaces[k0 := o.ifaces[k0].(data := data)]);
    var open' := open + {(p, o.ifaces[k0].name, q)};
    forall k | 0 <= k < |o'.ifaces| ensures IfaceOk(p, o', k, told, open', enabled) {
      assert IfaceOk(p, o, k, told, open, enabled);
      var i, i' := o.ifaces[k], o'.ifaces[k];
      if i.name !in o.added {
        var t := Known(told, i.name);
        forall x ensures Agrees(i', t, x, enabled)
          || (Offers(i'.table.Props(), x, enabled) && (Waiting(i', x) || (p, i'.name, x) in open'))
        {
          assert Agrees(i, t, x, enabled)
            || (Offers(i.table.Props(), x, enabled) && (Waiting(i, x) || (p, i.name, x) in open));
          if k == k0 && x == q {
            CurrentNeedsProp(i.table.Props(), i.data, x, enabled);
            CurrentNeedsProp(i.table.Props(), data, x, enabled);
          } else if k == k0 {
            SameCurrent(i.table.Props(), i.data, data, x, enabled);
          }
        }
      }
    }
    if AnyWaiting(o'.ifaces) {
      var k :| 0 <= k < |o'.ifaces| && o'.ifaces[k].pending != [];
      assert o.ifaces[k].pending != [];
    }
  }

  lemma {:induction false} SameCurrent(props: seq<Prop>, a: map<string, DValue>, b: map<string, DValue>, q: string, enabled: bool)
    requires (q in a <==> q in b) && (q in a ==> a[q] == b[q])
    ensures Current(props, a, q, enabled) == Current(props, b, q, enabled)
  {
    if props != [] { SameCurrent(props[1..], a, b, q, enabled); }
  }

  /** The user reports a property of an announced interface: it waits in the queue instead. */
  lemma ReportFresh(p: Path, o: Obj, o': Obj, told: PathView, k0: nat, pr: Prop, open: Unreported, enabled: bool)
    requires ValuesOk(p, o, told, open, enabled) && k0 < |o.ifaces| && DistinctNames(o.ifaces)
    requires pr in o.ifaces[k0].table.Props() && !Hidden(pr.experimental, enabled)
    requires o' == o.(propFlag := true, queued := true, ifaces := o.ifaces[k0 := o.ifaces[k0].(pending := [pr] + o.ifaces[k0].pending)])
    ensures ValuesOk(p, o', told, open - {(p, o.ifaces[k0].name, pr.name)}, enabled)
  {
    var open' := open - {(p, o.ifaces[k0].name, pr.name)};
    forall k | 0 <= k < |o'.ifaces| ensures IfaceOk(p, o', k, told, open', enabled) {
      assert IfaceOk(p, o, k, told, open, enabled);
      var i, i' := o.ifaces[k], o'.ifaces[k];
      if k == k0 { assert WellFormed(i', enabled); }
      if i.name !in o.added {
        var t := Known(told, i.name);
        forall x ensures Agrees(i', t, x, enabled)
          || (Offers(i'.table.Props(), x, enabled) && (Waiting(i', x) || (p, i'.name, x) in open'))
        {
          assert Agrees(i, t, x, enabled)
            || (Offers(i.table.Props(), x, enabled) && (Waiting(i, x) || (p, i.name, x) in open));
          if k == k0 { WaitingLonger(i, i', pr, x); }
        }
      }
    }
  }

  lemma WaitingLonger(i: Iface, i': Iface, pr: Prop, q: string)
    requires i'.pending == [pr] + i.pending
    ensures Waiting(i', q) <==> q == pr.name || Waiting(i, q)
  {
    if Waiting(i, q) {
      var k :| 0 <= k < |i.pending| && i.pending[k].name == q;
      assert i'.pending[k + 1].name == q;
    }
    assert i'.pending[0].name == pr.name;
  }
}
