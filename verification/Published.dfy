/** One object and what has been announced about it: the published-set invariant, kept by each of
    the four ways gdbus/object.c touches an object's interface lists. */
module Published {
  import opened Lists
  import opened Paths
  import opened ObjectModel
  import opened Observers

  function NameSet(ifaces: seq<Iface>): (r: set<string>)
    ensures forall n :: n in r <==> Has(ifaces, n)
  {
    var r := set k | 0 <= k < |ifaces| :: ifaces[k].name;
    assert forall n :: Has(ifaces, n) ==> n == ifaces[Index(ifaces, n)].name;
    assert forall k :: 0 <= k < |ifaces| ==> Has(ifaces, ifaces[k].name);
    r
  }

  ghost predicate DistinctNames(ifaces: seq<Iface>) {
    forall i, j :: 0 <= i < j < |ifaces| ==> ifaces[i].name != ifaces[j].name
  }

  lemma IndexOfEach(ifaces: seq<Iface>, k: nat)
    requires DistinctNames(ifaces) && k < |ifaces|
    ensures Index(ifaces, ifaces[k].name) == k && Has(ifaces, ifaces[k].name)
  {
    var i := Index(ifaces, ifaces[k].name);
    assert i <= k;
  }

  /** The lists of one object are consistent, and `told`, what observers have heard about it, is the
      current interfaces minus `added`, plus `removed`. */
  ghost predicate Consistent(o: Obj, told: PathView) {
    && DistinctNames(o.ifaces)
    && NoDup(o.added) && NoDup(o.removed)
    && ToSet(o.added) <= NameSet(o.ifaces)
    && ToSet(o.removed) !! NameSet(o.ifaces)
    && told.Keys == NameSet(o.ifaces) - ToSet(o.added) + ToSet(o.removed)
    && forall k :: 0 <= k < |o.ifaces| && o.ifaces[k].pending != [] ==> o.ifaces[k].name !in o.added
  }

  // ---- the signals of process_changes ----

  lemma {:induction false} EntriesOfEach(ifaces: seq<Iface>, names: seq<string>, enabled: bool)
    requires forall k :: 0 <= k < |names| ==> Has(ifaces, names[k])
    ensures |EntriesOf(ifaces, names, enabled)| == |names|
    ensures forall k :: 0 <= k < |names| ==>
      (Has(ifaces, names[k]) && EntriesOf(ifaces, names, enabled)[k] == EntryOf(ifaces[Index(ifaces, names[k])], enabled))
  {
    if names != [] {
      var r := EntriesOf(ifaces, names[1..], enabled);
      EntriesOfEach(ifaces, names[1..], enabled);
      assert EntriesOf(ifaces, names, enabled) == [EntryOf(ifaces[Index(ifaces, names[0])], enabled)] + r;
      assert forall k :: 1 <= k < |names| ==> names[k] == names[1..][k - 1];
    }
  }

  lemma EntriesOfAll(ifaces: seq<Iface>, names: seq<string>, enabled: bool)
    requires forall n :: n in names ==> Has(ifaces, n)
    ensures |EntriesOf(ifaces, names, enabled)| == |names|
    ensures forall k :: 0 <= k < |names| ==>
      (Has(ifaces, names[k]) && EntriesOf(ifaces, names, enabled)[k] == EntryOf(ifaces[Index(ifaces, names[k])], enabled))
    ensures EntryNames(EntriesOf(ifaces, names, enabled)) == names
  {
    forall k | 0 <= k < |names| ensures Has(ifaces, names[k]) { assert names[k] in names; }
    EntriesOfEach(ifaces, names, enabled);
  }

  /** The PropertiesChanged signals of an object keep the known interfaces and fit whenever they concern known ones. */
  lemma {:induction false} ChangedKeepsKeys(v: PathView, p: Path, ifaces: seq<Iface>)
    requires forall k :: 0 <= k < |ifaces| && ifaces[k].pending != [] ==> ifaces[k].name in v
    ensures HearAll(false, v, p, AllChangedMsgs(p, ifaces)).Keys == v.Keys
    ensures Safe(v, p, AllChangedMsgs(p, ifaces))
    decreases ifaces
  {
    if ifaces != [] {
      var ms := ChangedMsgs(p, ifaces[0]);
      OneChanged(v, p, ifaces[0]);
      var v1 := HearAll(false, v, p, ms);
      ChangedKeepsKeys(v1, p, ifaces[1..]);
      HearAllConcat(false, v, p, ms, AllChangedMsgs(p, ifaces[1..]));
      SafeConcat(v, p, ms, AllChangedMsgs(p, ifaces[1..]));
    }
  }

  lemma OneMessage(skip: bool, v: PathView, p: Path, m: Msg)
    ensures HearAll(skip, v, p, [m]) == Hear(skip, v, p, m)
    ensures Safe(v, p, [m]) <==> Fits(v, p, m)
  {
    assert [m][..0] == [];
    assert HearAll(skip, v, p, []) == v;
  }

  lemma OneChanged(v: PathView, p: Path, i: Iface)
    requires i.pending != [] ==> i.name in v
    ensures HearAll(false, v, p, ChangedMsgs(p, i)).Keys == v.Keys
    ensures Safe(v, p, ChangedMsgs(p, i))
  {
    if i.pending != [] {
      OneMessage(false, v, p, ChangedMsgs(p, i)[0]);
    }
  }

  lemma AddedKeeps(o: Obj, p: Path, told: PathView, enabled: bool)
    requires Consistent(o, told)
    ensures var r := EmitAdded(o, p, false, enabled);
      Consistent(r.0, HearAll(false, told, p, r.1)) && Safe(told, p, r.1) && r.0.added == []
  {
    if o.added != [] {
      var r := EmitAdded(o, p, false, enabled);
      EntriesOfAll(o.ifaces, o.added, enabled);
      OneMessage(false, told, p, r.1[0]);
      HearIfacesKeys(false, told, r.1[0].ifaces);
      assert HearAll(false, told, p, r.1).Keys == told.Keys + ToSet(o.added);
    }
  }

  lemma ChangesKeep(o: Obj, p: Path, told: PathView)
    requires Consistent(o, told) && o.added == []
    ensures var r := EmitChanges(o, p);
      Consistent(r.0, HearAll(false, told, p, r.1)) && Safe(told, p, r.1)
  {
    if o.propFlag && o.ifaces != [] {
      forall k | 0 <= k < |o.ifaces| ensures o.ifaces[k].name in told {
        IndexOfEach(o.ifaces, k);
      }
      ChangedKeepsKeys(told, p, o.ifaces);
      SameNames(o.ifaces, ClearPending(o.ifaces));
    }
  }

  lemma RemovedKeeps(o: Obj, p: Path, told: PathView)
    requires Consistent(o, told)
    ensures var r := EmitRemoved(o, p, false);
      Consistent(r.0, HearAll(false, told, p, r.1)) && Safe(told, p, r.1)
  {
    if o.removed != [] {
      OneMessage(false, told, p, Removed(p, o.removed));
      assert (told - ToSet(o.removed)).Keys == told.Keys - ToSet(o.removed);
    }
  }

  /** `process_changes` announces `added`, then property changes, then withdraws `removed`: every
      signal fits, the invariant is kept, and afterwards what is known is what the object has. */
  lemma ProcessedKeeps(o: Obj, p: Path, told: PathView, enabled: bool)
    requires Consistent(o, told)
    ensures var r := Processed(o, p, false, enabled);
      Consistent(r.0, HearAll(false, told, p, r.1)) && Safe(told, p, r.1)
    ensures var o' := Processed(o, p, false, enabled).0;
      o'.added == [] && o'.removed == [] && !o'.queued && NameSet(o'.ifaces) == NameSet(o.ifaces)
  {
    ProcessedTells(o, p, told, enabled);
    ProcessedObject(o, p, enabled);
  }

  lemma ProcessedObject(o: Obj, p: Path, enabled: bool)
    ensures var o' := Processed(o, p, false, enabled).0;
      o'.added == [] && o'.removed == [] && !o'.queued && NameSet(o'.ifaces) == NameSet(o.ifaces)
  {
    SameNames(o.ifaces, EmitChanges(EmitAdded(o.(queued := false), p, false, enabled).0, p).0.ifaces);
  }

  lemma ProcessedTells(o: Obj, p: Path, told: PathView, enabled: bool)
    requires Consistent(o, told)
    ensures var r := Processed(o, p, false, enabled);
      Consistent(r.0, HearAll(false, told, p, r.1)) && Safe(told, p, r.1)
  {
    var r := EmitAdded(o.(queued := false), p, false, enabled);
    AddedKeeps(o.(queued := false), p, told, enabled);
    ProcessedRest(r.0, p, told, r.1);
  }

  /** What follows the announcements. */
  lemma ProcessedRest(o: Obj, p: Path, told: PathView, ms: seq<Msg>)
    requires Consistent(o, HearAll(false, told, p, ms)) && Safe(told, p, ms) && o.added == []
    ensures var r2 := EmitChanges(o, p);
      var r3 := EmitRemoved(r2.0, p, false);
      var all := ms + r2.1 + r3.1;
      Consistent(r3.0, HearAll(false, told, p, all)) && Safe(told, p, all)
  {
    var v1 := HearAll(false, told, p, ms);
    ChangesKeep(o, p, v1);
    var r2 := EmitChanges(o, p);
    RemovedKeeps(r2.0, p, HearAll(false, v1, p, r2.1));
    ConcatThree(told, p, ms, r2.1, EmitRemoved(r2.0, p, false).1);
  }

  lemma ConcatThree(v: PathView, p: Path, a: seq<Msg>, b: seq<Msg>, c: seq<Msg>)
    ensures var v1 := HearAll(false, v, p, a); var v2 := HearAll(false, v1, p, b);
      && HearAll(false, v, p, a + b + c) == HearAll(false, v2, p, c)
      && (Safe(v, p, a) && Safe(v1, p, b) && Safe(v2, p, c) ==> Safe(v, p, a + b + c))
  {
    HearAllConcat(false, v, p, a + b, c);
    HearAllConcat(false, v, p, a, b);
    SafeConcat(v, p, a + b, c);
    SafeConcat(v, p, a, b);
  }

  lemma SameNames(a: seq<Iface>, b: seq<Iface>)
    requires |a| == |b| && forall k :: 0 <= k < |a| ==> a[k].name == b[k].name
    ensures NameSet(a) == NameSet(b)
    ensures DistinctNames(a) ==> DistinctNames(b)
    ensures forall n :: Index(a, n) == Index(b, n)
  {
    forall n ensures Index(a, n) == Index(b, n) {
      var i, j := Index(a, n), Index(b, n);
      assert i < |a| ==> b[i].name == n;
      assert j < |b| ==> a[j].name == n;
    }
  }

  lemma NameSetAppend(ifaces: seq<Iface>, i: Iface)
    ensures NameSet(ifaces + [i]) == NameSet(ifaces) + {i.name}
  {
    var l := ifaces + [i];
    forall n ensures n in NameSet(l) <==> n in NameSet(ifaces) + {i.name} {
      if n in NameSet(ifaces) { assert l[Index(ifaces, n)].name == n; }
      if n == i.name { assert l[|ifaces|].name == n; }
      if n in NameSet(l) { assert l[Index(l, n)].name == n; }
    }
  }

  lemma NameSetDrop(ifaces: seq<Iface>, k: nat)
    requires DistinctNames(ifaces) && k < |ifaces|
    ensures NameSet(ifaces[..k] + ifaces[k + 1..]) == NameSet(ifaces) - {ifaces[k].name}
    ensures DistinctNames(ifaces[..k] + ifaces[k + 1..])
  {
    var l := ifaces[..k] + ifaces[k + 1..];
    forall n ensures n in NameSet(l) <==> n in NameSet(ifaces) - {ifaces[k].name} {
      if n in NameSet(l) {
        var j := Index(l, n);
        assert l[j] == ifaces[if j < k then j else j + 1];
      }
      if n in NameSet(ifaces) && n != ifaces[k].name {
        var j := Index(ifaces, n);
        assert ifaces[j] == l[if j < k then j else j - 1];
      }
    }
  }

  /** The object part of `add_interface` when the object has a parent. */
  function WithInterface(o: Obj, i: Iface): Obj {
    o.(ifaces := o.ifaces + [i], added := o.added + [i.name])
  }

  lemma AddKeeps(o: Obj, told: PathView, i: Iface)
    requires Consistent(o, told) && i.pending == []
    requires !Has(o.ifaces, i.name) && i.name !in o.removed
    ensures Consistent(WithInterface(o, i), told)
  {
    NameSetAppend(o.ifaces, i);
    assert ToSet(o.added + [i.name]) == ToSet(o.added) + {i.name};
    assert i.name !in o.added by { assert i.name !in NameSet(o.ifaces); assert i.name !in ToSet(o.added); }
  }

  /** Adding back a name whose removal is still queued breaks the invariant: the guard is exact. */
  lemma AddBreaks(o: Obj, told: PathView, i: Iface)
    requires Consistent(o, told) && i.pending == [] && !Has(o.ifaces, i.name)
    ensures Consistent(WithInterface(o, i), told) <==> i.name !in o.removed
  {
    if i.name !in o.removed {
      AddKeeps(o, told, i);
    } else {
      NameSetAppend(o.ifaces, i);
      assert i.name in ToSet(o.removed);
    }
  }

  /** The object part of `remove_interface` when the object has a parent. */
  function WithoutInterface(o: Obj, name: string): Obj
    requires Has(o.ifaces, name)
  {
    var k := Index(o.ifaces, name);
    var o1 := o.(propFlag := false, ifaces := o.ifaces[..k] + o.ifaces[k + 1..]);
    if name in o.added then o1.(added := RemoveFirst(o1.added, name))
    else o1.(removed := [name] + o1.removed)
  }

  lemma RemoveKeeps(o: Obj, p: Path, told: PathView, name: string)
    requires Consistent(o, told) && Has(o.ifaces, name)
    ensures var ms := ChangedMsgs(p, o.ifaces[Index(o.ifaces, name)]);
      Safe(told, p, ms) && Consistent(WithoutInterface(o, name), HearAll(false, told, p, ms))
      && (name in o.added ==> ms == [])
  {
    var k := Index(o.ifaces, name);
    assert name in NameSet(o.ifaces);
    if o.ifaces[k].pending != [] { assert name !in ToSet(o.added); }
    OneChanged(told, p, o.ifaces[k]);
    var told' := HearAll(false, told, p, ChangedMsgs(p, o.ifaces[k]));
    assert Consistent(o, told');
    DropKeeps(o, told', name);
  }

  lemma DropKeeps(o: Obj, told: PathView, name: string)
    requires Consistent(o, told) && Has(o.ifaces, name)
    ensures Consistent(WithoutInterface(o, name), told)
  {
    if name in o.added { DropAddedKeeps(o, told, name); } else { DropPublishedKeeps(o, told, name); }
  }

  lemma DropAddedKeeps(o: Obj, told: PathView, name: string)
    requires Consistent(o, told) && Has(o.ifaces, name) && name in o.added
    ensures Consistent(WithoutInterface(o, name), told)
  {
    var k := Index(o.ifaces, name);
    NameSetDrop(o.ifaces, k);
    DropKeepsPending(o.ifaces, k, o.added);
    RemoveFirstNoDup(o.added, name);
    assert ToSet(RemoveFirst(o.added, name)) == ToSet(o.added) - {name};
  }

  lemma DropPublishedKeeps(o: Obj, told: PathView, name: string)
    requires Consistent(o, told) && Has(o.ifaces, name) && name !in o.added
    ensures Consistent(WithoutInterface(o, name), told)
  {
    var k := Index(o.ifaces, name);
    NameSetDrop(o.ifaces, k);
    DropKeepsPending(o.ifaces, k, o.added);
    ToSetCons(name, o.removed);
  }

  lemma ToSetCons(x: string, s: seq<string>)
    ensures ToSet([x] + s) == ToSet(s) + {x}
  {
  }

  lemma DropKeepsPending(ifaces: seq<Iface>, k: nat, added: seq<string>)
    requires k < |ifaces|
    requires forall j :: 0 <= j < |ifaces| && ifaces[j].pending != [] && j != k ==> ifaces[j].name !in added
    ensures var l := ifaces[..k] + ifaces[k + 1..];
      forall j :: 0 <= j < |l| && l[j].pending != [] ==> l[j].name !in added
  {
    var l := ifaces[..k] + ifaces[k + 1..];
    forall j | 0 <= j < |l| && l[j].pending != [] ensures l[j].name !in added {
      assert l[j] == ifaces[if j < k then j else j + 1];
    }
  }
}
