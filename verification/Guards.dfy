/** The guards of disciplined runs are exact: what happens at the one step where each is not met. */
module Guards {
  import opened Lists
  import opened Paths
  import opened DBusValues
  import opened ObjectModel
  import opened ObjectTree
  import opened Observers
  import opened Published
  import opened PropertyValues
  import opened ServerInvariant
  import opened ValueInvariant

  lemma {:induction false} ChangesTeachNoNames(v: PathView, p: Path, ms: seq<Msg>)
    requires forall k :: 0 <= k < |ms| ==> ms[k].Changed?
    ensures HearAll(false, v, p, ms).Keys == v.Keys
  {
    if ms != [] { ChangesTeachNoNames(v, p, ms[..|ms| - 1]); }
  }

  /** What observers know after `process_changes`, whatever the lists hold: announcements go out
      before withdrawals, so a name in both lists ends up withdrawn. */
  lemma ToldAfterProcessing(o: Obj, p: Path, told: PathView, enabled: bool)
    requires forall n :: n in o.added ==> Has(o.ifaces, n)
    ensures HearAll(false, told, p, Processed(o, p, false, enabled).1).Keys == told.Keys + ToSet(o.added) - ToSet(o.removed)
  {
    var r1 := EmitAdded(o.(queued := false), p, false, enabled);
    var r2 := EmitChanges(r1.0, p);
    var r3 := EmitRemoved(r2.0, p, false);
    AddedTeaches(o.(queued := false), p, told, enabled);
    var v1 := HearAll(false, told, p, r1.1);
    ChangesTeach(r1.0, p, v1);
    RemovedTeaches(r2.0, p, HearAll(false, v1, p, r2.1));
    ConcatThree(told, p, r1.1, r2.1, r3.1);
  }

  lemma AddedTeaches(o: Obj, p: Path, told: PathView, enabled: bool)
    requires forall n :: n in o.added ==> Has(o.ifaces, n)
    ensures var r := EmitAdded(o, p, false, enabled);
      HearAll(false, told, p, r.1).Keys == told.Keys + ToSet(o.added) && r.0.removed == o.removed
  {
    EntriesOfAll(o.ifaces, o.added, enabled);
    if o.added != [] {
      OneMessage(false, told, p, EmitAdded(o, p, false, enabled).1[0]);
      HearIfacesKeys(false, told, EntriesOf(o.ifaces, o.added, enabled));
    }
  }

  lemma ChangesTeach(o: Obj, p: Path, told: PathView)
    ensures var r := EmitChanges(o, p); HearAll(false, told, p, r.1).Keys == told.Keys && r.0.removed == o.removed
  {
    AllChangedAbout(p, o.ifaces);
    ChangesTeachNoNames(told, p, EmitChanges(o, p).1);
  }

  lemma RemovedTeaches(o: Obj, p: Path, told: PathView)
    ensures HearAll(false, told, p, EmitRemoved(o, p, false).1).Keys == told.Keys - ToSet(o.removed)
  {
    if o.removed != [] { OneMessage(false, told, p, Removed(p, o.removed)); }
  }

  /** Re-registering a name on a surviving path: after the next `process_changes` observers know the
      object's interfaces exactly when the name was not waiting to be withdrawn; otherwise the live
      interface is missing for good. */
  lemma ReAddIff(o: Obj, p: Path, told: PathView, i: Iface, enabled: bool)
    requires Consistent(o, told) && !Has(o.ifaces, i.name) && i.pending == []
    ensures var r := Processed(WithInterface(o, i), p, false, enabled);
      && (HearAll(false, told, p, r.1).Keys == NameSet(WithInterface(o, i).ifaces) <==> i.name !in o.removed)
      && (i.name in o.removed ==> i.name !in HearAll(false, told, p, r.1))
  {
    var o' := WithInterface(o, i);
    NameSetAppend(o.ifaces, i);
    forall n | n in o'.added ensures Has(o'.ifaces, n) {
      if n != i.name { assert n in ToSet(o.added); }
      assert n in NameSet(o'.ifaces);
    }
    ToldAfterProcessing(o', p, told, enabled);
    ReAddSets(told.Keys, NameSet(o.ifaces), ToSet(o.added), ToSet(o.removed), i.name);
    assert ToSet(o'.added) == ToSet(o.added) + {i.name};
  }

  lemma ReAddSets(told: set<string>, names: set<string>, added: set<string>, removed: set<string>, n: string)
    requires added <= names && removed !! names && told == names - added + removed
    ensures told + (added + {n}) - removed == names + {n} <==> n !in removed
  {
    if n in removed {
      assert n in names + {n} && n !in told + (added + {n}) - removed;
    } else {
      assert told + (added + {n}) - removed == names + {n};
    }
  }

  /** Removing an interface clears the object-wide flag: the next `process_changes` reports all queued
      property changes of the object exactly when no sibling had any queued. */
  lemma SiblingChangesLostIff(o: Obj, p: Path, name: string, quiet: bool, enabled: bool)
    requires DistinctNames(o.ifaces) && Has(o.ifaces, name)
    ensures AnyWaiting(Processed(WithoutInterface(o, name), p, quiet, enabled).0.ifaces) <==> !SiblingsIdle(o.ifaces, name)
  {
    FlagDown(WithoutInterface(o, name), p, quiet, enabled);
    WaitingSiblings(o.ifaces, name);
  }

  lemma FlagDown(o: Obj, p: Path, quiet: bool, enabled: bool)
    requires !o.propFlag
    ensures Processed(o, p, quiet, enabled).0.ifaces == o.ifaces
  {
  }

  lemma WaitingSiblings(ifaces: seq<Iface>, name: string)
    requires DistinctNames(ifaces) && Has(ifaces, name)
    ensures var k := Index(ifaces, name); AnyWaiting(ifaces[..k] + ifaces[k + 1..]) <==> !SiblingsIdle(ifaces, name)
  {
    var k0 := Index(ifaces, name);
    forall j | 0 <= j < |ifaces| ensures ifaces[j].name == name <==> j == k0 {}
    Without(ifaces, k0);
  }

  lemma Without(ifaces: seq<Iface>, k0: nat)
    requires k0 < |ifaces|
    ensures AnyWaiting(ifaces[..k0] + ifaces[k0 + 1..]) <==> exists j :: 0 <= j < |ifaces| && j != k0 && ifaces[j].pending != []
  {
    var l := ifaces[..k0] + ifaces[k0 + 1..];
    if AnyWaiting(l) {
      var k :| 0 <= k < |l| && l[k].pending != [];
      assert l[k] == ifaces[if k < k0 then k else k + 1];
    }
    if j :| 0 <= j < |ifaces| && j != k0 && ifaces[j].pending != [] {
      assert l[if j < k0 then j else j - 1] == ifaces[j];
    }
  }

  /** The report of a property puts something on the queue of its interface. */
  predicate Queues(o: Obj, name: string, prop: string, enabled: bool) {
    && Has(o.ifaces, name) && name !in o.added
    && var i := o.ifaces[Index(o.ifaces, name)];
      var q := FindProperty(i.table.Props(), prop, enabled);
      q.Some? && q.value !in i.pending
  }

  /** A change that was left behind goes out with the next report of the object that queues anything, and
      with no other: in particular not when the same property is reported once more. */
  lemma LeftBehindGoesOutIff(s: State, p: Path, name: string, prop: string, quiet: bool)
    requires p in s.reg && s.root.Some? && !s.reg[p].propFlag && AnyWaiting(s.reg[p].ifaces)
    ensures var o' := EmitPropertyChanged(s, p, name, prop).reg[p];
      !AnyWaiting(Processed(o', p, quiet, s.enabled).0.ifaces) <==> Queues(s.reg[p], name, prop, s.enabled)
  {
    var o, o' := s.reg[p], EmitPropertyChanged(s, p, name, prop).reg[p];
    if Queues(o, name, prop, s.enabled) {
      FlagUp(o', p, quiet, s.enabled);
    } else {
      assert o' == o;
      FlagDown(o, p, quiet, s.enabled);
    }
  }

  lemma FlagUp(o: Obj, p: Path, quiet: bool, enabled: bool)
    requires o.propFlag && o.ifaces != []
    ensures !AnyWaiting(Processed(o, p, quiet, enabled).0.ifaces)
  {
  }
}
