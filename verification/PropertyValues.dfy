/** Property values of one object: what observers were last told about each property against what
    the getters would say now. */
module PropertyValues {
  import opened Lists
  import opened Paths
  import opened DBusValues
  import opened ObjectModel
  import opened Observers
  import opened Published

  function Look(t: PropTable, q: string): Option<DValue> { if q in t then Some(t[q]) else None }

  /** What an observer should hold for property `q`: its value if it is visible, readable and exists. */
  function Current(props: seq<Prop>, data: map<string, DValue>, q: string, enabled: bool): Option<DValue> {
    if props == [] then None
    else if props[0].name == q then
      if !Hidden(props[0].experimental, enabled) && props[0].readable && Exists(props[0], data)
      then Some(Get(props[0], data)) else None
    else Current(props[1..], data, q, enabled)
  }

  ghost predicate DistinctProps(props: seq<Prop>) {
    forall i, j :: 0 <= i < j < |props| ==> props[i].name != props[j].name
  }

  /** The table has a visible, readable property called `q`. */
  ghost predicate Offers(props: seq<Prop>, q: string, enabled: bool) {
    exists k :: 0 <= k < |props| && props[k].name == q && props[k].readable && !Hidden(props[k].experimental, enabled)
  }

  ghost predicate WellFormed(i: Iface, enabled: bool) {
    && DistinctProps(i.table.Props())
    && forall k :: 0 <= k < |i.pending| ==>
      i.pending[k] in i.table.Props() && !Hidden(i.pending[k].experimental, enabled)
  }

  function Now(i: Iface, q: string, enabled: bool): Option<DValue> { Current(i.table.Props(), i.data, q, enabled) }

  // ---- learning lists of entries ----

  lemma {:induction false} LearnAbsentKey(t: PropTable, es: seq<Entry>, q: string)
    requires forall k :: 0 <= k < |es| ==> es[k].key != q
    ensures Look(Learn(t, es), q) == Look(t, q)
    decreases es
  {
    if es != [] {
      assert es[0].key != q;
      LearnAbsentKey(t[es[0].key := es[0].value], es[1..], q);
    }
  }

  lemma {:induction false} LearnKey(t: PropTable, es: seq<Entry>, q: string, v: DValue)
    requires Entry(q, v) in es && forall k :: 0 <= k < |es| && es[k].key == q ==> es[k].value == v
    ensures Look(Learn(t, es), q) == Some(v)
    decreases es
  {
    var t1 := t[es[0].key := es[0].value];
    if Entry(q, v) in es[1..] {
      LearnKey(t1, es[1..], q, v);
    } else {
      assert es[0] == Entry(q, v);
      forall k | 0 <= k < |es[1..]| ensures es[1..][k].key != q {
        assert es[1..][k] == es[k + 1];
        assert es[1..][k] in es[1..];
      }
      LearnAbsentKey(t1, es[1..], q);
    }
  }

  // ---- the dictionaries a message carries ----

  /** The entry of an offered property of the table. */
  predicate ShownBy(p: Prop, data: map<string, DValue>, e: Entry) {
    p.readable && Exists(p, data) && e == Entry(p.name, Get(p, data))
  }

  lemma {:induction false} PropEntriesMembers(props: seq<Prop>, data: map<string, DValue>, enabled: bool, e: Entry)
    ensures e in PropEntries(props, data, enabled) <==>
      exists k :: 0 <= k < |props| && !Hidden(props[k].experimental, enabled) && ShownBy(props[k], data, e)
  {
    if props != [] {
      PropEntriesMembers(props[1..], data, enabled, e);
      assert forall k :: 0 <= k < |props[1..]| ==> props[1..][k] == props[k + 1];
      if k :| 0 <= k < |props| && !Hidden(props[k].experimental, enabled) && ShownBy(props[k], data, e) {
        if k > 0 { assert props[1..][k - 1] == props[k]; }
      }
    }
  }

  lemma {:induction false} ChangedMembers(queue: seq<Prop>, data: map<string, DValue>, e: Entry)
    ensures e in ChangedEntries(queue, data) <==> exists k :: 0 <= k < |queue| && ShownBy(queue[k], data, e)
  {
    if queue != [] {
      ChangedMembers(queue[1..], data, e);
      assert forall k :: 0 <= k < |queue[1..]| ==> queue[1..][k] == queue[k + 1];
      if k :| 0 <= k < |queue| && ShownBy(queue[k], data, e) {
        if k > 0 { assert queue[1..][k - 1] == queue[k]; }
      }
    }
  }

  predicate GoneBy(p: Prop, data: map<string, DValue>, q: string) {
    p.readable && !Exists(p, data) && p.name == q
  }

  lemma {:induction false} InvalidatedMembers(queue: seq<Prop>, data: map<string, DValue>, q: string)
    ensures q in Invalidated(queue, data) <==> exists k :: 0 <= k < |queue| && GoneBy(queue[k], data, q)
  {
    if queue != [] {
      InvalidatedMembers(queue[1..], data, q);
      assert forall k :: 0 <= k < |queue[1..]| ==> queue[1..][k] == queue[k + 1];
      if k :| 0 <= k < |queue| && GoneBy(queue[k], data, q) {
        if k > 0 { assert queue[1..][k - 1] == queue[k]; }
      }
    }
  }

  /** A property of the table decides what is current under its name. */
  lemma {:induction false} CurrentOfProp(props: seq<Prop>, data: map<string, DValue>, enabled: bool, p: Prop)
    requires DistinctProps(props) && p in props
    ensures Current(props, data, p.name, enabled) ==
      if !Hidden(p.experimental, enabled) && p.readable && Exists(p, data) then Some(Get(p, data)) else None
  {
    if props[0].name != p.name {
      assert forall k :: 0 <= k < |props[1..]| ==> props[1..][k] == props[k + 1];
      CurrentOfProp(props[1..], data, enabled, p);
    } else {
      assert forall k :: 0 < k < |props| ==> props[k].name != props[0].name;
    }
  }

  lemma {:induction false} CurrentNeedsProp(props: seq<Prop>, data: map<string, DValue>, q: string, enabled: bool)
    ensures Current(props, data, q, enabled).Some? ==> Offers(props, q, enabled)
    ensures Current(props, data, q, enabled).Some? ==>
      exists k :: 0 <= k < |props| && props[k].name == q && Exists(props[k], data)
  {
    if props != [] {
      assert props[0] == props[0];
      if props[0].name != q {
        CurrentNeedsProp(props[1..], data, q, enabled);
        assert forall k :: 0 <= k < |props[1..]| ==> props[1..][k] == props[k + 1];
      }
    }
  }

  /** What an announcement teaches about each property is its current value. */
  lemma AnnouncedLook(i: Iface, t: PropTable, q: string, enabled: bool)
    requires DistinctProps(i.table.Props())
    ensures Look(Learn(t, EntryOf(i, enabled).props), q) ==
      if Now(i, q, enabled).Some? then Now(i, q, enabled) else Look(t, q)
  {
    var props, es := i.table.Props(), EntryOf(i, enabled).props;
    forall k | 0 <= k < |es| && es[k].key == q ensures Now(i, q, enabled) == Some(es[k].value) {
      PropEntriesMembers(props, i.data, enabled, es[k]);
      var j :| 0 <= j < |props| && !Hidden(props[j].experimental, enabled) && ShownBy(props[j], i.data, es[k]);
      CurrentOfProp(props, i.data, enabled, props[j]);
    }
    if Now(i, q, enabled).Some? {
      var v := Now(i, q, enabled).value;
      CurrentEntry(props, i.data, q, enabled);
      LearnKey(t, es, q, v);
    } else {
      LearnAbsentKey(t, es, q);
    }
  }

  lemma {:induction false} CurrentEntry(props: seq<Prop>, data: map<string, DValue>, q: string, enabled: bool)
    requires Current(props, data, q, enabled).Some?
    ensures Entry(q, Current(props, data, q, enabled).value) in PropEntries(props, data, enabled)
  {
    if props[0].name != q { CurrentEntry(props[1..], data, q, enabled); }
  }

  // ---- the queue of one interface ----

  ghost predicate Waiting(i: Iface, q: string) {
    exists k :: 0 <= k < |i.pending| && i.pending[k].name == q
  }

  function AfterChanged(i: Iface, t: PropTable): PropTable {
    var queue := Reverse(i.pending);
    Learn(t, ChangedEntries(queue, i.data)) - ToSet(Invalidated(queue, i.data))
  }

  /** One PropertiesChanged signal brings every queued readable property up to date and touches no other. */
  lemma ChangedLook(i: Iface, t: PropTable, q: string, enabled: bool)
    requires WellFormed(i, enabled)
    ensures Look(AfterChanged(i, t), q) ==
      if Waiting(i, q) && Offers(i.table.Props(), q, enabled) then Now(i, q, enabled) else Look(t, q)
  {
    var queue := Reverse(i.pending);
    var es, gone := ChangedEntries(queue, i.data), Invalidated(queue, i.data);
    ReverseMembers(i.pending);
    forall p | p in queue ensures p in i.table.Props() && !Hidden(p.experimental, enabled) {
      assert p in i.pending;
    }
    InvalidatedMembers(queue, i.data, q);
    forall k | 0 <= k < |es| && es[k].key == q ensures Now(i, q, enabled) == Some(es[k].value) && Waiting(i, q) {
      ChangedMembers(queue, i.data, es[k]);
      var j :| 0 <= j < |queue| && ShownBy(queue[j], i.data, es[k]);
      CurrentOfProp(i.table.Props(), i.data, enabled, queue[j]);
      assert queue[j] in i.pending;
    }
    if Waiting(i, q) && Offers(i.table.Props(), q, enabled) {
      QueuedLook(i, t, q, enabled);
    } else {
      NotOfferedLook(i, t, q, enabled);
    }
  }

  lemma QueuedLook(i: Iface, t: PropTable, q: string, enabled: bool)
    requires WellFormed(i, enabled) && Waiting(i, q) && Offers(i.table.Props(), q, enabled)
    ensures Look(AfterChanged(i, t), q) == Now(i, q, enabled)
  {
    var queue, props := Reverse(i.pending), i.table.Props();
    var es, gone := ChangedEntries(queue, i.data), Invalidated(queue, i.data);
    ReverseMembers(i.pending);
    var k :| 0 <= k < |i.pending| && i.pending[k].name == q;
    var p := i.pending[k];
    assert p in i.pending && p in queue;
    var j :| 0 <= j < |queue| && queue[j] == p;
    OneProp(props, p, q, enabled);
    CurrentOfProp(props, i.data, enabled, p);
    InvalidatedMembers(queue, i.data, q);
    if Exists(p, i.data) {
      var v := Get(p, i.data);
      ChangedMembers(queue, i.data, Entry(q, v));
      assert ShownBy(queue[j], i.data, Entry(q, v));
      forall m | 0 <= m < |es| && es[m].key == q ensures es[m].value == v { QueuedEntry(i, q, es[m], p, enabled); }
      LearnKey(t, es, q, v);
      if q in gone {
        var m :| 0 <= m < |queue| && GoneBy(queue[m], i.data, q);
        assert queue[m] in i.pending;
        SameProp(props, queue[m], p);
        assert false;
      }
    } else {
      assert GoneBy(queue[j], i.data, q);
    }
  }

  lemma QueuedEntry(i: Iface, q: string, e: Entry, p: Prop, enabled: bool)
    requires WellFormed(i, enabled) && p in i.table.Props() && p.name == q
    requires e in ChangedEntries(Reverse(i.pending), i.data) && e.key == q
    ensures e.value == Get(p, i.data)
  {
    var queue := Reverse(i.pending);
    ReverseMembers(i.pending);
    ChangedMembers(queue, i.data, e);
    var m :| 0 <= m < |queue| && ShownBy(queue[m], i.data, e);
    assert queue[m] in i.pending;
    SameProp(i.table.Props(), queue[m], p);
  }

  lemma SameProp(props: seq<Prop>, a: Prop, b: Prop)
    requires DistinctProps(props) && a in props && b in props && a.name == b.name
    ensures a == b
  {
  }

  lemma OneProp(props: seq<Prop>, p: Prop, q: string, enabled: bool)
    requires DistinctProps(props) && p in props && p.name == q && Offers(props, q, enabled)
    ensures p.readable && !Hidden(p.experimental, enabled)
  {
    var k :| 0 <= k < |props| && props[k].name == q && props[k].readable && !Hidden(props[k].experimental, enabled);
    SameProp(props, props[k], p);
  }

  lemma NotOfferedLook(i: Iface, t: PropTable, q: string, enabled: bool)
    requires WellFormed(i, enabled) && !(Waiting(i, q) && Offers(i.table.Props(), q, enabled))
    ensures Look(AfterChanged(i, t), q) == Look(t, q)
  {
    var queue, props := Reverse(i.pending), i.table.Props();
    var es, gone := ChangedEntries(queue, i.data), Invalidated(queue, i.data);
    ReverseMembers(i.pending);
    forall p | p in queue && p.readable ensures p.name != q {
      assert p in i.pending && p in props;
    }
    forall k | 0 <= k < |es| ensures es[k].key != q {
      ChangedMembers(queue, i.data, es[k]);
    }
    LearnAbsentKey(t, es, q);
    InvalidatedMembers(queue, i.data, q);
  }
}
