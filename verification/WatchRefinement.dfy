/** The registry as a map from ids to watches: fresh ids, and removal of exactly what was meant. */
module WatchRefinement {
  import opened Lists
  import opened WatchModel
  import opened WatchInvariant

  /** One watch as its user sees it. */
  datatype Entry = Entry(id: nat, rule: Rule, handler: Handler, func: Func)

  function EntryOf(x: Listener, c: Callback): Entry { Entry(c.id, BusRule(x.rule), x.handler, c.func) }

  function Entries(x: Listener): set<Entry> { set c | c in All(x) :: EntryOf(x, c) }

  function EntriesOf(l: seq<nat>, at: map<nat, Listener>): set<Entry> {
    if l == [] then {}
    else EntriesOf(l[1..], at) + if l[0] in at then Entries(at[l[0]]) else {}
  }

  function Registry(s: State): set<Entry> { EntriesOf(s.order, s.at) }

  lemma {:induction false} WhereIn(l: seq<nat>, at: map<nat, Listener>, e: Entry) returns (d: nat, c: Callback)
    requires e in EntriesOf(l, at)
    ensures d in at && c in All(at[d]) && EntryOf(at[d], c) == e
  {
    if l[0] in at && e in Entries(at[l[0]]) {
      d := l[0];
      c :| c in All(at[d]) && EntryOf(at[d], c) == e;
    } else {
      d, c := WhereIn(l[1..], at, e);
    }
  }

  lemma {:induction false} ListedIn(l: seq<nat>, at: map<nat, Listener>, d: nat, c: Callback)
    requires d in l && d in at && c in All(at[d])
    ensures EntryOf(at[d], c) in EntriesOf(l, at)
  {
    if l[0] == d {
      assert EntryOf(at[d], c) in Entries(at[d]);
    } else {
      ListedIn(l[1..], at, d, c);
    }
  }

  lemma Where(s: State, e: Entry) returns (d: nat, c: Callback)
    requires e in Registry(s)
    ensures d in s.at && c in All(s.at[d]) && EntryOf(s.at[d], c) == e
  {
    d, c := WhereIn(s.order, s.at, e);
  }

  lemma Listed(s: State, d: nat, c: Callback)
    requires Shape(s) && d in s.at && c in All(s.at[d])
    ensures EntryOf(s.at[d], c) in Registry(s)
  {
    ListedIn(s.order, s.at, d, c);
  }

  lemma SameCallback(l: seq<Callback>, c: Callback, e: Callback)
    requires Distinct(l) && c in l && e in l && c.id == e.id
    ensures c == e
  {
    var i :| 0 <= i < |l| && l[i] == c;
    var j :| 0 <= j < |l| && l[j] == e;
  }

  lemma IdsInRange(s: State, doomed: set<nat>, e: Entry)
    requires AllOk(s.at, s.counter, doomed) && e in Registry(s)
    ensures 1 <= e.id <= s.counter
  {
    var d, c := Where(s, e);
    assert ListenerOk(s.at[d], s.counter, d in doomed);
  }

  /** Ids determine the watch. */
  lemma IdsAreKeys(s: State, doomed: set<nat>, e: Entry, f: Entry)
    requires AllOk(s.at, s.counter, doomed) && AllApart(s.at) && e in Registry(s) && f in Registry(s) && e.id == f.id
    ensures e == f
  {
    var d, c := Where(s, e);
    var g, h := Where(s, f);
    assert d != g ==> Apart(s.at[d], s.at[g]);
    if d == g {
      assert ListenerOk(s.at[d], s.counter, d in doomed);
      SameCallback(All(s.at[d]), c, h);
    }
  }

  // ---- adding ----

  lemma JoinedRegistry(s: State, t: State, d: nat, c: Callback, rule: Rule, handler: Handler)
    requires Shape(s) && Shape(t) && Joined(s.at, t.at, d, c, rule, handler) && (d in s.at ==> s.at[d].rule == rule && s.at[d].handler == handler)
    ensures Registry(t) == Registry(s) + {Entry(c.id, BusRule(rule), handler, c.func)}
  {
    var added := Entry(c.id, BusRule(rule), handler, c.func);
    assert c in All(t.at[d]) by { if d in s.at { PutMembers(s.at[d], c); } }
    assert EntryOf(t.at[d], c) == added;
    Listed(t, d, c);
    forall e | e in Registry(t) ensures e in Registry(s) + {added} {
      var f, g := Where(t, e);
      if f == d && d in s.at { PutMembers(s.at[d], c); }
      if f in s.at && g in All(s.at[f]) { Listed(s, f, g); }
    }
    forall e | e in Registry(s) ensures e in Registry(t) {
      var f, g := Where(s, e);
      if f == d { PutMembers(s.at[d], c); }
      Listed(t, f, g);
    }
  }

  lemma NameOnRegistry(s: State, d: nat, id: nat)
    requires Shape(s) && d in s.at
    ensures Registry(NameOn(s, d, id)) == Registry(s)
  {
    var t := NameOn(s, d, id);
    assert forall e :: e in t.at <==> e in s.at;
    assert forall e :: e in t.at ==> All(t.at[e]) == All(s.at[e]) && t.at[e].rule == s.at[e].rule && t.at[e].handler == s.at[e].handler;
    forall x ensures x in Registry(t) <==> x in Registry(s) {
      if x in Registry(t) {
        var e, c := Where(t, x);
        Listed(s, e, c);
      }
      if x in Registry(s) {
        var e, c := Where(s, x);
        Listed(t, e, c);
      }
    }
  }

  lemma SlotFits(s: State, rule: Rule, handler: Handler, doomed: set<nat>)
    requires Inv(s, doomed) && Fits(rule, handler)
    ensures Slot(s, rule) in s.at && s.counter + 1 < U32 ==> s.at[Slot(s, rule)].rule == rule && s.at[Slot(s, rule)].handler == handler
  {
    FindMatchIn(s, s.order, rule);
    var d := Slot(s, rule);
    if d in s.at { assert ListenerOk(s.at[d], s.counter, d in doomed); }
  }

  lemma AddPlainRegistry(s: State, rule: Rule, handler: Handler, func: Func, doomed: set<nat>)
    requires Inv(s, doomed) && s.counter + 1 < U32 && Fits(rule, handler)
    ensures Registry(AddPlain(s, rule, handler, func)) == Registry(s) + {Entry(NextId(s), BusRule(rule), handler, func)}
  {
    AddPlainNew(s, rule, handler, func, doomed);
    SlotFits(s, rule, handler, doomed);
    AddPlainInv(s, rule, handler, func, doomed);
    JoinedRegistry(s, AddPlain(s, rule, handler, func), Slot(s, rule), Callback(NextId(s), func), rule, handler);
  }

  function NameEntryOf(x: Listener, id: nat): set<Entry> {
    if x.rule.name.Some? && x.nameWatch == 0 then
      {Entry(id, ServiceRule(x.rule.conn, x.rule.name.value), ServiceFilter, SILENT)}
    else {}
  }

  /** The internal watch that comes with the first watch of a well-known name's listener. */
  function NameEntry(s: State, q: Request): set<Entry> {
    var rule := RuleOf(q);
    if rule.name.Some? && (Slot(s, rule) in s.at ==> s.at[Slot(s, rule)].nameWatch == 0) then
      {Entry(s.counter + 2, ServiceRule(rule.conn, rule.name.value), ServiceFilter, SILENT)}
    else {}
  }

  lemma FreshIds(s: State, doomed: set<nat>)
    requires AllOk(s.at, s.counter, doomed)
    ensures forall e :: e in Registry(s) ==> 1 <= e.id <= s.counter
  {
    forall e | e in Registry(s) ensures 1 <= e.id <= s.counter { IdsInRange(s, doomed, e); }
  }

  /** Adding extends the registry by one watch under a fresh non-zero id, and perhaps its internal name watch. */
  lemma AddRefines(s: State, q: Request, doomed: set<nat>)
    requires Inv(s, doomed) && s.counter + 2 < U32
    ensures Registry(Add(s, q))
      == Registry(s) + {Entry(NextId(s), BusRule(RuleOf(q)), HandlerOf(q), FuncOf(q))} + NameEntry(s, q)
  {
    RequestFits(q);
    AddSteps(s, q, RuleOf(q), HandlerOf(q), FuncOf(q), doomed);
  }

  /** The id handed out by an addition, and the one of its name watch, are not zero and not in use. */
  lemma FreshId(s: State, doomed: set<nat>)
    requires Inv(s, doomed) && s.counter + 2 < U32
    ensures NextId(s) != 0 && forall e :: e in Registry(s) ==> e.id != NextId(s) && e.id != NextId(s) + 1
  {
    FreshIds(s, doomed);
  }

  lemma AddSteps(s: State, q: Request, rule: Rule, handler: Handler, func: Func, doomed: set<nat>)
    requires Inv(s, doomed) && s.counter + 2 < U32 && Fits(rule, handler) && rule == RuleOf(q)
    ensures Registry(WatchName(AddPlain(s, rule, handler, func), Slot(s, rule)))
      == Registry(s) + {Entry(NextId(s), BusRule(rule), handler, func)} + NameEntry(s, q)
  {
    AddPlainInv(s, rule, handler, func, doomed);
    AddPlainRegistry(s, rule, handler, func, doomed);
    SlotAfter(s, rule, handler, func, doomed);
    NameStep(s, AddPlain(s, rule, handler, func), Slot(s, rule), q, doomed);
  }

  lemma NameStep(s: State, t: State, d: nat, q: Request, doomed: set<nat>)
    requires Inv(t, doomed) && t.counter == s.counter + 1 && s.counter + 2 < U32 && d in t.at && d == Slot(s, RuleOf(q))
    requires t.at[d].rule == RuleOf(q) && t.at[d].nameWatch == if d in s.at then s.at[d].nameWatch else 0
    ensures Registry(WatchName(t, d)) == Registry(t) + NameEntry(s, q)
  {
    WatchNameRegistry(t, d, doomed);
    NameEntrySame(s, t.at[d], q);
  }

  lemma NameEntrySame(s: State, x: Listener, q: Request)
    requires x.rule == RuleOf(q) && x.nameWatch == if Slot(s, RuleOf(q)) in s.at then s.at[Slot(s, RuleOf(q))].nameWatch else 0
    ensures NameEntryOf(x, s.counter + 2) == NameEntry(s, q)
  {
  }

  lemma SlotAfter(s: State, rule: Rule, handler: Handler, func: Func, doomed: set<nat>)
    requires Inv(s, doomed) && s.counter + 1 < U32 && Fits(rule, handler)
    ensures var t, d := AddPlain(s, rule, handler, func), Slot(s, rule);
      t.counter == s.counter + 1 && t.at[d].rule == rule && t.at[d].nameWatch == if d in s.at then s.at[d].nameWatch else 0
  {
    AddPlainNew(s, rule, handler, func, doomed);
    AddPlainInv(s, rule, handler, func, doomed);
  }

  lemma WatchNameRegistry(t: State, d: nat, doomed: set<nat>)
    requires Inv(t, doomed) && t.counter + 1 < U32 && d in t.at
    ensures Registry(WatchName(t, d)) == Registry(t) + NameEntryOf(t.at[d], t.counter + 1)
  {
    var x := t.at[d];
    if x.rule.name.Some? && x.nameWatch == 0 {
      WatchNameIs(t, d, doomed);
      NameRegistered(t, d, ServiceRule(x.rule.conn, x.rule.name.value), doomed);
    }
  }

  lemma NameRegistered(t: State, d: nat, rule: Rule, doomed: set<nat>)
    requires Inv(t, doomed) && t.counter + 1 < U32 && d in AddPlain(t, rule, ServiceFilter, SILENT).at && Fits(rule, ServiceFilter)
    ensures Registry(NameOn(AddPlain(t, rule, ServiceFilter, SILENT), d, NextId(t)))
      == Registry(t) + {Entry(t.counter + 1, BusRule(rule), ServiceFilter, SILENT)}
  {
    AddPlainRegistry(t, rule, ServiceFilter, SILENT, doomed);
    AddPlainInv(t, rule, ServiceFilter, SILENT, doomed);
    NameOnRegistry(AddPlain(t, rule, ServiceFilter, SILENT), d, NextId(t));
  }

  lemma WatchNameIs(t: State, d: nat, doomed: set<nat>)
    requires AllOk(t.at, t.counter, doomed) && t.counter + 1 < U32 && d in t.at && t.at[d].rule.name.Some? && t.at[d].nameWatch == 0
    ensures var u := AddPlain(t, ServiceRule(t.at[d].rule.conn, t.at[d].rule.name.value), ServiceFilter, SILENT);
      d in u.at && WatchName(t, d) == NameOn(u, d, NextId(t))
  {
    AddPlainNew(t, ServiceRule(t.at[d].rule.conn, t.at[d].rule.name.value), ServiceFilter, SILENT, doomed);
  }

  // ---- removing ----

  function Less(r: set<Entry>, a: nat, b: nat): set<Entry> { set e | e in r && e.id != a && e.id != b }

  lemma RemovedRegistry(s: State, d: nat, id: nat, doomed: set<nat>)
    requires Inv(s, doomed) && d in s.at && HasId(All(s.at[d]), id)
    ensures Registry(Rewritten(s, d, WithoutId(s.at[d], id), s.counter)) == Less(Registry(s), id, 0)
  {
    var x, y := s.at[d], WithoutId(s.at[d], id);
    assert ListenerOk(x, s.counter, true) by { assert ListenerOk(x, s.counter, d in doomed); }
    WithoutIdOk(x, id, s.counter);
    var k :| 0 <= k < |All(x)| && All(x)[k].id == id;
    RewrittenLess(s, Rewritten(s, d, y, s.counter), d, All(x)[k], doomed);
  }

  lemma RewrittenLess(s: State, t: State, d: nat, gone: Callback, doomed: set<nat>)
    requires Shape(s) && Shape(t) && AllOk(s.at, s.counter, doomed) && AllApart(s.at) && d in s.at && gone in All(s.at[d])
    requires d in t.at && t.at == s.at[d := t.at[d]] && SameTarget(s.at[d], t.at[d])
    requires forall c :: c in All(t.at[d]) <==> c in All(s.at[d]) && c.id != gone.id
    ensures Registry(t) == Less(Registry(s), gone.id, 0)
  {
    Listed(s, d, gone);
    forall e ensures e in Registry(t) <==> e in Less(Registry(s), gone.id, 0) {
      if e in Registry(t) {
        var f, c := Where(t, e);
        Listed(s, f, c);
        IdsInRange(s, doomed, e);
        if f != d { assert Apart(s.at[f], s.at[d]); }
      }
      if e in Less(Registry(s), gone.id, 0) {
        var f, c := Where(s, e);
        Listed(t, f, c);
      }
    }
  }

  lemma UnlistRegistry(s: State, d: nat)
    requires Shape(s) && d in s.at && Shape(Unlist(s, d)) && All(s.at[d]) == []
    ensures Registry(Unlist(s, d)) == Registry(s)
  {
    var t := Unlist(s, d);
    forall e ensures e in Registry(t) <==> e in Registry(s) {
      if e in Registry(t) {
        var f, c := Where(t, e);
        Listed(s, f, c);
      }
      if e in Registry(s) {
        var f, c := Where(s, e);
        Listed(t, f, c);
      }
    }
  }

  /** The listener that would lose its last callback. */
  predicate Empties(s: State, d: nat, id: nat)
    requires d in s.at
  {
    var y := WithoutId(s.at[d], id);
    y.callbacks == [] && !y.lock
  }

  /** The internal name watch that goes with a removal, or zero. */
  function Cascade(s: State, id: nat): nat {
    match Holder(s, s.order, id)
    case None => 0
    case Some(d) => if d in s.at && Empties(s, d, id) then s.at[d].nameWatch else 0
  }

  lemma AbsentId(s: State, id: nat)
    requires Shape(s) && Holder(s, s.order, id).None?
    ensures forall e :: e in Registry(s) ==> e.id != id
  {
    HolderIn(s, s.order, id);
    forall e | e in Registry(s) ensures e.id != id {
      var d, c := Where(s, e);
      var k :| 0 <= k < |All(s.at[d])| && All(s.at[d])[k] == c;
      assert d in s.order && !HasId(All(s.at[d]), id);
    }
  }

  /** An internal name watch has no further cascade. */
  lemma CascadeEnds(s: State, d: nat, u: State, doomed: set<nat>)
    requires Inv(s, doomed) && d in s.at && s.at[d].nameWatch != 0
    requires forall e :: e in u.at ==> e in s.at && u.at[e] == s.at[e]
    ensures Cascade(u, s.at[d].nameWatch) == 0
  {
    var nw := s.at[d].nameWatch;
    HolderIn(u, u.order, nw);
    if Holder(u, u.order, nw).Some? {
      var e := Holder(u, u.order, nw).value;
      var k :| 0 <= k < |All(u.at[e])| && All(u.at[e])[k].id == nw;
      assert NameOk(s.at[d], s.at[e]) && All(s.at[e])[k] in All(s.at[e]);
      assert ListenerOk(s.at[e], s.counter, e in doomed);
    }
  }

  /** An unknown id changes nothing. */
  lemma UnknownId(s: State, id: nat)
    requires Shape(s) && forall e :: e in Registry(s) ==> e.id != id
    ensures RemoveWatch(s, id) == s
  {
    HolderIn(s, s.order, id);
    match Holder(s, s.order, id)
    case None =>
    case Some(d) =>
      var k :| 0 <= k < |All(s.at[d])| && All(s.at[d])[k].id == id;
      Listed(s, d, All(s.at[d])[k]);
  }

  /** Removal deletes exactly the watch with this id and, if it leaves a listener empty, that
      listener's internal name watch. */
  lemma {:induction false} RemoveRefines(s: State, id: nat, doomed: set<nat>)
    requires Inv(s, doomed) && id != 0
    ensures Registry(RemoveWatch(s, id)) == Less(Registry(s), id, Cascade(s, id))
    decreases |s.order|, 1
  {
    HolderIn(s, s.order, id);
    match Holder(s, s.order, id)
    case None =>
      AbsentId(s, id);
      FreshIds(s, doomed);
    case Some(d) =>
      RemoveSteps(s, d, id);
      if Empties(s, d, id) {
        RemoveRefinesEmptied(s, d, id, doomed);
      } else {
        RemovedRegistry(s, d, id, doomed);
      }
  }

  lemma {:induction false} RemoveRefinesEmptied(s: State, d: nat, id: nat, doomed: set<nat>)
    requires Inv(s, doomed) && d in s.at && HasId(All(s.at[d]), id) && Empties(s, d, id)
    ensures var u := Unlist(Rewritten(s, d, WithoutId(s.at[d], id), s.counter), d);
      Registry(RemoveWatch(u, s.at[d].nameWatch)) == Less(Registry(s), id, s.at[d].nameWatch)
    decreases |s.order|, 0
  {
    var u, nw := Unlist(Rewritten(s, d, WithoutId(s.at[d], id), s.counter), d), s.at[d].nameWatch;
    RemovedRegistry(s, d, id, doomed);
    RemoveEmptied(s, d, id, doomed);
    if nw != 0 {
      RemoveFirstShorter(s.order, d);
      CascadeEnds(s, d, u, doomed);
      RemoveRefines(u, nw, doomed);
      FreshIds(s, doomed);
      LessTwice(Registry(s), id, nw);
    }
  }

  lemma LessTwice(r: set<Entry>, a: nat, b: nat)
    requires forall e :: e in r ==> e.id != 0
    ensures Less(Less(r, a, 0), b, 0) == Less(r, a, b)
  {
  }

  lemma RemoveSteps(s: State, d: nat, id: nat)
    requires Shape(s) && d in s.at && id != 0 && Holder(s, s.order, id) == Some(d)
    ensures var t := Rewritten(s, d, WithoutId(s.at[d], id), s.counter);
      RemoveWatch(s, id) == if Empties(s, d, id) then RemoveWatch(Unlist(t, d), s.at[d].nameWatch) else t
  {
    assert s.(at := s.at[d := WithoutId(s.at[d], id)]) == Rewritten(s, d, WithoutId(s.at[d], id), s.counter);
  }

  lemma RemoveEmptied(s: State, d: nat, id: nat, doomed: set<nat>)
    requires Inv(s, doomed) && d in s.at && Empties(s, d, id)
    ensures var t := Rewritten(s, d, WithoutId(s.at[d], id), s.counter);
      Inv(Unlist(t, d), doomed) && Registry(Unlist(t, d)) == Registry(t)
  {
    EmptiedNone(s, d, id, doomed);
    RemovedInv(s, d, id, doomed);
    var t := Rewritten(s, d, WithoutId(s.at[d], id), s.counter);
    UnlistInv(t, d, doomed);
    UnlistRegistry(t, d);
  }

  lemma EmptiedNone(s: State, d: nat, id: nat, doomed: set<nat>)
    requires AllOk(s.at, s.counter, doomed) && d in s.at && Empties(s, d, id)
    ensures All(WithoutId(s.at[d], id)) == []
  {
    assert ListenerOk(s.at[d], s.counter, d in doomed);
  }

  // ---- runs outside dispatch ----

  datatype Op = AddOp(q: Request) | RemoveOp(id: nat)

  function Apply(s: State, op: Op): State {
    match op
    case AddOp(q) => Add(s, q)
    case RemoveOp(id) => RemoveWatch(s, id)
  }

  function Do(s: State, ops: seq<Op>): State
    decreases ops
  {
    if ops == [] then s else Do(Apply(s, ops[0]), ops[1..])
  }

  /** In every run with fewer than 2^32 ids the invariant holds: distinct ids, no empty listener, one
      filter for each connection with listeners and no other, one match rule for each listener. */
  lemma {:induction false} DoInv(s: State, ops: seq<Op>, doomed: set<nat>)
    requires Inv(s, doomed) && s.counter + 2 * |ops| < U32
    ensures Inv(Do(s, ops), doomed) && s.counter <= Do(s, ops).counter <= s.counter + 2 * |ops|
    decreases ops
  {
    if ops != [] {
      match ops[0] {
        case AddOp(q) => AddInv(s, q, doomed);
        case RemoveOp(id) => RemoveWatchInv(s, id, doomed);
      }
      DoInv(Apply(s, ops[0]), ops[1..], doomed);
    }
  }

  /** With no listener in dispatch, listeners are exactly the non-empty ones: the filter of a connection
      is installed, once, if and only if some watch on it is registered. */
  lemma FilterIff(s: State, conn: nat)
    requires Inv(s, {}) && forall d :: d in s.at ==> !s.at[d].lock
    ensures s.filters[conn] == if exists e :: e in Registry(s) && e.rule.conn == conn then 1 else 0
  {
    if Listens(s, conn) {
      var d :| d in s.at && s.at[d].rule.conn == conn;
      var none: set<nat> := {};
      assert ListenerOk(s.at[d], s.counter, d in none);
      var c := s.at[d].callbacks[0];
      Listed(s, d, c);
    } else {
      forall e | e in Registry(s) ensures e.rule.conn != conn {
        var d, c := Where(s, e);
      }
    }
  }
}
