/** The watch registry in memory: listener records in a list, updated in place and re-entrantly. */
module WatchRegistry {
  import opened Lists
  import opened WatchModel
  import opened WatchInvariant
  import opened WatchRefinement
  import opened WatchDispatch
  import opened WatchMessage
  import opened WatchWalk
  import opened WatchHeard

  /** `struct filter_data`; `serial` stands for its address in the model. */
  class FilterData {
    var rule: Rule
    const handler: Handler
    var callbacks: seq<Callback>
    var processed: seq<Callback>
    var nameWatch: nat
    var lock: bool
    ghost const serial: nat

    constructor (rule: Rule, handler: Handler, ghost serial: nat)
      ensures View() == Listener(rule, handler, [], [], 0, false) && this.serial == serial
    {
      this.rule, this.handler, this.serial := rule, handler, serial;
      callbacks, processed, nameWatch, lock := [], [], 0, false;
    }

    ghost function View(): Listener
      reads this
    {
      Listener(rule, handler, callbacks, processed, nameWatch, lock)
    }
  }

  ghost function Serials(l: seq<FilterData>): (r: seq<nat>)
    ensures |r| == |l| && forall k :: 0 <= k < |l| ==> r[k] == l[k].serial
  {
    seq(|l|, k requires 0 <= k < |l| => l[k].serial)
  }

  /** The table holds exactly the listed records, each once, by their serials. */
  ghost predicate Linked(l: seq<FilterData>, t: map<nat, FilterData>) {
    && NoDup(Serials(l))
    && (forall n :: n in t ==> n in Serials(l) && t[n].serial == n)
    && (forall k :: 0 <= k < |l| ==> Filed(l[k], t))
  }

  ghost predicate Filed(x: FilterData, t: map<nat, FilterData>) { x.serial in t && t[x.serial] == x }

  lemma LinkedMore(l: seq<FilterData>, t: map<nat, FilterData>, x: FilterData)
    requires Linked(l, t) && x.serial !in t
    ensures Linked(l + [x], t[x.serial := x]) && Serials(l + [x]) == Serials(l) + [x.serial]
  {
    var r := Serials(l);
    assert Serials(l + [x]) == r + [x.serial];
    forall k | 0 <= k < |l| ensures Filed(l[k], t[x.serial := x]) && r[k] != x.serial { assert Filed(l[k], t); }
  }

  lemma SerialsCons(x: FilterData, l: seq<FilterData>)
    ensures Serials([x] + l) == [x.serial] + Serials(l)
  {
  }

  lemma {:induction false} SerialsLess(l: seq<FilterData>, x: FilterData)
    requires forall k :: 0 <= k < |l| ==> (l[k] == x <==> l[k].serial == x.serial)
    ensures Serials(RemoveFirst(l, x)) == RemoveFirst(Serials(l), x.serial)
    ensures forall y :: y in RemoveFirst(l, x) ==> y in l
  {
    if l != [] {
      assert l == [l[0]] + l[1..];
      SerialsCons(l[0], l[1..]);
      if l[0] != x {
        SerialsLess(l[1..], x);
        SerialsCons(l[0], RemoveFirst(l[1..], x));
      }
    }
  }

  lemma LinkedLess(l: seq<FilterData>, t: map<nat, FilterData>, x: FilterData)
    requires Linked(l, t) && Filed(x, t)
    ensures Linked(RemoveFirst(l, x), t - {x.serial}) && Serials(RemoveFirst(l, x)) == RemoveFirst(Serials(l), x.serial)
  {
    forall k | 0 <= k < |l| ensures l[k] == x <==> l[k].serial == x.serial { assert Filed(l[k], t); }
    SerialsLess(l, x);
    RemoveFirstNoDup(Serials(l), x.serial);
    var r := RemoveFirst(l, x);
    forall k | 0 <= k < |r| ensures Filed(r[k], t - {x.serial}) {
      assert r[k] in r;
      assert r[k] in l;
      var m :| 0 <= m < |l| && l[m] == r[k];
      assert Filed(l[m], t);
      assert Serials(r)[k] in Serials(r);
    }
  }

  class Registry {
    var listeners: seq<FilterData>
    var listenerId: nat
    /** The message filters installed on connections, and the match rules at the bus. */
    var filters: multiset<nat>
    var rules: multiset<Rule>
    /** The ids of the callbacks called so far. */
    var calls: seq<nat>
    /** The listed records by their serials. */
    ghost var table: map<nat, FilterData>

    constructor ()
      ensures Valid() && State() == EMPTY && calls == []
    {
      listeners, listenerId, filters, rules, calls := [], 0, multiset{}, multiset{}, [];
      table := map[];
    }

    ghost predicate Valid()
      reads this`listeners, this`table
    {
      Linked(listeners, table)
    }

    ghost function Views(): map<nat, Listener>
      reads this`table, table.Values
    {
      map n | n in table :: table[n].View()
    }

    ghost function State(): State
      reads this, table.Values
    {
      WatchModel.State(Serials(listeners), Views(), listenerId, filters, rules)
    }

    /** Records keep their serials for good; a new one has a serial beyond those used before. */
    twostate predicate KeptAll()
      reads this`table
    {
      forall k :: k in table ==> (k in old(table) && table[k] == old(table)[k]) || (k > old(listenerId) && fresh(table[k]))
    }

    /** Nothing is added to the listed records. */
    twostate predicate KeptSome()
      reads this`table
    {
      table.Keys <= old(table).Keys && forall n :: n in table ==> table[n] == old(table)[n]
    }

    ghost predicate Has(data: FilterData)
      reads this`table
    {
      Filed(data, table)
    }

    /** `filter_data_find`. */
    method Find(conn: nat) returns (found: bool)
      requires Valid()
      ensures found <==> Listens(State(), conn)
    {
      var i := 0;
      while i < |listeners|
        invariant 0 <= i <= |listeners|
        invariant forall k :: 0 <= k < i ==> listeners[k].rule.conn != conn
      {
        if listeners[i].rule.conn == conn {
          assert Filed(listeners[i], table);
          assert listeners[i].serial in State().at;
          return true;
        }
        i := i + 1;
      }
      found := false;
      assert State().order == Serials(listeners);
    }

    /** `filter_data_find_match`. */
    method FindMatching(rule: Rule) returns (data: FilterData?)
      requires Valid()
      ensures data == null <==> FindMatch(State(), State().order, rule).None?
      ensures data != null ==> Has(data) && FindMatch(State(), State().order, rule) == Some(data.serial)
    {
      var i := FirstWith(rule);
      AllListed();
      if i < |listeners| {
        data := listeners[i];
        FindMatchAt(State(), State().order, i, rule);
      } else {
        data := null;
        FindMatchNowhere(State(), State().order, rule);
      }
    }

    method FirstWith(rule: Rule) returns (i: nat)
      ensures i <= |listeners| && (i < |listeners| ==> listeners[i].rule == rule)
      ensures forall k :: 0 <= k < i ==> listeners[k].rule != rule
    {
      i := 0;
      while i < |listeners| && listeners[i].rule != rule
        invariant i <= |listeners| && forall k :: 0 <= k < i ==> listeners[k].rule != rule
      {
        i := i + 1;
      }
    }

    /** The listed records are the listeners of the state, in order. */
    lemma AllListed()
      requires Valid()
      ensures |State().order| == |listeners|
      ensures forall k :: 0 <= k < |listeners| ==>
        var d := State().order[k]; d == listeners[k].serial && Has(listeners[k]) && d in State().at && State().at[d] == listeners[k].View()
    {
      assert forall k :: 0 <= k < |listeners| ==> Filed(listeners[k], table);
    }

    /** `filter_data_get`. */
    method FilterDataGet(rule: Rule, handler: Handler) returns (data: FilterData)
      requires Valid() && NextId(State()) !in table
      modifies this`listeners, this`filters, this`rules, this`table
      ensures Valid() && Has(data) && data.serial == Slot(old(State()), rule)
      ensures State() == Joinable(old(State()), rule, handler)
      ensures table == old(table) || (data.serial == NextId(old(State())) && fresh(data) && table == old(table)[data.serial := data])
    {
      FilterFirst(State(), rule, handler);
      var known := Search(rule);
      if known != null {
        return known;
      }
      data := Append(rule, handler);
    }

    /** The first half: the message filter, and the search for a listener with this rule. */
    method Search(rule: Rule) returns (data: FilterData?)
      requires Valid()
      modifies this`filters
      ensures State() == WithFilter(old(State()), rule.conn)
      ensures data == null <==> FindMatch(State(), State().order, rule).None?
      ensures data != null ==> Has(data) && FindMatch(State(), State().order, rule) == Some(data.serial)
    {
      InstallFilter(rule.conn);
      data := FindMatching(rule);
    }

    /** The first watch on a connection installs the message filter. */
    method InstallFilter(conn: nat)
      requires Valid()
      modifies this`filters
      ensures State() == WithFilter(old(State()), conn)
    {
      var any := Find(conn);
      SetFilters(if any then filters else filters + multiset{conn});
    }

    method SetFilters(now: multiset<nat>)
      modifies this`filters
      ensures State() == old(State()).(filters := now)
    {
      filters := now;
    }

    /** The second half: a new record at the end of the list, with its match rule. */
    method Append(rule: Rule, handler: Handler) returns (data: FilterData)
      requires Valid() && NextId(State()) !in table
      modifies this`listeners, this`rules, this`table
      ensures Valid() && Has(data) && fresh(data) && data.serial == NextId(old(State())) && table == old(table)[data.serial := data]
      ensures State() == WithListener(old(State()), rule, handler)
    {
      ghost var s := State();
      data := new FilterData(rule, handler, NextId(s));
      rules := rules + multiset{BusRule(rule)};
      LinkedMore(listeners, table, data);
      listeners := listeners + [data];
      table := table[data.serial := data];
      OneMore(data);
    }

    /** No record was written to, and a new one is listed. */
    twostate lemma OneMore(new data: FilterData)
      requires table == old(table)[data.serial := data] && forall x :: x in old(table.Values) ==> unchanged(x)
      ensures Views() == old(Views())[data.serial := data.View()]
    {
      forall k | k in old(table) ensures old(table)[k].View() == old(table[k].View()) { assert old(table)[k] in old(table.Values); }
    }

    /** `filter_data_add_callback`. */
    method AddCallback(data: FilterData, func: Func) returns (id: nat)
      requires Valid() && Has(data)
      modifies this`listenerId, data`callbacks, data`processed
      ensures id == NextId(old(State())) && data.nameWatch == old(data.nameWatch)
      ensures var s := old(State());
        State() == s.(counter := id, at := s.at[data.serial := Put(s.at[data.serial], Callback(id, func))])
    {
      ghost var s := State();
      listenerId := (listenerId + 1) % U32;
      id := listenerId;
      if data.lock {
        data.processed := data.processed + [Callback(id, func)];
      } else {
        data.callbacks := data.callbacks + [Callback(id, func)];
      }
      OneChanged(data);
    }

    /** Only one record was written to. */
    twostate lemma OneChanged(data: FilterData)
      requires old(Valid()) && Has(data) && table == old(table)
      requires forall x :: x in table.Values && x != data ==> x.View() == old(x.View())
      ensures Views() == old(Views())[data.serial := data.View()]
    {
      forall n | n in table && n != data.serial ensures table[n].View() == old(table[n].View()) {
        assert table[n] in table.Values && table[n].serial == n;
      }
    }

    /** The common part of the three calls that add a watch. */
    method AddOne(rule: Rule, handler: Handler, func: Func) returns (id: nat, data: FilterData)
      requires Valid() && NextId(State()) !in table
      modifies this`listeners, this`filters, this`rules, this`table, this`listenerId, table.Values
      ensures Valid() && Has(data) && id == NextId(old(State())) && data.serial == Slot(old(State()), rule)
      ensures table == old(table) || (data.serial == id && fresh(data) && table == old(table)[id := data])
      ensures State() == AddPlain(old(State()), rule, handler, func)
    {
      ghost var s := State();
      PutSomewhere(s, rule, handler, func);
      data := FilterDataGet(rule, handler);
      id := AddCallback(data, func);
    }

    /** Records are numbered by the ids used so far. */
    ghost predicate Numbered()
      reads this`table, this`listenerId
    {
      forall n :: n in table ==> 1 <= n <= listenerId
    }

    lemma InvNumbered(doomed: set<nat>)
      requires AllOk(State().at, listenerId, doomed)
      ensures Numbered()
    {
      assert forall n :: n in table ==> n in State().at;
    }

    /** The same, with what it means for the listed records as long as fewer than 2^32 ids are used. */
    method AddFresh(rule: Rule, handler: Handler, func: Func) returns (id: nat, data: FilterData)
      requires Valid() && Numbered() && listenerId + 1 < U32
      modifies this`listeners, this`filters, this`rules, this`table, this`listenerId, table.Values
      ensures Valid() && Has(data) && Numbered() && KeptAll() && old(table).Keys <= table.Keys
      ensures id == old(listenerId) + 1 == listenerId && data.serial == Slot(old(State()), rule)
      ensures State() == AddPlain(old(State()), rule, handler, func)
    {
      NextPlain(State(), rule, handler, func);
      id, data := AddOne(rule, handler, func);
      assert listenerId == State().counter;
    }

    /** The internal watch on the name of a listener's sender. */
    method WatchSender(data: FilterData)
      requires Valid() && Has(data) && Numbered() && listenerId + 1 < U32
      modifies this`listeners, this`filters, this`rules, this`table, this`listenerId, table.Values
      ensures Valid() && KeptAll() && State() == WatchName(old(State()), data.serial)
    {
      if data.rule.name.Some? && data.nameWatch == 0 {
        WatchNameSteps(State(), data.serial);
        var id, other := AddFresh(ServiceRule(data.rule.conn, data.rule.name.value), ServiceFilter, SILENT);
        StillListed(data);
        SetNameWatch(data, id);
      }
    }

    twostate lemma StillListed(data: FilterData)
      requires old(Has(data)) && old(Numbered()) && KeptAll() && old(table).Keys <= table.Keys
      ensures Has(data)
    {
    }

    method SetNameWatch(data: FilterData, id: nat)
      requires Valid() && Has(data)
      modifies data`nameWatch
      ensures State() == NameOn(old(State()), data.serial, id)
    {
      data.nameWatch := id;
      OneChanged(data);
    }

    /** `g_dbus_add_signal_watch`, `g_dbus_add_properties_watch` and `g_dbus_add_service_watch`. */
    method AddWatch(q: Request) returns (id: nat)
      requires Valid() && Numbered() && listenerId + 2 < U32
      modifies this`listeners, this`filters, this`rules, this`table, this`listenerId, table.Values
      ensures Valid() && KeptAll() && State() == Add(old(State()), q) && id == NextId(old(State()))
    {
      id := AddNamed(RuleOf(q), HandlerOf(q), FuncOf(q));
    }

    /** A watch and the watch on the name of its sender. */
    method AddNamed(rule: Rule, handler: Handler, func: Func) returns (id: nat)
      requires Valid() && Numbered() && listenerId + 2 < U32
      modifies this`listeners, this`filters, this`rules, this`table, this`listenerId, table.Values
      ensures Valid() && KeptAll() && id == NextId(old(State()))
      ensures State() == WatchName(AddPlain(old(State()), rule, handler, func), Slot(old(State()), rule))
    {
      var data;
      id, data := AddFresh(rule, handler, func);
      WatchSender(data);
    }

    /** `filter_data_remove_callback`, and `filter_data_free` for a listener that it empties. */
    method RemoveOne(data: FilterData, id: nat)
      requires Valid() && Has(data)
      modifies this`listeners, this`filters, this`rules, this`table, table.Values
      ensures Valid() && KeptSome()
      ensures data.serial in old(State()).at && data.serial in old(State()).order
      ensures State() == RemoveCallback(old(State()), data.serial, id)
      decreases |listeners|, 0
    {
      ghost var s := State();
      assert data.serial in Serials(listeners);
      data.callbacks := RemoveId(data.callbacks, id);
      data.processed := RemoveId(data.processed, id);
      OneChanged(data);
      ghost var t := State();
      assert t == s.(at := s.at[data.serial := WithoutId(s.at[data.serial], id)]);
      if data.callbacks != [] || data.lock {
        return;
      }
      Free(data);
      var _ := RemoveWatch(data.nameWatch);
    }

    /** The record leaves the list with its match rule, and the filter with the last record of a connection. */
    method Free(data: FilterData)
      requires Valid() && Has(data)
      modifies this`listeners, this`filters, this`rules, this`table
      ensures Valid() && table == old(table) - {data.serial} && |listeners| < old(|listeners|)
      ensures State() == Unlist(old(State()), data.serial)
    {
      UnlistIs(State(), data.serial);
      Delist(data);
      DropFilter(data.rule.conn);
    }

    method DropFilter(conn: nat)
      requires Valid()
      modifies this`filters
      ensures State() == if Listens(old(State()), conn) then old(State()) else old(State()).(filters := old(filters) - multiset{conn})
    {
      var any := Find(conn);
      SetFilters(if any then filters else filters - multiset{conn});
    }

    method Delist(data: FilterData)
      requires Valid() && Has(data)
      modifies this`listeners, this`rules, this`table
      ensures Valid() && table == old(table) - {data.serial} && |listeners| < old(|listeners|)
      ensures State() == Delisted(old(State()), data.serial)
    {
      DelistShorter(listeners, table, data);
      rules := rules - multiset{BusRule(data.rule)};
      listeners := RemoveFirst(listeners, data);
      table := table - {data.serial};
      OneLess(data.serial);
    }

    /** No record was written to, and one is no longer listed. */
    twostate lemma OneLess(n: nat)
      requires table == old(table) - {n} && forall x :: x in table.Values ==> unchanged(x)
      ensures Views() == old(Views()) - {n}
    {
      forall k | k in table ensures k in old(table) && table[k].View() == old(table[k].View()) { assert table[k] in table.Values; }
    }

    /** `g_dbus_remove_watch`. */
    method RemoveWatch(id: nat) returns (found: bool)
      requires Valid()
      modifies this`listeners, this`filters, this`rules, this`table, table.Values
      ensures Valid() && KeptSome()
      ensures State() == WatchModel.RemoveWatch(old(State()), id)
      ensures found <==> id != 0 && Holder(old(State()), old(State()).order, id).Some?
      decreases |listeners|, 1
    {
      if id == 0 {
        return false;
      }
      var i := FirstHolding(id);
      AllListed();
      if i < |listeners| {
        HolderAt(State(), State().order, i, id);
        found := true;
        RemoveOne(listeners[i], id);
      } else {
        HolderNowhere(State(), State().order, id);
        found := false;
      }
    }

    method FirstHolding(id: nat) returns (i: nat)
      ensures i <= |listeners| && (i < |listeners| ==> HasId(All(listeners[i].View()), id))
      ensures forall k :: 0 <= k < i ==> !HasId(All(listeners[k].View()), id)
    {
      i := 0;
      while i < |listeners| && !HasId(listeners[i].callbacks + listeners[i].processed, id)
        invariant i <= |listeners| && forall k :: 0 <= k < i ==> !HasId(All(listeners[k].View()), id)
      {
        i := i + 1;
      }
    }

    // ---- dispatch ----

    /** What the body of a callback does. */
    method Perform(op: Op, ghost doomed: set<nat>)
      requires Valid() && Inv(State(), doomed) && listenerId + 2 < U32
      modifies this`listeners, this`filters, this`rules, this`table, this`listenerId, table.Values
      ensures Valid() && KeptAll() && State() == Apply(old(State()), op)
    {
      InvNumbered(doomed);
      match op {
        case AddOp(q) => var _ := AddWatch(q);
        case RemoveOp(id) => var _ := RemoveWatch(id);
      }
    }

    method RunScript(ops: seq<Op>, ghost doomed: set<nat>)
      requires Valid() && Inv(State(), doomed) && listenerId + 2 * |ops| < U32
      modifies this`listeners, this`filters, this`rules, this`table, this`listenerId, table.Values
      ensures Valid() && KeptAll() && State() == Do(old(State()), ops)
    {
      ghost var s := State();
      var rest := ops;
      while rest != []
        invariant Valid() && KeptAll() && Inv(State(), doomed) && old(listenerId) <= listenerId
        invariant listenerId + 2 * |rest| < U32 && Do(State(), rest) == Do(s, ops)
        decreases |rest|
      {
        DoOne(State(), rest[0], doomed);
        Perform(rest[0], doomed);
        rest := rest[1..];
      }
    }

    /** A record that is still listed after a call is the same one. */
    twostate lemma StillHas(data: FilterData)
      requires old(Valid()) && old(Has(data)) && KeptAll() && data.serial in table && data.serial <= old(listenerId)
      ensures Has(data)
    {
    }

    /** One turn of the loop of `signal_filter`. */
    method SignalTurn(data: FilterData, msg: Msg, script: Script, ghost doomed: set<nat>)
      requires Valid() && Has(data) && Ready(State(), data.serial, msg, script, doomed) && data.callbacks != []
      requires data.handler == SignalFilter
      modifies this`listeners, this`filters, this`rules, this`table, this`listenerId, this`calls, table.Values
      ensures Valid() && KeptAll() && State() == Turn(old(State()), data.serial, msg, script, doomed)
      ensures calls == old(calls) + CallOf(data.handler, msg, old(data.callbacks)[0])
    {
      TurnIs(State(), data.serial, msg, script, doomed);
      ghost var x := data.View();
      var cb := data.callbacks[0];
      Call(data, msg, script, doomed);
      EndSignalTurn(data, cb, msg, script, x);
    }

    /** What follows the call in `signal_filter`. */
    method EndSignalTurn(data: FilterData, cb: Callback, msg: Msg, script: Script, ghost x: Listener)
      requires Valid() && Has(data) && x.callbacks != [] && x.callbacks[0] == cb && x.handler == SignalFilter
      modifies this`listeners, this`filters, this`rules, this`table, table.Values
      ensures Valid() && KeptSome()
      ensures data.serial in old(State()).at && data.serial in old(State()).order
      ensures State() == Settled(old(State()), data.serial, x, msg, script)
    {
      assert data.serial in Serials(listeners);
      if cb.func.signal && !script(cb.id).keep {
        RemoveOne(data, cb.id);
      } else if HasId(data.callbacks, cb.id) {
        MoveOn(data, cb);
      }
    }

    /** One turn of the loop of `service_filter`. */
    method ServiceTurn(data: FilterData, msg: Msg, script: Script, ghost doomed: set<nat>)
      requires Valid() && Has(data) && Ready(State(), data.serial, msg, script, doomed) && data.callbacks != []
      requires data.handler == ServiceFilter
      modifies this`listeners, this`filters, this`rules, this`table, this`listenerId, this`calls, table.Values
      ensures Valid() && KeptAll() && State() == Turn(old(State()), data.serial, msg, script, doomed)
      ensures calls == old(calls) + CallOf(data.handler, msg, old(data.callbacks)[0])
    {
      TurnIs(State(), data.serial, msg, script, doomed);
      ghost var x := data.View();
      var cb := data.callbacks[0];
      CalledSame(State(), data.serial, msg, script, doomed);
      Call(data, msg, script, doomed);
      EndServiceTurn(data, cb, msg, script, x);
    }

    /** What follows the call in `service_filter`. */
    method EndServiceTurn(data: FilterData, cb: Callback, msg: Msg, script: Script, ghost x: Listener)
      requires Valid() && Has(data) && x.callbacks != [] && x.callbacks[0] == cb && x.handler == ServiceFilter && x.rule == data.rule
      modifies this`listeners, this`filters, this`rules, this`table, table.Values
      ensures Valid() && KeptSome()
      ensures data.serial in old(State()).at && data.serial in old(State()).order
      ensures State() == Settled(old(State()), data.serial, x, msg, script)
    {
      assert data.serial in Serials(listeners);
      if !HasId(data.callbacks, cb.id) {
        return;
      }
      if AutoRemove(data.rule, cb.func) {
        RemoveOne(data, cb.id);
      } else {
        MoveOn(data, cb);
      }
    }

    method AnyTurn(data: FilterData, msg: Msg, script: Script, ghost doomed: set<nat>)
      requires Valid() && Has(data) && Ready(State(), data.serial, msg, script, doomed) && data.callbacks != []
      modifies this`listeners, this`filters, this`rules, this`table, this`listenerId, this`calls, table.Values
      ensures Valid() && KeptAll() && Has(data) && old(listenerId) <= listenerId
      ensures Ready(State(), data.serial, msg, script, doomed) && |data.callbacks| < |old(data.callbacks)|
      ensures State() == Turn(old(State()), data.serial, msg, script, doomed)
      ensures calls == old(calls) + CallOf(data.handler, msg, old(data.callbacks)[0])
    {
      TurnReady(State(), data.serial, msg, script, doomed);
      FreshSerials(State(), doomed);
      if data.handler == SignalFilter {
        SignalTurn(data, msg, script, doomed);
      } else {
        ServiceTurn(data, msg, script, doomed);
      }
      StillHas(data);
    }

    /** The rest of the pass completes `goal`. */
    ghost predicate Going(data: FilterData, msg: Msg, script: Script, doomed: set<nat>, goal: State, called: seq<nat>)
      reads this, table.Values
    {
      && Ready(State(), data.serial, msg, script, doomed)
      && Pass(State(), data.serial, msg, script, doomed).state == goal
      && calls + Pass(State(), data.serial, msg, script, doomed).called == called
    }

    /** The loops of `signal_filter` and `service_filter`. */
    method RunFilter(data: FilterData, msg: Msg, script: Script, ghost doomed: set<nat>)
      requires Valid() && Has(data) && Ready(State(), data.serial, msg, script, doomed)
      modifies this`listeners, this`filters, this`rules, this`table, this`listenerId, this`calls, table.Values
      ensures Valid() && KeptAll() && Has(data)
      ensures var r := Pass(old(State()), data.serial, msg, script, doomed);
        State() == r.state && calls == old(calls) + r.called
    {
      ghost var r := Pass(State(), data.serial, msg, script, doomed);
      ghost var goal, called := r.state, calls + r.called;
      while data.callbacks != []
        invariant Valid() && KeptAll() && Has(data) && old(listenerId) <= listenerId
        invariant Going(data, msg, script, doomed, goal, called)
        decreases |data.callbacks|
      {
        TurnOn(data, msg, script, doomed, goal, called);
      }
    }

    /** A turn of a pass. */
    method TurnOn(data: FilterData, msg: Msg, script: Script, ghost doomed: set<nat>, ghost goal: State, ghost called: seq<nat>)
      requires Valid() && Has(data) && data.callbacks != [] && Going(data, msg, script, doomed, goal, called)
      modifies this`listeners, this`filters, this`rules, this`table, this`listenerId, this`calls, table.Values
      ensures Valid() && KeptAll() && Has(data) && old(listenerId) <= listenerId
      ensures Going(data, msg, script, doomed, goal, called) && |data.callbacks| < |old(data.callbacks)|
    {
      var _ := PassStep(State(), data.serial, msg, script, doomed, calls);
      AnyTurn(data, msg, script, doomed);
    }

    /** `update_name_cache`. */
    method UpdateNameCache(g: Change)
      requires Valid()
      modifies table.Values`rule
      ensures State() == UpdateNames(old(State()), g)
    {
      AllListed();
      ghost var was := Views();
      var i := 0;
      while i < |listeners|
        invariant 0 <= i <= |listeners|
        invariant forall k :: 0 <= k < |listeners| ==>
          listeners[k].View() == if k < i then Renamed(was[listeners[k].serial], g) else was[listeners[k].serial]
      {
        var data := listeners[i];
        assert forall k :: 0 <= k < |listeners| && k != i ==> Serials(listeners)[k] != Serials(listeners)[i];
        if data.rule.name == Some(g.name) {
          data.rule := data.rule.(owner := Some(g.owner));
        }
        i := i + 1;
      }
      ByNumber(was, g);
    }

    /** What holds of the listed records holds of the table. */
    lemma ByNumber(was: map<nat, Listener>, g: Change)
      requires Valid() && was.Keys == table.Keys
      requires forall k :: 0 <= k < |listeners| ==> listeners[k].serial in was && listeners[k].View() == Renamed(was[listeners[k].serial], g)
      ensures Views() == map d | d in was :: Renamed(was[d], g)
    {
      forall n | n in table ensures table[n].View() == Renamed(was[n], g) {
        var k :| 0 <= k < |listeners| && Serials(listeners)[k] == n;
        assert Filed(listeners[k], table);
      }
    }

    method SetLock(data: FilterData)
      requires Valid() && Has(data)
      modifies data`lock
      ensures State() == Begin(old(State()), data.serial) && data.lock
    {
      data.lock := true;
      OneChanged(data);
    }

    /** The processed callbacks become the callbacks again. */
    method Close(data: FilterData)
      requires Valid() && Has(data)
      modifies data`callbacks, data`processed, data`lock
      ensures State() == Finish(old(State()), data.serial)
    {
      data.callbacks := data.processed;
      data.processed := [];
      data.lock := false;
      OneChanged(data);
    }

    /** `signal_filter` or `service_filter`. */
    method HandleFunc(data: FilterData, msg: Msg, script: Script, ghost s: State, ghost conn: nat, ghost doomed: set<nat>)
      requires Valid() && Has(data) && VisitReady(s, data.serial, conn, msg, script, doomed)
      requires Matches(s.at[data.serial].rule, conn, msg) && State() == Begin(s, data.serial)
      modifies this`listeners, this`filters, this`rules, this`table, this`listenerId, this`calls, table.Values
      ensures Valid() && KeptAll() && Has(data) && State() == Handled(s, data.serial, conn, msg, script, doomed)
      ensures calls == old(calls) + CallsAt(s, data.serial, conn, msg, script, doomed)
    {
      if data.handler == SignalFilter {
        RunFilter(data, msg, script, doomed);
      } else {
        HandleOwnerChange(data, msg, script, doomed);
      }
    }

    /** `service_filter`: nothing happens for a signal without three strings. */
    method HandleOwnerChange(data: FilterData, msg: Msg, script: Script, ghost doomed: set<nat>)
      requires Valid() && Has(data)
      requires msg.change.Some? ==> Ready(UpdateNames(State(), msg.change.value), data.serial, msg, script, doomed)
      modifies this`listeners, this`filters, this`rules, this`table, this`listenerId, this`calls, table.Values
      ensures Valid() && KeptAll() && Has(data)
      ensures State() ==
        if msg.change.None? then old(State())
        else Pass(UpdateNames(old(State()), msg.change.value), data.serial, msg, script, doomed).state
      ensures calls == old(calls) +
        if msg.change.None? then [] else Pass(UpdateNames(old(State()), msg.change.value), data.serial, msg, script, doomed).called
    {
      if msg.change.Some? {
        UpdateNameCache(msg.change.value);
        RunFilter(data, msg, script, doomed);
      }
    }

    /** One iteration of the loop of `message_filter`. */
    method VisitListener(data: FilterData, conn: nat, msg: Msg, script: Script, ghost doomed: set<nat>) returns (emptied: bool)
      requires Valid() && Has(data) && VisitReady(State(), data.serial, conn, msg, script, doomed)
      modifies this`listeners, this`filters, this`rules, this`table, this`listenerId, this`calls, table.Values
      ensures Valid() && KeptAll() && Has(data)
      ensures State() == Visit(old(State()), data.serial, conn, msg, script, doomed)
      ensures emptied <==> Emptied(old(State()), data.serial, conn, msg, script, doomed)
      ensures calls == old(calls) + CallsAt(old(State()), data.serial, conn, msg, script, doomed)
    {
      ghost var s := State();
      if !Matches(data.rule, conn, msg) {
        return false;
      }
      SetLock(data);
      HandleFunc(data, msg, script, s, conn, doomed);
      HandledOk(s, data.serial, conn, msg, script, doomed);
      Close(data);
      emptied := data.callbacks == [];
    }

    /** The record behind this one in the list as it is now. */
    method NextListener(data: FilterData) returns (next: FilterData?)
      requires Valid() && Has(data)
      ensures next != null ==> Has(next)
      ensures NextOf(State(), data.serial) == if next == null then None else Some(next.serial)
    {
      AllListed();
      assert data.serial in Serials(listeners);
      var i := 0;
      while i < |listeners| && listeners[i] != data
        invariant 0 <= i <= |listeners| && forall k :: 0 <= k < i ==> listeners[k] != data
      {
        i := i + 1;
      }
      assert i < |listeners| by {
        var k :| 0 <= k < |listeners| && Serials(listeners)[k] == data.serial;
        assert Filed(listeners[k], table);
      }
      AfterAt(State().order, i);
      next := if i + 1 < |listeners| then listeners[i + 1] else null;
    }

    /** The records found empty that are still listed are the ones remembered. */
    ghost predicate Remembered(del: seq<FilterData>)
      reads this`table, this`listenerId
    {
      forall k :: 0 <= k < |del| ==> del[k].serial <= listenerId && (del[k].serial in table ==> table[del[k].serial] == del[k])
    }

    /** The walk is at this stop. */
    ghost predicate At(p: Stop, current: FilterData?, del: seq<FilterData>)
      reads this, table.Values
    {
      && Valid() && Remembered(del) && (current != null ==> Has(current))
      && State() == p.state && Cursor(current) == p.cur && Serials(del) == p.del
    }

    /** One step along the list: a visit, then the successor. */
    method Step(current: FilterData, del: seq<FilterData>, conn: nat, msg: Msg, script: Script, ghost p: Stop)
      returns (next: FilterData?, more: seq<FilterData>)
      requires At(p, current, del) && Calm(p, script)
      modifies this`listeners, this`filters, this`rules, this`table, this`listenerId, this`calls, table.Values
      ensures At(NextStop(p, conn, msg, script), next, more) && KeptAll() && old(listenerId) <= listenerId
      ensures calls == old(calls) + StopCalls(p, conn, msg, script)
    {
      var emptied := VisitStop(current, conn, msg, script, p);
      StillRemembered(del);
      next, more := Advance(current, del, emptied, NextStop(p, conn, msg, script));
    }

    method VisitStop(current: FilterData, conn: nat, msg: Msg, script: Script, ghost p: Stop) returns (emptied: bool)
      requires Valid() && Has(current) && State() == p.state && p.cur == Some(current.serial) && Calm(p, script)
      modifies this`listeners, this`filters, this`rules, this`table, this`listenerId, this`calls, table.Values
      ensures Valid() && KeptAll() && Has(current) && old(listenerId) <= listenerId && current.serial <= listenerId
      ensures var q := NextStop(p, conn, msg, script);
        State() == q.state && q.cur == NextOf(q.state, current.serial) && q.del == if emptied then [current.serial] + p.del else p.del
      ensures calls == old(calls) + StopCalls(p, conn, msg, script)
    {
      CalmReady(p, conn, msg, script);
      VisitInv(p.state, current.serial, conn, msg, script, ToSet(p.del));
      FreshSerials(p.state, ToSet(p.del));
      emptied := VisitListener(current, conn, msg, script, ToSet(p.del));
    }

    /** A listener found empty is put in front of the others; the walk goes on with the next one. */
    method Advance(current: FilterData, del: seq<FilterData>, emptied: bool, ghost q: Stop)
      returns (next: FilterData?, more: seq<FilterData>)
      requires Valid() && Has(current) && Remembered(del) && current.serial <= listenerId && State() == q.state
      requires q.cur == NextOf(q.state, current.serial)
      requires q.del == if emptied then [current.serial] + Serials(del) else Serials(del)
      ensures At(q, next, more)
    {
      SerialsCons(current, del);
      RememberMore(current, del);
      more := if emptied then [current] + del else del;
      next := NextListener(current);
    }

    lemma RememberMore(x: FilterData, del: seq<FilterData>)
      requires Remembered(del) && Has(x) && x.serial <= listenerId
      ensures Remembered([x] + del)
    {
    }

    twostate lemma StillRemembered(del: seq<FilterData>)
      requires old(Remembered(del)) && KeptAll() && old(listenerId) <= listenerId
      ensures Remembered(del)
    {
    }

    /** `message_filter`, with the first `steps` steps of its deletion loop. */
    method MessageFilter(conn: nat, msg: Msg, script: Script, steps: nat) returns (end: Phase)
      requires Valid() && (msg.sender.Some? ==> Rest(State(), script))
      modifies this`listeners, this`filters, this`rules, this`table, this`listenerId, this`calls, table.Values
      ensures Valid()
      ensures msg.sender.None? ==> State() == old(State()) && calls == old(calls) && end == Finished
      ensures msg.sender.Some? ==> Cleaning(State(), end) == CleanUp(Signal(old(State()), conn, msg, script), steps)
      ensures msg.sender.Some? && end == Finished ==> Inv(State(), {}) && NobodyLocked(State().at)
      ensures msg.sender.Some? ==> calls == old(calls) + SignalCalls(old(State()), conn, msg, script)
      ensures |old(calls)| <= |calls| && OnlyWanted(calls[|old(calls)|..], old(State()).at, old(listenerId), conn, msg)
    {
      if msg.sender.None? {
        return Finished;
      }
      RestCalm(State(), script);
      MessageRestores(State(), conn, msg, script, steps);
      ghost var w := Signal(State(), conn, msg, script);
      HeardBelongs(State(), conn, msg, script);
      var del := WalkListeners(conn, msg, script, Start(State()));
      end := DeleteEmptied(del, steps, w);
    }

    /** The rest of the walk leads to `goal`, with the ids `called` in all. */
    ghost predicate Leading(p: Stop, current: FilterData?, del: seq<FilterData>, conn: nat, msg: Msg, script: Script, goal: Stop, called: seq<nat>)
      reads this, table.Values
    {
      && At(p, current, del) && Calm(p, script)
      && Message(p, conn, msg, script) == goal && calls + Heard(p, conn, msg, script) == called
    }

    /** The loop over the listeners. */
    method WalkListeners(conn: nat, msg: Msg, script: Script, ghost start: Stop) returns (del: seq<FilterData>)
      requires Valid() && start == Start(State()) && Calm(start, script)
      modifies this`listeners, this`filters, this`rules, this`table, this`listenerId, this`calls, table.Values
      ensures At(Message(start, conn, msg, script), null, del) && KeptAll()
      ensures calls == old(calls) + Heard(start, conn, msg, script)
    {
      AllListed();
      var current: FilterData? := if listeners == [] then null else listeners[0];
      del := [];
      assert Serials(del) == [] && At(start, current, del);
      del := WalkFrom(current, conn, msg, script, start, Message(start, conn, msg, script), calls + Heard(start, conn, msg, script));
    }

    method WalkFrom(first: FilterData?, conn: nat, msg: Msg, script: Script, ghost start: Stop, ghost goal: Stop, ghost called: seq<nat>)
      returns (del: seq<FilterData>)
      requires Leading(start, first, [], conn, msg, script, goal, called)
      modifies this`listeners, this`filters, this`rules, this`table, this`listenerId, this`calls, table.Values
      ensures At(goal, null, del) && KeptAll() && calls == called
    {
      var current := first;
      del := [];
      ghost var p := start;
      while current != null
        invariant Leading(p, current, del, conn, msg, script, goal, called) && KeptAll() && old(listenerId) <= listenerId
        decreases U32 - p.state.counter, Rank(p.state, p.cur)
      {
        current, del, p := StepOn(current, del, conn, msg, script, p, goal, called);
      }
      NoMoreHeard(p, conn, msg, script);
    }

    /** A step of a calm walk, which stays calm and has the same end. */
    method StepOn(current: FilterData, del: seq<FilterData>, conn: nat, msg: Msg, script: Script, ghost p: Stop, ghost goal: Stop, ghost called: seq<nat>)
      returns (next: FilterData?, more: seq<FilterData>, ghost q: Stop)
      requires Leading(p, current, del, conn, msg, script, goal, called)
      modifies this`listeners, this`filters, this`rules, this`table, this`listenerId, this`calls, table.Values
      ensures Leading(q, next, more, conn, msg, script, goal, called) && KeptAll() && old(listenerId) <= listenerId
      ensures p.state.counter <= q.state.counter < U32
      ensures q.state.counter == p.state.counter ==> Rank(q.state, q.cur) < Rank(p.state, p.cur)
    {
      q := WalkStep(p, conn, msg, script, calls);
      next, more := Step(current, del, conn, msg, script, p);
    }

    /** The loop over those found empty, for some steps. It reads a record, so it goes on only while the
        record is listed. */
    method DeleteEmptied(del: seq<FilterData>, steps: nat, ghost w: Stop) returns (end: Phase)
      requires At(w, null, del)
      modifies this`listeners, this`filters, this`rules, this`table, table.Values
      ensures Valid() && Cleaning(State(), end) == CleanUp(w, steps)
    {
      end := Busy(0);
      var left := steps;
      while left > 0
        invariant Valid() && Remembered(del) && Serials(del) == w.del && KeptSome()
        invariant Clean(Cleaning(State(), end), w.del, left) == CleanUp(w, steps)
      {
        left := left - 1;
        end := DeletionStep(del, end, w.del);
      }
    }

    lemma ListedIff(data: FilterData)
      requires Valid() && (data.serial in table ==> table[data.serial] == data)
      ensures data in listeners <==> Has(data)
      ensures Has(data) <==> data.serial in State().at
    {
      if data.serial in table {
        var k :| 0 <= k < |listeners| && Serials(listeners)[k] == data.serial;
        assert Filed(listeners[k], table);
      }
      if data in listeners {
        var k :| 0 <= k < |listeners| && listeners[k] == data;
        assert Filed(listeners[k], table);
      }
    }

    /** One step of the deletion loop. */
    method DeletionStep(del: seq<FilterData>, phase: Phase, ghost serials: seq<nat>) returns (next: Phase)
      requires Valid() && Remembered(del) && Serials(del) == serials
      modifies this`listeners, this`filters, this`rules, this`table, table.Values
      ensures Valid() && Remembered(del) && KeptSome()
      ensures Cleaning(State(), next) == CleanStep(Cleaning(old(State()), phase), serials)
    {
      if !phase.Busy? {
        return phase;
      }
      if phase.entry >= |del| {
        return Finished;
      }
      var data := del[phase.entry];
      ListedIff(data);
      if data !in listeners {
        return Freed;
      }
      DeleteListener(data);
      next := Busy(1);
    }

    /** The deletion of a listener without callbacks. */
    method DeleteListener(data: FilterData)
      requires Valid() && Has(data)
      modifies this`listeners, this`filters, this`rules, this`table, table.Values
      ensures Valid() && KeptSome()
      ensures data.serial in old(State()).at && State() == DeleteEmpty(old(State()), data.serial)
    {
      if data.callbacks != [] {
        return;
      }
      Free(data);
      var _ := RemoveWatch(data.nameWatch);
    }

    /** The callback at the head of the list is called, if it has the function. */
    method Call(data: FilterData, msg: Msg, script: Script, ghost doomed: set<nat>)
      requires Valid() && Has(data) && Ready(State(), data.serial, msg, script, doomed) && data.callbacks != []
      modifies this`listeners, this`filters, this`rules, this`table, this`listenerId, this`calls, table.Values
      ensures Valid() && KeptAll() && Has(data)
      ensures State() == Called(old(State()), data.serial, msg, script)
      ensures calls == old(calls) + CallOf(data.handler, msg, old(data.callbacks)[0])
    {
      var cb := data.callbacks[0];
      if Calls(data.handler, msg, cb.func) {
        calls := calls + [cb.id];
        CallScript(data, msg, script, doomed);
      }
    }

    method CallScript(data: FilterData, msg: Msg, script: Script, ghost doomed: set<nat>)
      requires Valid() && Has(data) && Ready(State(), data.serial, msg, script, doomed) && data.callbacks != []
      requires Calls(data.handler, msg, data.callbacks[0].func)
      modifies this`listeners, this`filters, this`rules, this`table, this`listenerId, table.Values
      ensures Valid() && KeptAll() && Has(data)
      ensures State() == Called(old(State()), data.serial, msg, script)
    {
      ghost var s, d := State(), data.serial;
      CalledThere(s, d, msg, script, doomed);
      assert AllOk(s.at, s.counter, doomed);
      RunScript(script(data.callbacks[0].id).ops, doomed);
      StillHas(data);
    }

    /** The called callback goes to the end of the second list. */
    method MoveOn(data: FilterData, cb: Callback)
      requires Valid() && Has(data)
      modifies data`callbacks, data`processed
      ensures State() == old(State()).(at := old(State()).at[data.serial := Moved(old(data.View()), cb)])
    {
      data.callbacks := RemoveId(data.callbacks, cb.id);
      data.processed := data.processed + [cb];
      OneChanged(data);
    }
  }

  lemma TurnIs(s: State, d: nat, msg: Msg, script: Script, doomed: set<nat>)
    requires Ready(s, d, msg, script, doomed) && s.at[d].callbacks != []
    ensures var t := Called(s, d, msg, script);
      d in t.at && d in t.order && Turn(s, d, msg, script, doomed) == Settled(t, d, s.at[d], msg, script)
  {
    CalledThere(s, d, msg, script, doomed);
  }

  /** Calls do not change the rule or the handler of the listener in dispatch. */
  lemma CalledSame(s: State, d: nat, msg: Msg, script: Script, doomed: set<nat>)
    requires Ready(s, d, msg, script, doomed) && s.at[d].callbacks != []
    ensures var t := Called(s, d, msg, script); d in t.at && t.at[d].rule == s.at[d].rule
  {
    var gone := CalledOk(s, d, msg, script, doomed);
  }

  lemma FreshSerials(s: State, doomed: set<nat>)
    requires Inv(s, doomed)
    ensures forall d :: d in s.at ==> d <= s.counter
  {
  }

  /** One turn of a pass, with the calls made before. */
  lemma PassStep(s: State, d: nat, msg: Msg, script: Script, doomed: set<nat>, before: seq<nat>) returns (rest: Passed)
    requires Ready(s, d, msg, script, doomed) && s.at[d].callbacks != []
    ensures var t, r := Turn(s, d, msg, script, doomed), Pass(s, d, msg, script, doomed);
      && Ready(t, d, msg, script, doomed) && rest == Pass(t, d, msg, script, doomed) && rest.state == r.state
      && before + CallOf(s.at[d].handler, msg, s.at[d].callbacks[0]) + rest.called == before + r.called
  {
    TurnReady(s, d, msg, script, doomed);
    rest := Pass(Turn(s, d, msg, script, doomed), d, msg, script, doomed);
  }

  /** One visit of a walk, with the calls made before. */
  lemma WalkStep(p: Stop, conn: nat, msg: Msg, script: Script, before: seq<nat>) returns (q: Stop)
    requires Calm(p, script) && p.cur.Some?
    ensures q == NextStop(p, conn, msg, script) && Calm(q, script) && Message(q, conn, msg, script) == Message(p, conn, msg, script)
    ensures before + StopCalls(p, conn, msg, script) + Heard(q, conn, msg, script) == before + Heard(p, conn, msg, script)
    ensures p.state.counter <= q.state.counter < U32
    ensures q.state.counter == p.state.counter ==> Rank(q.state, q.cur) < Rank(p.state, p.cur)
  {
    NextCalm(p, conn, msg, script);
    q := NextStop(p, conn, msg, script);
    Joins(before, StopCalls(p, conn, msg, script), Heard(q, conn, msg, script));
  }

  lemma Joins(a: seq<nat>, b: seq<nat>, c: seq<nat>)
    ensures a + b + c == a + (b + c)
  {
  }

  lemma NoMoreHeard(p: Stop, conn: nat, msg: Msg, script: Script)
    requires Calm(p, script) && p.cur.None?
    ensures Heard(p, conn, msg, script) == [] && Message(p, conn, msg, script) == p
  {
  }

  ghost function Cursor(x: FilterData?): Option<nat> { if x == null then None else Some(x.serial) }

  lemma {:induction false} AfterAt(l: seq<nat>, i: nat)
    requires NoDup(l) && i < |l|
    ensures After(l, l[i]) == l[i + 1..]
  {
    if i > 0 {
      AfterAt(l[1..], i - 1);
    }
  }

  lemma DoOne(s: State, op: Op, doomed: set<nat>)
    requires Inv(s, doomed) && s.counter + 2 < U32
    ensures Inv(Apply(s, op), doomed) && s.counter <= Apply(s, op).counter <= s.counter + 2
  {
    match op {
      case AddOp(q) => AddInv(s, q, doomed);
      case RemoveOp(id) => RemoveWatchInv(s, id, doomed);
    }
  }

  /** The state with the listener that a watch joins, which is opened if need be. */
  ghost function Joinable(s: State, rule: Rule, handler: Handler): State {
    if FindMatch(s, s.order, rule).Some? then s else Opened(s, rule, handler)
  }

  lemma NextPlain(s: State, rule: Rule, handler: Handler, func: Func)
    requires s.counter + 1 < U32
    ensures NextId(s) == s.counter + 1 == AddPlain(s, rule, handler, func).counter
  {
  }

  lemma WatchNameSteps(t: State, d: nat)
    requires d in t.at && t.at[d].rule.name.Some? && t.at[d].nameWatch == 0
    ensures var u := AddPlain(t, ServiceRule(t.at[d].rule.conn, t.at[d].rule.name.value), ServiceFilter, SILENT);
      d in u.at && WatchName(t, d) == NameOn(u, d, NextId(t))
  {
  }

  /** Opening a listener if need be and adding a callback make one plain addition. */
  lemma PutSomewhere(s: State, rule: Rule, handler: Handler, func: Func)
    ensures var o, d, id := Joinable(s, rule, handler), Slot(s, rule), NextId(s);
      d in o.at && NextId(o) == id && AddPlain(s, rule, handler, func) == o.(counter := id, at := o.at[d := Put(o.at[d], Callback(id, func))])
  {
    FindMatchIn(s, s.order, rule);
    if FindMatch(s, s.order, rule).None? {
      var o, id, c := Opened(s, rule, handler), NextId(s), Callback(NextId(s), func);
      assert [] + [c] == [c];
      assert o.at[id := Put(o.at[id], c)] == s.at[id := Listener(rule, handler, [c], [], 0, false)];
    }
  }

  lemma {:induction false} FindMatchAt(s: State, l: seq<nat>, i: nat, rule: Rule)
    requires i < |l| && l[i] in s.at && s.at[l[i]].rule == rule
    requires forall k :: 0 <= k < i ==> !(l[k] in s.at && s.at[l[k]].rule == rule)
    ensures FindMatch(s, l, rule) == Some(l[i])
  {
    if i > 0 {
      FindMatchAt(s, l[1..], i - 1, rule);
    }
  }

  lemma {:induction false} FindMatchNowhere(s: State, l: seq<nat>, rule: Rule)
    requires forall k :: 0 <= k < |l| ==> !(l[k] in s.at && s.at[l[k]].rule == rule)
    ensures FindMatch(s, l, rule) == None
  {
    if l != [] {
      FindMatchNowhere(s, l[1..], rule);
    }
  }

  lemma {:induction false} HolderAt(s: State, l: seq<nat>, i: nat, id: nat)
    requires i < |l| && l[i] in s.at && HasId(All(s.at[l[i]]), id)
    requires forall k :: 0 <= k < i ==> !(l[k] in s.at && HasId(All(s.at[l[k]]), id))
    ensures Holder(s, l, id) == Some(l[i])
  {
    if i > 0 {
      HolderAt(s, l[1..], i - 1, id);
    }
  }

  lemma {:induction false} HolderNowhere(s: State, l: seq<nat>, id: nat)
    requires forall k :: 0 <= k < |l| ==> !(l[k] in s.at && HasId(All(s.at[l[k]]), id))
    ensures Holder(s, l, id) == None
  {
    if l != [] {
      HolderNowhere(s, l[1..], id);
    }
  }

  lemma {:induction false} SameSearch(s: State, t: State, l: seq<nat>, rule: Rule)
    requires t.at == s.at
    ensures FindMatch(t, l, rule) == FindMatch(s, l, rule)
  {
    if l != [] {
      SameSearch(s, t, l[1..], rule);
    }
  }

  lemma DelistShorter(l: seq<FilterData>, t: map<nat, FilterData>, x: FilterData)
    requires Linked(l, t) && Filed(x, t)
    ensures Linked(RemoveFirst(l, x), t - {x.serial}) && Serials(RemoveFirst(l, x)) == RemoveFirst(Serials(l), x.serial)
    ensures |RemoveFirst(l, x)| < |l|
  {
    LinkedLess(l, t, x);
    RemoveFirstShorter(Serials(l), x.serial);
    assert x.serial in Serials(l);
  }

  lemma UnlistIs(s: State, d: nat)
    requires d in s.at
    ensures var t, conn := Delisted(s, d), s.at[d].rule.conn;
      Unlist(s, d) == if Listens(t, conn) then t else t.(filters := t.filters - multiset{conn})
  {
  }

  /** The state without a listener and its match rule. */
  ghost function Delisted(s: State, d: nat): State
    requires d in s.at
  {
    s.(order := RemoveFirst(s.order, d), at := s.at - {d}, rules := s.rules - multiset{BusRule(s.at[d].rule)})
  }

  /** A new listener without callbacks. */
  ghost function Opened(s: State, rule: Rule, handler: Handler): State {
    WithListener(WithFilter(s, rule.conn), rule, handler)
  }

  ghost function WithListener(s: State, rule: Rule, handler: Handler): State {
    var id := NextId(s);
    s.(order := s.order + [id],
      at := s.at[id := Listener(rule, handler, [], [], 0, false)],
      rules := s.rules + multiset{BusRule(rule)})
  }

  /** The filter does not matter to the search, and is there already if a listener is found. */
  lemma FilterFirst(s: State, rule: Rule, handler: Handler)
    ensures var t := WithFilter(s, rule.conn);
      && FindMatch(t, t.order, rule) == FindMatch(s, s.order, rule) && NextId(t) == NextId(s)
      && Joinable(s, rule, handler) == if FindMatch(s, s.order, rule).Some? then t else WithListener(t, rule, handler)
  {
    SameSearch(s, WithFilter(s, rule.conn), s.order, rule);
    FindMatchIn(s, s.order, rule);
  }
}
