/** The registry of D-Bus watches on values: listeners, their callbacks, match rules and the one
    connection filter. Listeners are named by numbers in place of their addresses. */
module WatchModel {
  import opened Lists

  const U32 := 0x1_0000_0000

  /** What a listener listens to. */
  datatype Rule = Rule(
    conn: nat,
    name: Option<string>,
    owner: Option<string>,
    path: Option<string>,
    iface: Option<string>,
    member: Option<string>,
    argument: Option<string>)

  /** Which of the three function pointers of a callback are set. */
  datatype Func = Func(signal: bool, conn: bool, disc: bool)

  const SILENT := Func(false, false, false)

  datatype Handler = SignalFilter | ServiceFilter

  datatype Callback = Callback(id: nat, func: Func)

  datatype Listener = Listener(
    rule: Rule,
    handler: Handler,
    callbacks: seq<Callback>,
    processed: seq<Callback>,
    nameWatch: nat,
    lock: bool)

  /** `order` is the list of listeners, `filters` counts the installed message filters by connection and
      `rules` the match rules registered with the bus. */
  datatype State = State(
    order: seq<nat>,
    at: map<nat, Listener>,
    counter: nat,
    filters: multiset<nat>,
    rules: multiset<Rule>)

  // ---- requests ----

  datatype Request =
    | SignalWatch(conn: nat, sender: Option<string>, path: Option<string>, iface: Option<string>, member: Option<string>, func: bool)
    | PropertiesWatch(conn: nat, sender: Option<string>, path: Option<string>, iface: Option<string>, func: bool)
    | ServiceWatch(conn: nat, service: string, connect: bool, disconnect: bool)

  predicate Unique(sender: string) { sender != [] && sender[0] == ':' }

  function OwnerPart(sender: Option<string>): Option<string> {
    if sender.Some? && Unique(sender.value) then sender else None
  }

  function NamePart(sender: Option<string>): Option<string> {
    if sender.Some? && !Unique(sender.value) then sender else None
  }

  function ServiceRule(conn: nat, service: string): Rule {
    Rule(conn, None, None, None, Some("org.freedesktop.DBus"), Some("NameOwnerChanged"), Some(service))
  }

  function RuleOf(q: Request): Rule {
    match q
    case SignalWatch(conn, sender, path, iface, member, _) =>
      Rule(conn, NamePart(sender), OwnerPart(sender), path, iface, member, None)
    case PropertiesWatch(conn, sender, path, iface, _) =>
      Rule(conn, NamePart(sender), OwnerPart(sender), path, Some("org.freedesktop.DBus.Properties"),
        Some("PropertiesChanged"), iface)
    case ServiceWatch(conn, service, _, _) => ServiceRule(conn, service)
  }

  function HandlerOf(q: Request): Handler { if q.ServiceWatch? then ServiceFilter else SignalFilter }

  function FuncOf(q: Request): Func {
    match q
    case SignalWatch(_, _, _, _, _, f) => Func(f, false, false)
    case PropertiesWatch(_, _, _, _, f) => Func(f, false, false)
    case ServiceWatch(_, _, c, d) => Func(false, c, d)
  }

  /** The sender in a match rule is the name if there is one; the cached owner does not count. */
  function BusRule(r: Rule): Rule { if r.name.Some? then r.(owner := None) else r }

  // ---- lookup ----

  /** `filter_data_find`. */
  predicate Listens(s: State, conn: nat) { exists d :: d in s.at && s.at[d].rule.conn == conn }

  /** `filter_data_find_match`: the first listener with exactly this rule. */
  function FindMatch(s: State, l: seq<nat>, rule: Rule): Option<nat> {
    if l == [] then None
    else if l[0] in s.at && s.at[l[0]].rule == rule then Some(l[0])
    else FindMatch(s, l[1..], rule)
  }

  function All(x: Listener): seq<Callback> { x.callbacks + x.processed }

  predicate HasId(l: seq<Callback>, id: nat) { exists k :: 0 <= k < |l| && l[k].id == id }

  /** The search of `g_dbus_remove_watch`. */
  function Holder(s: State, l: seq<nat>, id: nat): Option<nat> {
    if l == [] then None
    else if l[0] in s.at && HasId(All(s.at[l[0]]), id) then Some(l[0])
    else Holder(s, l[1..], id)
  }

  lemma {:induction false} FindMatchIn(s: State, l: seq<nat>, rule: Rule)
    ensures FindMatch(s, l, rule).Some? ==>
      var d := FindMatch(s, l, rule).value; d in l && d in s.at && s.at[d].rule == rule
    ensures FindMatch(s, l, rule).None? ==> forall d :: d in l && d in s.at ==> s.at[d].rule != rule
  {
    if l != [] {
      FindMatchIn(s, l[1..], rule);
    }
  }

  lemma {:induction false} HolderIn(s: State, l: seq<nat>, id: nat)
    ensures Holder(s, l, id).Some? ==>
      var d := Holder(s, l, id).value; d in l && d in s.at && HasId(All(s.at[d]), id)
    ensures Holder(s, l, id).None? ==> forall d :: d in l && d in s.at ==> !HasId(All(s.at[d]), id)
  {
    if l != [] {
      HolderIn(s, l[1..], id);
    }
  }

  // ---- adding ----

  /** `++listener_id` on a 32-bit counter; a new listener is named by the id of its first callback. */
  function NextId(s: State): nat { (s.counter + 1) % U32 }

  function WithFilter(s: State, conn: nat): State {
    if Listens(s, conn) then s else s.(filters := s.filters + multiset{conn})
  }

  function Put(x: Listener, c: Callback): Listener {
    if x.lock then x.(processed := x.processed + [c]) else x.(callbacks := x.callbacks + [c])
  }

  /** The listener that a watch with this rule joins. */
  function Slot(s: State, rule: Rule): nat {
    match FindMatch(s, s.order, rule)
    case Some(d) => d
    case None => NextId(s)
  }

  /** `filter_data_get` and `filter_data_add_callback`. */
  function AddPlain(s: State, rule: Rule, handler: Handler, func: Func): (t: State)
    ensures Slot(s, rule) in t.at
  {
    FindMatchIn(s, s.order, rule);
    var id := NextId(s);
    var c := Callback(id, func);
    match FindMatch(s, s.order, rule)
    case Some(d) => s.(counter := id, at := s.at[d := Put(s.at[d], c)])
    case None =>
      WithFilter(s, rule.conn).(
        counter := id,
        order := s.order + [id],
        at := s.at[id := Listener(rule, handler, [c], [], 0, false)],
        rules := s.rules + multiset{BusRule(rule)})
  }

  /** The internal watch on the owner of a listener's well-known name. */
  function WatchName(s: State, d: nat): State
    requires d in s.at
  {
    var x := s.at[d];
    if x.rule.name.Some? && x.nameWatch == 0 then
      var t := AddPlain(s, ServiceRule(x.rule.conn, x.rule.name.value), ServiceFilter, SILENT);
      if d in t.at then t.(at := t.at[d := t.at[d].(nameWatch := NextId(s))]) else t
    else s
  }

  /** `g_dbus_add_signal_watch`, `g_dbus_add_properties_watch` and `g_dbus_add_service_watch`; the id is `NextId(s)`. */
  function Add(s: State, q: Request): State {
    WatchName(AddPlain(s, RuleOf(q), HandlerOf(q), FuncOf(q)), Slot(s, RuleOf(q)))
  }

  // ---- removing ----

  function RemoveId(l: seq<Callback>, id: nat): seq<Callback> {
    if l == [] then []
    else if l[0].id == id then l[1..]
    else [l[0]] + RemoveId(l[1..], id)
  }

  lemma {:induction false} RemoveFirstShorter(l: seq<nat>, d: nat)
    ensures |RemoveFirst(l, d)| == if d in l then |l| - 1 else |l|
  {
    if l != [] && l[0] != d {
      RemoveFirstShorter(l[1..], d);
    }
  }

  function WithoutId(x: Listener, id: nat): Listener {
    x.(callbacks := RemoveId(x.callbacks, id), processed := RemoveId(x.processed, id))
  }

  /** A listener leaves the list; its match rule goes, and the filter with the last listener of a connection. */
  function Unlist(s: State, d: nat): State
    requires d in s.at
  {
    var x := s.at[d];
    var t := s.(order := RemoveFirst(s.order, d), at := s.at - {d}, rules := s.rules - multiset{BusRule(x.rule)});
    if Listens(t, x.rule.conn) then t else t.(filters := t.filters - multiset{x.rule.conn})
  }

  /** `filter_data_remove_callback`, with `filter_data_free` and the name watch it removes. */
  function RemoveCallback(s: State, d: nat, id: nat): State
    requires d in s.at && d in s.order
    decreases |s.order|, 0
  {
    RemoveFirstShorter(s.order, d);
    var y := WithoutId(s.at[d], id);
    var t := s.(at := s.at[d := y]);
    if y.callbacks != [] || y.lock then t else RemoveWatch(Unlist(t, d), y.nameWatch)
  }

  /** `g_dbus_remove_watch`. */
  function RemoveWatch(s: State, id: nat): State
    decreases |s.order|, 1
  {
    HolderIn(s, s.order, id);
    if id == 0 then s
    else
      match Holder(s, s.order, id)
      case None => s
      case Some(d) => RemoveCallback(s, d, id)
  }

  // ---- invariants ----

  ghost predicate Distinct(l: seq<Callback>) { forall i, j :: 0 <= i < j < |l| ==> l[i].id != l[j].id }

  ghost predicate InRange(l: seq<Callback>, n: nat) { forall c :: c in l ==> 1 <= c.id <= n }

  /** Owner-change rules, and only they, are handled by the service filter. */
  predicate Fits(rule: Rule, handler: Handler) {
    handler == ServiceFilter <==> rule.member == Some("NameOwnerChanged") && rule.argument.Some?
  }

  /** One listener: distinct used ids; callbacks, unless it is being dispatched or about to be deleted. */
  ghost predicate ListenerOk(x: Listener, n: nat, doomed: bool) {
    && Distinct(All(x)) && InRange(All(x), n) && Fits(x.rule, x.handler)
    && x.nameWatch <= n && (x.rule.name.None? ==> x.nameWatch == 0)
    && (!x.lock ==> x.processed == [] && (doomed || x.callbacks != []))
  }

  ghost predicate Apart(x: Listener, y: Listener) {
    forall c, e :: c in All(x) && e in All(y) ==> c.id != e.id
  }

  /** The internal watch of `x`, if it still exists, is a silent one of a listener for owner changes. */
  ghost predicate NameOk(x: Listener, y: Listener) {
    x.nameWatch != 0 ==>
      forall c :: c in All(y) && c.id == x.nameWatch ==> y.rule.name.None? && y.handler == ServiceFilter && c.func == SILENT
  }

  ghost predicate Shape(s: State) { NoDup(s.order) && forall d :: d in s.order <==> d in s.at }

  ghost predicate AllOk(at: map<nat, Listener>, n: nat, doomed: set<nat>) {
    && (forall d :: d in at ==> 1 <= d <= n)
    && forall d {:trigger ListenerOk(at[d], n, d in doomed)} :: d in at ==> ListenerOk(at[d], n, d in doomed)
  }

  ghost predicate AllApart(at: map<nat, Listener>) {
    forall d, e {:trigger Apart(at[d], at[e])} :: d in at && e in at && d != e ==> Apart(at[d], at[e])
  }

  ghost predicate AllNamed(at: map<nat, Listener>) {
    forall d, e {:trigger NameOk(at[d], at[e])} :: d in at && e in at ==> NameOk(at[d], at[e])
  }

  ghost predicate Core(s: State, doomed: set<nat>) {
    Shape(s) && s.counter < U32 && AllOk(s.at, s.counter, doomed) && AllApart(s.at) && AllNamed(s.at)
  }

  /** The filter is installed once exactly while the connection has a listener. */
  ghost predicate FilterOk(s: State) { forall c :: s.filters[c] == if Listens(s, c) then 1 else 0 }

  function BusRules(l: seq<nat>, at: map<nat, Listener>): multiset<Rule> {
    if l == [] then multiset{}
    else BusRules(l[1..], at) + if l[0] in at then multiset{BusRule(at[l[0]].rule)} else multiset{}
  }

  /** Every listener has its match rule registered once. */
  ghost predicate RulesOk(s: State) { s.rules == BusRules(s.order, s.at) }

  ghost predicate Inv(s: State, doomed: set<nat>) { Core(s, doomed) && FilterOk(s) && RulesOk(s) }

  const EMPTY := State([], map[], 0, multiset{}, multiset{})

  lemma EmptyOk()
    ensures Inv(EMPTY, {})
  {
  }
}
