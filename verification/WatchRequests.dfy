/** From the call that adds a watch to the signals that call it. */
module WatchRequests {
  import opened Lists
  import opened WatchModel
  import opened WatchInvariant
  import opened WatchRefinement
  import opened WatchDispatch
  import opened WatchMessage
  import opened WatchWalk
  import opened WatchQuiet
  import opened WatchCalls
  import opened WatchHeard

  predicate Same(want: Option<string>, have: Option<string>) { want.Some? ==> have.Some? && want.value == have.value }

  /** A sender that begins with a colon is asked for itself, any other one by its owner, once that is known. */
  predicate SentBy(sender: Option<string>, owner: Option<string>, msg: Msg) {
    match sender
    case None => true
    case Some(name) => if |name| > 0 && name[0] == ':' then msg.sender == Some(name) else Same(owner, msg.sender)
  }

  /** The signals that a watch is made for; `owner` is what is known of the owner of its sender's name. */
  predicate MadeFor(q: Request, owner: Option<string>, conn: nat, msg: Msg) {
    match q
    case SignalWatch(on, sender, path, iface, member, func) =>
      && func && on == conn && SentBy(sender, owner, msg)
      && Same(path, msg.path) && Same(iface, msg.iface) && Same(member, msg.member)
    case PropertiesWatch(on, sender, path, iface, func) =>
      && func && on == conn && SentBy(sender, owner, msg) && Same(path, msg.path) && Same(iface, msg.arg)
      && msg.iface == Some("org.freedesktop.DBus.Properties") && msg.member == Some("PropertiesChanged")
    case ServiceWatch(on, service, connect, disconnect) =>
      && on == conn && msg.iface == Some("org.freedesktop.DBus") && msg.member == Some("NameOwnerChanged") && msg.arg == Some(service)
      && msg.change.Some? && (if msg.change.value.owner == "" then disconnect else connect)
  }

  /** The name of a sender without a colon. */
  function SenderName(q: Request): Option<string> {
    var sender := if q.ServiceWatch? then None else q.sender;
    if sender.Some? && !(|sender.value| > 0 && sender.value[0] == ':') then sender else None
  }

  /** The listener of the request, with `owner` for its sender's name, asks for exactly the signals it is made for. */
  lemma RequestAsks(q: Request, owner: Option<string>, conn: nat, msg: Msg)
    requires owner.Some? ==> SenderName(q).Some?
    ensures var rule := if owner.Some? then RuleOf(q).(owner := owner) else RuleOf(q);
      Asks(rule, conn, msg) && Answers(HandlerOf(q), msg, FuncOf(q)) <==> MadeFor(q, owner, conn, msg)
  {
  }

  lemma RequestName(q: Request)
    ensures RuleOf(q).name == SenderName(q)
  {
  }

  /** Where a new watch is. */
  lemma AddedAt(s: State, q: Request)
    requires Inv(s, {}) && NobodyLocked(s.at) && s.counter + 2 < U32
    ensures var t, d := Add(s, q), Slot(s, RuleOf(q));
      d in t.at && t.at[d].rule == RuleOf(q) && t.at[d].handler == HandlerOf(q) && Callback(s.counter + 1, FuncOf(q)) in t.at[d].callbacks
  {
    RequestFits(q);
    var d, t := Slot(s, RuleOf(q)), AddPlain(s, RuleOf(q), HandlerOf(q), FuncOf(q));
    var c := Callback(s.counter + 1, FuncOf(q));
    AddPlainNew(s, RuleOf(q), HandlerOf(q), FuncOf(q), {});
    AddPlainInv(s, RuleOf(q), HandlerOf(q), FuncOf(q), {});
    assert c in t.at[d].callbacks;
    NamedSame(t, d, c);
  }

  lemma NamedSame(t: State, d: nat, c: Callback)
    requires Inv(t, {}) && t.counter + 1 < U32 && d in t.at && c in t.at[d].callbacks
    ensures var u := WatchName(t, d);
      d in u.at && u.at[d].rule == t.at[d].rule && u.at[d].handler == t.at[d].handler && c in u.at[d].callbacks
  {
    var x := t.at[d];
    if x.rule.name.Some? && x.nameWatch == 0 {
      var rule := ServiceRule(x.rule.conn, x.rule.name.value);
      WatchNameIs(t, d, {});
      AddPlainNew(t, rule, ServiceFilter, SILENT, {});
    }
  }

  /** A new watch and the next signal, whatever its callbacks do: at its turn it is called exactly if the
      signal is one that it is made for and no callback of the same listener called before removes it. The
      owner of its sender is known then if this very signal has told it. */
  lemma NewWatchTurn(s: State, q: Request, conn: nat, msg: Msg, script: Script) returns (p: Stop, owner: Option<string>)
    requires Inv(s, {}) && NobodyLocked(s.at) && s.counter + 2 < U32 && Rest(Add(s, q), script)
    ensures Calm(Start(Add(s, q)), script) && OnWalk(Start(Add(s, q)), p, conn, msg, script) && Calm(p, script)
    ensures owner.Some? ==> msg.change.Some? && SenderName(q) == Some(msg.change.value.name) && owner.value == msg.change.value.owner
    ensures var d, id, called := Slot(s, RuleOf(q)), s.counter + 1, SignalCalls(Add(s, q), conn, msg, script);
      if At(p.state.at, d, id) then p.cur == Some(d) && CalledAsMade(p, q, owner, conn, msg, script, id, called) else id !in called
    ensures Quiet(script) ==> At(p.state.at, Slot(s, RuleOf(q)), s.counter + 1)
  {
    AddedAt(s, q);
    p, owner := TurnOfRequest(Add(s, q), q, conn, msg, script, Slot(s, RuleOf(q)), Callback(s.counter + 1, FuncOf(q)));
  }

  lemma TurnOfRequest(t: State, q: Request, conn: nat, msg: Msg, script: Script, d: nat, c: Callback) returns (p: Stop, owner: Option<string>)
    requires Rest(t, script) && d in t.at && c in t.at[d].callbacks && c.func == FuncOf(q)
    requires t.at[d].rule == RuleOf(q) && t.at[d].handler == HandlerOf(q)
    ensures Calm(Start(t), script) && OnWalk(Start(t), p, conn, msg, script) && Calm(p, script)
    ensures owner.Some? ==> msg.change.Some? && SenderName(q) == Some(msg.change.value.name) && owner.value == msg.change.value.owner
    ensures var called := SignalCalls(t, conn, msg, script);
      if At(p.state.at, d, c.id) then p.cur == Some(d) && CalledAsMade(p, q, owner, conn, msg, script, c.id, called) else c.id !in called
    ensures Quiet(script) ==> At(p.state.at, d, c.id)
  {
    p := CalledIffAsked(t, conn, msg, script, d, c);
    owner := None;
    RequestName(q);
    if At(p.state.at, d, c.id) {
      owner := if p.state.at[d].rule == RuleOf(q) then None else Some(msg.change.value.owner);
      AskedIsMade(p, q, owner, conn, msg, script, c, SignalCalls(t, conn, msg, script));
    }
  }

  lemma AskedIsMade(p: Stop, q: Request, owner: Option<string>, conn: nat, msg: Msg, script: Script, c: Callback, called: seq<nat>)
    requires Calm(p, script) && p.cur.Some? && CalledAsAsked(p, conn, msg, script, c, called) && c.func == FuncOf(q)
    requires var x := p.state.at[p.cur.value];
      x.handler == HandlerOf(q) && x.rule == if owner.Some? then RuleOf(q).(owner := owner) else RuleOf(q)
    requires owner.Some? ==> SenderName(q).Some?
    ensures CalledAsMade(p, q, owner, conn, msg, script, c.id, called)
  {
    RequestAsks(q, owner, conn, msg);
  }

  ghost predicate CalledAsMade(p: Stop, q: Request, owner: Option<string>, conn: nat, msg: Msg, script: Script, id: nat, called: seq<nat>)
    requires Calm(p, script) && p.cur.Some?
  {
    var l := p.state.at[p.cur.value].callbacks;
    exists j :: 0 <= j < |l| && l[j].id == id &&
      (id in called <==> MadeFor(q, owner, conn, msg) && Spared(l, StopCalls(p, conn, msg, script), script, j))
  }

  /** A signal that tells the owner of the very name a watch has as sender may in addition be asked to come
      from that owner. */
  predicate CalledFor(q: Request, conn: nat, msg: Msg, called: bool) {
    if msg.change.Some? && SenderName(q) == Some(msg.change.value.name)
    then (MadeFor(q, Some(msg.change.value.owner), conn, msg) ==> called) && (called ==> MadeFor(q, None, conn, msg))
    else called <==> MadeFor(q, None, conn, msg)
  }

  /** A new watch and the next signal, if callbacks leave the registry alone: it is called exactly if the
      signal is one that it is made for. */
  lemma NewWatchCalled(s: State, q: Request, conn: nat, msg: Msg, script: Script)
    requires Inv(s, {}) && NobodyLocked(s.at) && s.counter + 2 < U32 && Rest(Add(s, q), script) && Quiet(script)
    ensures CalledFor(q, conn, msg, s.counter + 1 in SignalCalls(Add(s, q), conn, msg, script))
  {
    var owner := NewWatchQuiet(s, q, conn, msg, script);
    OwnerAside(q, owner, conn, msg, s.counter + 1 in SignalCalls(Add(s, q), conn, msg, script));
  }

  lemma NewWatchQuiet(s: State, q: Request, conn: nat, msg: Msg, script: Script) returns (owner: Option<string>)
    requires Inv(s, {}) && NobodyLocked(s.at) && s.counter + 2 < U32 && Rest(Add(s, q), script) && Quiet(script)
    ensures owner.Some? ==> msg.change.Some? && SenderName(q) == Some(msg.change.value.name) && owner.value == msg.change.value.owner
    ensures s.counter + 1 in SignalCalls(Add(s, q), conn, msg, script) <==> MadeFor(q, owner, conn, msg)
  {
    var p, made := NewWatchTurn(s, q, conn, msg, script);
    owner := made;
  }

  lemma OwnerAside(q: Request, owner: Option<string>, conn: nat, msg: Msg, called: bool)
    requires owner.Some? ==> msg.change.Some? && SenderName(q) == Some(msg.change.value.name) && owner.value == msg.change.value.owner
    requires called <==> MadeFor(q, owner, conn, msg)
    ensures CalledFor(q, conn, msg, called)
  {
  }

  // ---- what the bus is asked for ----

  /** The rule names the sender, path, interface, member and first argument of the request, and no other. */
  predicate Names(rule: Rule, q: Request) {
    var sender := if rule.name.Some? then rule.name else rule.owner;
    && rule.conn == q.conn && (rule.name.Some? ==> rule.owner.None?)
    && match q
       case SignalWatch(_, from, path, iface, member, _) =>
         sender == from && rule.path == path && rule.iface == iface && rule.member == member && rule.argument.None?
       case PropertiesWatch(_, from, path, iface, _) =>
         && sender == from && rule.path == path && rule.argument == iface
         && rule.iface == Some("org.freedesktop.DBus.Properties") && rule.member == Some("PropertiesChanged")
       case ServiceWatch(_, service, _, _) =>
         && sender.None? && rule.path.None? && rule.argument == Some(service)
         && rule.iface == Some("org.freedesktop.DBus") && rule.member == Some("NameOwnerChanged")
  }

  /** After a watch is added, the bus has been asked for its signals. */
  lemma RuleAdded(s: State, q: Request)
    requires Inv(s, {}) && NobodyLocked(s.at) && s.counter + 2 < U32
    ensures exists r :: r in Add(s, q).rules && Names(r, q)
  {
    AddInv(s, q, {});
    AddedAt(s, q);
    var t := Add(s, q);
    RulesHave(t.order, t.at, Slot(s, RuleOf(q)));
    assert Names(BusRule(RuleOf(q)), q);
  }
}
