/** Dispatching one message to one listener while its callbacks add and remove watches. */
module WatchDispatch {
  import opened Lists
  import opened WatchModel
  import opened WatchInvariant
  import opened WatchRefinement

  /** What a signal says about the owner of a bus name. */
  datatype Change = Change(name: string, owner: string)

  /** A signal; `change` is there if it has exactly three string arguments. */
  datatype Msg = Msg(
    sender: Option<string>,
    path: Option<string>,
    iface: Option<string>,
    member: Option<string>,
    arg: Option<string>,
    change: Option<Change>)

  /** What a callback does to the registry when it is called, and the value it returns. */
  datatype Reaction = Reaction(ops: seq<Op>, keep: bool)

  type Script = nat -> Reaction

  predicate Calls(handler: Handler, msg: Msg, f: Func) {
    match handler
    case SignalFilter => f.signal
    case ServiceFilter => msg.change.Some? && if msg.change.value.owner == "" then f.disc else f.conn
  }

  /** A one-shot watch on a unique name goes after its first event. */
  predicate AutoRemove(rule: Rule, f: Func) {
    rule.argument.Some? && Unique(rule.argument.value) && (!f.conn || !f.disc)
  }

  /** The watch is removed after its turn. */
  predicate Drops(rule: Rule, handler: Handler, msg: Msg, f: Func, keep: bool) {
    match handler
    case SignalFilter => Calls(handler, msg, f) && !keep
    case ServiceFilter => AutoRemove(rule, f)
  }

  function Removals(ops: seq<Op>): set<nat> { set k | 0 <= k < |ops| && ops[k].RemoveOp? :: ops[k].id }

  // ---- filtered lists ----

  function Keep(l: seq<Callback>, gone: set<nat>): seq<Callback> {
    if l == [] then []
    else if l[0].id in gone then Keep(l[1..], gone)
    else [l[0]] + Keep(l[1..], gone)
  }

  /** The callbacks with a function that have an id up to `n`. */
  function Voice(l: seq<Callback>, n: nat): seq<Callback> {
    if l == [] then []
    else if l[0].func != SILENT && l[0].id <= n then [l[0]] + Voice(l[1..], n)
    else Voice(l[1..], n)
  }

  lemma {:induction false} KeepConcat(a: seq<Callback>, b: seq<Callback>, g: set<nat>)
    ensures Keep(a + b, g) == Keep(a, g) + Keep(b, g)
  {
    if a == [] {
      assert a + b == b;
    } else {
      assert (a + b)[1..] == a[1..] + b;
      KeepConcat(a[1..], b, g);
    }
  }

  lemma {:induction false} VoiceConcat(a: seq<Callback>, b: seq<Callback>, n: nat)
    ensures Voice(a + b, n) == Voice(a, n) + Voice(b, n)
  {
    if a == [] {
      assert a + b == b;
    } else {
      assert (a + b)[1..] == a[1..] + b;
      VoiceConcat(a[1..], b, n);
    }
  }

  lemma {:induction false} KeepTwice(l: seq<Callback>, a: set<nat>, b: set<nat>)
    ensures Keep(Keep(l, a), b) == Keep(l, a + b)
  {
    if l != [] {
      KeepTwice(l[1..], a, b);
    }
  }

  lemma {:induction false} KeepMembers(l: seq<Callback>, g: set<nat>)
    ensures |Keep(l, g)| <= |l| && (l != [] && l[0].id in g ==> |Keep(l, g)| < |l|)
    ensures forall c :: c in Keep(l, g) <==> c in l && c.id !in g
  {
    if l != [] {
      KeepMembers(l[1..], g);
      assert l == [l[0]] + l[1..];
    }
  }

  lemma {:induction false} KeepNone(l: seq<Callback>, g: set<nat>)
    requires forall c :: c in l ==> c.id !in g
    ensures Keep(l, g) == l
  {
    if l != [] {
      assert l[0] in l;
      KeepNone(l[1..], g);
    }
  }

  lemma {:induction false} RemoveIdIsKeep(l: seq<Callback>, id: nat)
    requires Distinct(l)
    ensures RemoveId(l, id) == Keep(l, {id})
  {
    if l != [] {
      if l[0].id == id {
        assert forall c :: c in l[1..] ==> c.id != id;
        KeepNone(l[1..], {id});
      } else {
        RemoveIdIsKeep(l[1..], id);
      }
    }
  }

  lemma {:induction false} VoiceNone(l: seq<Callback>, n: nat)
    requires forall c :: c in l ==> c.id > n
    ensures Voice(l, n) == []
  {
    if l != [] {
      assert l[0] in l;
      VoiceNone(l[1..], n);
    }
  }

  /** The voices only depend on what is removed of the callbacks with a function. */
  lemma {:induction false} VoiceAgrees(l: seq<Callback>, g: set<nat>, h: set<nat>, n: nat)
    requires forall c :: c in l && c.func != SILENT ==> (c.id in g <==> c.id in h)
    ensures Voice(Keep(l, g), n) == Voice(Keep(l, h), n)
  {
    if l != [] {
      assert l[0] in l;
      VoiceAgrees(l[1..], g, h, n);
    }
  }

  lemma {:induction false} VoiceKeep(l: seq<Callback>, g: set<nat>, n: nat)
    ensures Voice(Keep(l, g), n) == Keep(Voice(l, n), g)
  {
    if l != [] {
      VoiceKeep(l[1..], g, n);
    }
  }

  // ---- what the callbacks of other watches do to a locked listener ----

  /** `y` is what became of the locked listener `x`: the callbacks in `gone` are removed from both lists,
      and newer ones are only in the second. */
  ghost predicate Worn(x: Listener, y: Listener, gone: set<nat>, n: nat) {
    && y.lock && y.rule == x.rule && y.handler == x.handler
    && y.callbacks == Keep(x.callbacks, gone)
    && |y.processed| >= |Keep(x.processed, gone)|
    && y.processed[..|Keep(x.processed, gone)|] == Keep(x.processed, gone)
    && forall k :: |Keep(x.processed, gone)| <= k < |y.processed| ==> y.processed[k].id > n
  }

  /** Of the callbacks of `x` with a function, exactly those in `asked` are in `gone`. */
  ghost predicate AsAsked(x: Listener, gone: set<nat>, asked: set<nat>) {
    forall c :: c in All(x) && c.func != SILENT ==> (c.id in gone <==> c.id in asked)
  }

  lemma WornNone(x: Listener, n: nat)
    requires x.lock
    ensures Worn(x, x, {}, n)
  {
    KeepNone(x.callbacks, {});
    KeepNone(x.processed, {});
  }

  lemma WornTwice(x: Listener, y: Listener, z: Listener, g: set<nat>, h: set<nat>, n: nat)
    requires Worn(x, y, g, n) && Worn(y, z, h, n)
    ensures Worn(x, z, g + h, n)
  {
    KeepTwice(x.callbacks, g, h);
    KeepTwice(x.processed, g, h);
    var p := Keep(x.processed, g);
    var q := y.processed[|p|..];
    assert y.processed == p + q;
    KeepConcat(p, q, h);
    KeepMembers(q, h);
    forall k | |Keep(x.processed, g + h)| <= k < |z.processed| ensures z.processed[k].id > n {
      if k < |Keep(y.processed, h)| {
        assert z.processed[k] == Keep(y.processed, h)[k] == Keep(q, h)[k - |Keep(p, h)|];
        assert Keep(q, h)[k - |Keep(p, h)|] in Keep(q, h);
      }
    }
  }

  lemma AskedTwice(x: Listener, y: Listener, g: set<nat>, h: set<nat>, a: set<nat>, b: set<nat>, n: nat)
    requires Worn(x, y, g, n) && AsAsked(x, g, a) && AsAsked(y, h, b)
    ensures AsAsked(x, g + h, a + b)
  {
    KeepMembers(x.callbacks, g);
    KeepMembers(x.processed, g);
    forall c | c in All(x) && c.func != SILENT ensures c.id in g + h <==> c.id in a + b {
      if c.id !in g {
        assert c in Keep(x.callbacks, g) || c in Keep(x.processed, g);
        assert c in All(y);
      }
    }
  }

  lemma PutWorn(x: Listener, c: Callback, n: nat)
    requires x.lock && c.id > n
    ensures Worn(x, Put(x, c), {}, n)
  {
    WornNone(x, n);
  }

  lemma PlainWorn(s: State, d: nat, rule: Rule, handler: Handler, func: Func, doomed: set<nat>)
    requires Inv(s, doomed) && d in s.at && s.at[d].lock && s.counter + 1 < U32 && Fits(rule, handler)
    ensures var t := AddPlain(s, rule, handler, func); d in t.at && Worn(s.at[d], t.at[d], {}, s.counter)
  {
    AddPlainNew(s, rule, handler, func, doomed);
    JoinedWorn(s.at, AddPlain(s, rule, handler, func).at, Slot(s, rule), Callback(NextId(s), func), rule, handler, d, s.counter);
  }

  lemma JoinedWorn(a: map<nat, Listener>, b: map<nat, Listener>, m: nat, c: Callback, rule: Rule, handler: Handler, d: nat, n: nat)
    requires Joined(a, b, m, c, rule, handler) && d in a && a[d].lock && c.id > n
    ensures d in b && Worn(a[d], b[d], {}, n)
  {
    WornNone(a[d], n);
    if m == d { PutWorn(a[d], c, n); }
  }

  lemma AddWorn(s: State, d: nat, q: Request, doomed: set<nat>)
    requires Inv(s, doomed) && d in s.at && s.at[d].lock && s.counter + 2 < U32
    ensures d in Add(s, q).at && Worn(s.at[d], Add(s, q).at[d], {}, s.counter)
  {
    RequestFits(q);
    PlainWorn(s, d, RuleOf(q), HandlerOf(q), FuncOf(q), doomed);
    AddPlainInv(s, RuleOf(q), HandlerOf(q), FuncOf(q), doomed);
    NamedWorn(s, AddPlain(s, RuleOf(q), HandlerOf(q), FuncOf(q)), d, Slot(s, RuleOf(q)), doomed);
  }

  lemma NamedWorn(s: State, t: State, d: nat, m: nat, doomed: set<nat>)
    requires d in s.at && Inv(t, doomed) && s.counter <= t.counter && t.counter + 1 < U32 && d in t.at && m in t.at
    requires Worn(s.at[d], t.at[d], {}, s.counter)
    ensures d in WatchName(t, m).at && Worn(s.at[d], WatchName(t, m).at[d], {}, s.counter)
  {
    NameWorn(t, d, m, doomed);
    WornThen(s.at[d], t.at[d], WatchName(t, m).at[d], s.counter, t.counter);
  }

  lemma WornThen(x: Listener, y: Listener, z: Listener, n: nat, m: nat)
    requires Worn(x, y, {}, n) && Worn(y, z, {}, m) && n <= m
    ensures Worn(x, z, {}, n)
  {
    var none: set<nat> := {};
    WornLater(y, z, none, m, n);
    WornTwice(x, y, z, none, none, n);
    assert none + none == none;
  }

  lemma WornLater(x: Listener, y: Listener, g: set<nat>, n: nat, m: nat)
    requires Worn(x, y, g, n) && m <= n
    ensures Worn(x, y, g, m)
  {
  }

  lemma NameWorn(t: State, d: nat, m: nat, doomed: set<nat>)
    requires Inv(t, doomed) && d in t.at && t.at[d].lock && t.counter + 1 < U32 && m in t.at
    ensures d in WatchName(t, m).at && Worn(t.at[d], WatchName(t, m).at[d], {}, t.counter)
  {
    var x := t.at[m];
    WornNone(t.at[d], t.counter);
    if x.rule.name.Some? && x.nameWatch == 0 {
      PlainWorn(t, d, ServiceRule(x.rule.conn, x.rule.name.value), ServiceFilter, SILENT, doomed);
      WatchNameIs(t, m, doomed);
    }
  }

  /** A removal takes its id from the locked listener; an internal name watch that goes along is silent. */
  lemma {:induction false} RemoveWorn(s: State, d: nat, id: nat, doomed: set<nat>) returns (gone: set<nat>)
    requires Inv(s, doomed) && d in s.at && s.at[d].lock
    ensures var t := RemoveWatch(s, id); d in t.at && Worn(s.at[d], t.at[d], gone, s.counter) && AsAsked(s.at[d], gone, {id})
    decreases |s.order|
  {
    gone := {};
    WornNone(s.at[d], s.counter);
    HolderIn(s, s.order, id);
    assert ListenerOk(s.at[d], s.counter, d in doomed);
    if id != 0 && Holder(s, s.order, id).Some? {
      var e := Holder(s, s.order, id).value;
      RemoveSteps(s, e, id);
      if e == d {
        gone := {id};
        OwnWorn(s.at[d], id, s.counter, d in doomed);
      } else {
        NotHere(s, d, e, id);
        if Empties(s, e, id) {
          gone := CascadeWorn(s, d, e, id, doomed);
        }
      }
    } else if id != 0 {
      AbsentHere(s.at[d], id);
    }
  }

  lemma OwnWorn(x: Listener, id: nat, n: nat, doomed: bool)
    requires ListenerOk(x, n, doomed) && x.lock
    ensures Worn(x, WithoutId(x, id), {id}, n) && AsAsked(x, {id}, {id})
  {
    ListsDistinct(x, n, doomed);
    RemoveIdIsKeep(x.callbacks, id);
    RemoveIdIsKeep(x.processed, id);
  }

  lemma AbsentHere(x: Listener, id: nat)
    requires !HasId(All(x), id)
    ensures AsAsked(x, {}, {id})
  {
    forall c | c in All(x) ensures c.id != id {
      var k :| 0 <= k < |All(x)| && All(x)[k] == c;
    }
  }

  lemma NotHere(s: State, d: nat, e: nat, id: nat)
    requires AllApart(s.at) && d in s.at && e in s.at && d != e && HasId(All(s.at[e]), id)
    ensures AsAsked(s.at[d], {}, {id})
  {
    var k :| 0 <= k < |All(s.at[e])| && All(s.at[e])[k].id == id;
    assert All(s.at[e])[k] in All(s.at[e]);
    assert Apart(s.at[e], s.at[d]);
  }

  lemma {:induction false} CascadeWorn(s: State, d: nat, e: nat, id: nat, doomed: set<nat>) returns (gone: set<nat>)
    requires Inv(s, doomed) && d in s.at && s.at[d].lock && e in s.at && e != d && Empties(s, e, id)
    requires AsAsked(s.at[d], {}, {id})
    ensures var t := RemoveWatch(Unlist(Rewritten(s, e, WithoutId(s.at[e], id), s.counter), e), s.at[e].nameWatch);
      d in t.at && Worn(s.at[d], t.at[d], gone, s.counter) && AsAsked(s.at[d], gone, {id})
    decreases |s.order|, 0
  {
    var u, nw := Unlist(Rewritten(s, e, WithoutId(s.at[e], id), s.counter), e), s.at[e].nameWatch;
    RemoveEmptied(s, e, id, doomed);
    RemoveFirstShorter(s.order, e);
    gone := RemoveWorn(u, d, nw, doomed);
    assert NameOk(s.at[e], s.at[d]);
    assert ListenerOk(s.at[d], s.counter, d in doomed);
  }

  lemma {:induction false} DoWorn(s: State, d: nat, ops: seq<Op>, doomed: set<nat>) returns (gone: set<nat>)
    requires Inv(s, doomed) && d in s.at && s.at[d].lock && s.counter + 2 * |ops| < U32
    ensures d in Do(s, ops).at && Worn(s.at[d], Do(s, ops).at[d], gone, s.counter)
    ensures AsAsked(s.at[d], gone, Removals(ops))
    decreases ops
  {
    gone := {};
    if ops == [] {
      WornNone(s.at[d], s.counter);
    } else {
      var t := Apply(s, ops[0]);
      var first: set<nat> := {};
      match ops[0] {
        case AddOp(q) =>
          AddInv(s, q, doomed);
          AddWorn(s, d, q, doomed);
        case RemoveOp(id) =>
          RemoveWatchInv(s, id, doomed);
          first := RemoveWorn(s, d, id, doomed);
      }
      var rest := DoWorn(t, d, ops[1..], doomed);
      gone := first + rest;
      var a: set<nat> := if ops[0].RemoveOp? then {ops[0].id} else {};
      RemovalsSplit(ops);
      WornLater(t.at[d], Do(t, ops[1..]).at[d], rest, t.counter, s.counter);
      WornTwice(s.at[d], t.at[d], Do(t, ops[1..]).at[d], first, rest, s.counter);
      AskedTwice(s.at[d], t.at[d], first, rest, a, Removals(ops[1..]), s.counter);
    }
  }

  lemma RemovalsSplit(ops: seq<Op>)
    requires ops != []
    ensures Removals(ops) == (if ops[0].RemoveOp? then {ops[0].id} else {}) + Removals(ops[1..])
  {
    forall id | id in Removals(ops) ensures id in (if ops[0].RemoveOp? then {ops[0].id} else {}) + Removals(ops[1..]) {
      var k :| 0 <= k < |ops| && ops[k].RemoveOp? && ops[k].id == id;
      if k > 0 { assert ops[1..][k - 1] == ops[k]; }
    }
    forall id | id in Removals(ops[1..]) ensures id in Removals(ops) {
      var k :| 0 <= k < |ops[1..]| && ops[1..][k].RemoveOp? && ops[1..][k].id == id;
      assert ops[k + 1] == ops[1..][k];
    }
  }

  // ---- one turn of the loop ----

  function OpsOf(handler: Handler, msg: Msg, script: Script, c: Callback): seq<Op> {
    if Calls(handler, msg, c.func) then script(c.id).ops else []
  }

  /** How many ids the callbacks of a list may use up. */
  function Cost(l: seq<Callback>, handler: Handler, msg: Msg, script: Script): nat {
    if l == [] then 0 else 2 * |OpsOf(handler, msg, script, l[0])| + Cost(l[1..], handler, msg, script)
  }

  /** A callback that asks to be removed by its return value has not removed itself before. */
  ghost predicate Polite(x: Listener, msg: Msg, script: Script) {
    forall c :: c in x.callbacks && Calls(x.handler, msg, c.func) && !script(c.id).keep ==> c.id !in Removals(script(c.id).ops)
  }

  /** The listener is being dispatched and fewer than 2^32 ids will have been used when it is done. */
  ghost predicate Ready(s: State, d: nat, msg: Msg, script: Script, doomed: set<nat>) {
    && Inv(s, doomed) && d in s.at && s.at[d].lock && Polite(s.at[d], msg, script)
    && s.counter + Cost(s.at[d].callbacks, s.at[d].handler, msg, script) < U32
  }

  function Moved(x: Listener, c: Callback): Listener {
    x.(callbacks := RemoveId(x.callbacks, c.id), processed := x.processed + [c])
  }

  /** The state after the call, if there is one. */
  function Called(s: State, d: nat, msg: Msg, script: Script): State
    requires d in s.at && s.at[d].callbacks != []
  {
    Do(s, OpsOf(s.at[d].handler, msg, script, s.at[d].callbacks[0]))
  }

  lemma CalledOk(s: State, d: nat, msg: Msg, script: Script, doomed: set<nat>) returns (gone: set<nat>)
    requires Ready(s, d, msg, script, doomed) && s.at[d].callbacks != []
    ensures var t, ops := Called(s, d, msg, script), OpsOf(s.at[d].handler, msg, script, s.at[d].callbacks[0]);
      && Inv(t, doomed) && d in t.at && s.counter <= t.counter <= s.counter + 2 * |ops|
      && Worn(s.at[d], t.at[d], gone, s.counter) && AsAsked(s.at[d], gone, Removals(ops))
  {
    var ops := OpsOf(s.at[d].handler, msg, script, s.at[d].callbacks[0]);
    DoInv(s, ops, doomed);
    gone := DoWorn(s, d, ops, doomed);
  }

  lemma CalledThere(s: State, d: nat, msg: Msg, script: Script, doomed: set<nat>)
    requires Ready(s, d, msg, script, doomed) && s.at[d].callbacks != []
    ensures d in Called(s, d, msg, script).at && d in Called(s, d, msg, script).order
  {
    var _ := CalledOk(s, d, msg, script, doomed);
  }

  /** What follows the call in a turn that began with the listener as `x`. */
  ghost function Settled(t: State, d: nat, x: Listener, msg: Msg, script: Script): State
    requires d in t.at && d in t.order && x.callbacks != []
  {
    var c := x.callbacks[0];
    if x.handler == SignalFilter && Calls(x.handler, msg, c.func) && !script(c.id).keep then RemoveCallback(t, d, c.id)
    else if !HasId(t.at[d].callbacks, c.id) then t
    else if x.handler == ServiceFilter && AutoRemove(x.rule, c.func) then RemoveCallback(t, d, c.id)
    else t.(at := t.at[d := Moved(t.at[d], c)])
  }

  /** One turn of the loops of `signal_filter` and `service_filter`. */
  ghost function Turn(s: State, d: nat, msg: Msg, script: Script, doomed: set<nat>): State
    requires Ready(s, d, msg, script, doomed) && s.at[d].callbacks != []
  {
    CalledThere(s, d, msg, script, doomed);
    Settled(Called(s, d, msg, script), d, s.at[d], msg, script)
  }

  /** The ids that go in the turn of `c`. */
  function Goes(rule: Rule, handler: Handler, msg: Msg, script: Script, c: Callback): set<nat> {
    Removals(OpsOf(handler, msg, script, c)) + if Drops(rule, handler, msg, c.func, script(c.id).keep) then {c.id} else {}
  }

  /** What a turn makes of the listener: its first callback is done with, and on both lists exactly the
      ids that go in its turn are gone, as far as callbacks with a function are concerned. */
  ghost predicate Turned(x: Listener, y: Listener, goes: set<nat>, n: nat) {
    && x.callbacks != [] && y.lock && y.rule == x.rule && y.handler == x.handler
    && |y.callbacks| < |x.callbacks| && (forall c :: c in y.callbacks ==> c in x.callbacks)
    && Voice(y.callbacks, n) == Keep(Voice(x.callbacks[1..], n), goes)
    && Voice(y.processed, n) == Keep(Voice(x.processed, n), goes) + Keep(Voice([x.callbacks[0]], n), goes)
  }

  lemma HeadAway(x: Listener, n: nat, doomed: bool)
    requires ListenerOk(x, n, doomed) && x.callbacks != []
    ensures var c := x.callbacks[0];
      && (forall e :: e in x.callbacks[1..] || e in x.processed ==> e.id != c.id)
      && Distinct(x.callbacks) && 1 <= c.id <= n && c in All(x)
  {
    assert All(x)[0] == x.callbacks[0];
    forall e | e in x.callbacks[1..] || e in x.processed ensures e.id != x.callbacks[0].id {
      if e in x.callbacks[1..] {
        var k :| 0 <= k < |x.callbacks[1..]| && x.callbacks[1..][k] == e;
        assert All(x)[k + 1] == e;
      } else {
        var k :| 0 <= k < |x.processed| && x.processed[k] == e;
        assert All(x)[|x.callbacks| + k] == e;
      }
    }
    assert forall i :: 0 <= i < |x.callbacks| ==> x.callbacks[i] == All(x)[i];
  }

  lemma {:induction false} VoiceMembers(l: seq<Callback>, n: nat)
    ensures forall c :: c in Voice(l, n) <==> c in l && c.func != SILENT && c.id <= n
  {
    if l != [] {
      VoiceMembers(l[1..], n);
      assert l == [l[0]] + l[1..];
    }
  }

  lemma WornVoices(x: Listener, z: Listener, gone: set<nat>, asked: set<nat>, n: nat, m: nat)
    requires Worn(x, z, gone, m) && n <= m && AsAsked(x, gone, asked)
    ensures Voice(z.callbacks, n) == Keep(Voice(x.callbacks, n), asked)
    ensures Voice(z.processed, n) == Keep(Voice(x.processed, n), asked)
  {
    VoiceAgrees(x.callbacks, gone, asked, n);
    VoiceAgrees(x.processed, gone, asked, n);
    VoiceKeep(x.callbacks, asked, n);
    VoiceKeep(x.processed, asked, n);
    var p := Keep(x.processed, gone);
    var q := z.processed[|p|..];
    assert z.processed == p + q;
    forall c | c in q ensures c.id > n {
      var k :| 0 <= k < |q| && q[k] == c;
      assert z.processed[|p| + k] == c;
    }
    VoiceNone(q, n);
    VoiceConcat(p, q, n);
  }

  /** The voices of the first callback and of the others. */
  lemma HeadVoices(x: Listener, g: set<nat>, n: nat)
    requires x.callbacks != []
    ensures Keep(Voice(x.callbacks, n), g) == Keep(Voice([x.callbacks[0]], n), g) + Keep(Voice(x.callbacks[1..], n), g)
  {
    assert x.callbacks == [x.callbacks[0]] + x.callbacks[1..];
    VoiceConcat([x.callbacks[0]], x.callbacks[1..], n);
    KeepConcat(Voice([x.callbacks[0]], n), Voice(x.callbacks[1..], n), g);
  }

  lemma OneVoice(c: Callback, g: set<nat>, n: nat)
    ensures Keep(Voice([c], n), g) == if c.func != SILENT && c.id <= n && c.id !in g then [c] else []
    ensures Voice([c], n) == if c.func != SILENT && c.id <= n then [c] else []
  {
    assert Voice([c][1..], n) == [];
  }

  /** A callback that is removed in its turn. */
  lemma DropTurn(x: Listener, z: Listener, gone: set<nat>, asked: set<nat>, n: nat, m: nat)
    requires Worn(x, z, gone, m) && n <= m && AsAsked(x, gone, asked) && x.callbacks != []
    requires Distinct(z.callbacks) && Distinct(z.processed)
    ensures Turned(x, WithoutId(z, x.callbacks[0].id), asked + {x.callbacks[0].id}, n)
  {
    var id := x.callbacks[0].id;
    WornVoices(x, z, gone, asked, n, m);
    RemoveIdIsKeep(z.callbacks, id);
    RemoveIdIsKeep(z.processed, id);
    VoiceKeep(z.callbacks, {id}, n);
    VoiceKeep(z.processed, {id}, n);
    KeepTwice(Voice(x.callbacks, n), asked, {id});
    KeepTwice(Voice(x.processed, n), asked, {id});
    HeadVoices(x, asked + {id}, n);
    OneVoice(x.callbacks[0], asked + {id}, n);
    KeepTwice(x.callbacks, gone, {id});
    KeepMembers(x.callbacks, gone + {id});
  }

  /** A callback that was removed during its own call. */
  lemma GoneTurn(x: Listener, z: Listener, gone: set<nat>, asked: set<nat>, n: nat, m: nat)
    requires Worn(x, z, gone, m) && n <= m && AsAsked(x, gone, asked) && x.callbacks != []
    requires x.callbacks[0].id in asked && x.callbacks[0].id in gone
    ensures Turned(x, z, asked, n)
  {
    WornVoices(x, z, gone, asked, n, m);
    HeadVoices(x, asked, n);
    OneVoice(x.callbacks[0], asked, n);
    KeepMembers(x.callbacks, gone);
  }

  /** A callback that stays. */
  lemma MoveTurn(x: Listener, z: Listener, gone: set<nat>, asked: set<nat>, n: nat, m: nat)
    requires Worn(x, z, gone, m) && n <= m && AsAsked(x, gone, asked) && x.callbacks != [] && Distinct(z.callbacks)
    requires x.callbacks[0].func != SILENT ==> x.callbacks[0].id !in asked
    requires forall e :: e in x.callbacks[1..] ==> e.id != x.callbacks[0].id
    ensures Turned(x, Moved(z, x.callbacks[0]), asked, n)
  {
    var c, rest := x.callbacks[0], Voice(x.callbacks[1..], n);
    WornVoices(x, z, gone, asked, n, m);
    RemoveIdIsKeep(z.callbacks, c.id);
    VoiceKeep(z.callbacks, {c.id}, n);
    KeepTwice(Voice(x.callbacks, n), asked, {c.id});
    HeadVoices(x, asked + {c.id}, n);
    OneVoice(c, asked + {c.id}, n);
    OneVoice(c, asked, n);
    VoiceMembers(x.callbacks[1..], n);
    KeepNone(rest, {c.id});
    KeepTwice(rest, {c.id}, asked);
    assert {c.id} + asked == asked + {c.id};
    VoiceConcat(z.processed, [c], n);
    KeepTwice(x.callbacks, gone, {c.id});
    KeepMembers(x.callbacks, gone + {c.id});
  }

  lemma RemoveLocked(t: State, d: nat, id: nat)
    requires d in t.at && d in t.order && t.at[d].lock
    ensures RemoveCallback(t, d, id) == t.(at := t.at[d := WithoutId(t.at[d], id)])
  {
  }

  lemma HasIdIn(l: seq<Callback>, id: nat)
    ensures HasId(l, id) <==> exists c :: c in l && c.id == id
  {
    if HasId(l, id) {
      var k :| 0 <= k < |l| && l[k].id == id;
      assert l[k] in l;
    }
    if c :| c in l && c.id == id {
      var k :| 0 <= k < |l| && l[k] == c;
    }
  }

  lemma DistinctParts(a: seq<Callback>, b: seq<Callback>)
    requires Distinct(a + b)
    ensures Distinct(a) && Distinct(b)
  {
    forall i, j | 0 <= i < j < |a| ensures a[i].id != a[j].id { assert (a + b)[i] == a[i] && (a + b)[j] == a[j]; }
    forall i, j | 0 <= i < j < |b| ensures b[i].id != b[j].id {
      assert (a + b)[|a| + i] == b[i] && (a + b)[|a| + j] == b[j];
    }
  }

  lemma ListsDistinct(x: Listener, n: nat, doomed: bool)
    requires ListenerOk(x, n, doomed)
    ensures Distinct(x.callbacks) && Distinct(x.processed)
  {
    DistinctParts(x.callbacks, x.processed);
  }

  /** What the rest of a turn makes of the listener, which is `z` after the call. */
  function Ended(x: Listener, z: Listener, msg: Msg, script: Script): Listener
    requires x.callbacks != []
  {
    var c := x.callbacks[0];
    if x.handler == SignalFilter && Calls(x.handler, msg, c.func) && !script(c.id).keep then WithoutId(z, c.id)
    else if !HasId(z.callbacks, c.id) then z
    else if x.handler == ServiceFilter && AutoRemove(x.rule, c.func) then WithoutId(z, c.id)
    else Moved(z, c)
  }

  lemma TurnEnds(s: State, d: nat, msg: Msg, script: Script, doomed: set<nat>)
    requires Ready(s, d, msg, script, doomed) && s.at[d].callbacks != []
    ensures var t := Called(s, d, msg, script);
      d in t.at && Turn(s, d, msg, script, doomed).at == t.at[d := Ended(s.at[d], t.at[d], msg, script)]
  {
    CalledThere(s, d, msg, script, doomed);
    CalledLocked(s, d, msg, script, doomed);
    var t := Called(s, d, msg, script);
    RemoveLocked(t, d, s.at[d].callbacks[0].id);
    assert t.at == t.at[d := t.at[d]];
  }

  lemma CalledLocked(s: State, d: nat, msg: Msg, script: Script, doomed: set<nat>)
    requires Ready(s, d, msg, script, doomed) && s.at[d].callbacks != []
    ensures var t := Called(s, d, msg, script); d in t.at && t.at[d].lock
  {
    var gone := CalledOk(s, d, msg, script, doomed);
  }

  lemma EndedTurned(x: Listener, z: Listener, gone: set<nat>, msg: Msg, script: Script, n: nat, m: nat)
    requires x.callbacks != [] && Worn(x, z, gone, m) && n <= m && Distinct(z.callbacks) && Distinct(z.processed)
    requires AsAsked(x, gone, Removals(OpsOf(x.handler, msg, script, x.callbacks[0]))) && x.callbacks[0] in All(x)
    requires forall e :: e in x.callbacks[1..] ==> e.id != x.callbacks[0].id
    requires !HasId(z.callbacks, x.callbacks[0].id) ==> x.callbacks[0].func != SILENT
    ensures Turned(x, Ended(x, z, msg, script), Goes(x.rule, x.handler, msg, script, x.callbacks[0]), n)
  {
    var c := x.callbacks[0];
    var asked := Removals(OpsOf(x.handler, msg, script, c));
    KeepMembers(x.callbacks, gone);
    HasIdIn(z.callbacks, c.id);
    if x.handler == SignalFilter && Calls(x.handler, msg, c.func) && !script(c.id).keep {
      DropTurn(x, z, gone, asked, n, m);
    } else if !HasId(z.callbacks, c.id) {
      assert c in x.callbacks && c !in z.callbacks;
      assert Goes(x.rule, x.handler, msg, script, c) == asked;
      GoneTurn(x, z, gone, asked, n, m);
    } else if x.handler == ServiceFilter && AutoRemove(x.rule, c.func) {
      DropTurn(x, z, gone, asked, n, m);
    } else {
      SameHead(x, z, gone, m);
      assert Goes(x.rule, x.handler, msg, script, c) == asked;
      MoveTurn(x, z, gone, asked, n, m);
    }
  }

  /** The meaning of one turn. */
  lemma TurnCases(s: State, d: nat, msg: Msg, script: Script, doomed: set<nat>, n: nat)
    requires Ready(s, d, msg, script, doomed) && s.at[d].callbacks != [] && n <= s.counter
    ensures var x, t := s.at[d], Turn(s, d, msg, script, doomed);
      d in t.at && Turned(x, t.at[d], Goes(x.rule, x.handler, msg, script, x.callbacks[0]), n)
  {
    var x := s.at[d];
    var gone := CalledOk(s, d, msg, script, doomed);
    var t := Called(s, d, msg, script);
    assert ListenerOk(x, s.counter, d in doomed) && ListenerOk(t.at[d], t.counter, d in doomed);
    HeadAway(x, s.counter, d in doomed);
    ListsDistinct(t.at[d], t.counter, d in doomed);
    StillThere(s, d, msg, script);
    EndedTurned(x, t.at[d], gone, msg, script, n, s.counter);
    TurnEnds(s, d, msg, script, doomed);
  }

  /** Without a call nothing changes, so a callback that is gone after the call has a function. */
  lemma StillThere(s: State, d: nat, msg: Msg, script: Script)
    requires d in s.at && s.at[d].callbacks != []
    ensures var t, c := Called(s, d, msg, script), s.at[d].callbacks[0];
      d in t.at && !HasId(t.at[d].callbacks, c.id) ==> c.func != SILENT
  {
    var c := s.at[d].callbacks[0];
    assert HasId(s.at[d].callbacks, c.id);
    assert !Calls(s.at[d].handler, msg, c.func) ==> Called(s, d, msg, script) == s;
  }

  lemma {:induction false} CostOfVoices(l: seq<Callback>, handler: Handler, msg: Msg, script: Script, n: nat)
    requires forall c :: c in l ==> c.id <= n
    ensures Cost(Voice(l, n), handler, msg, script) == Cost(l, handler, msg, script)
  {
    if l != [] {
      assert l[0] in l;
      CostOfVoices(l[1..], handler, msg, script, n);
    }
  }

  lemma {:induction false} CostOfKeep(l: seq<Callback>, g: set<nat>, handler: Handler, msg: Msg, script: Script)
    ensures Cost(Keep(l, g), handler, msg, script) <= Cost(l, handler, msg, script)
  {
    if l != [] {
      CostOfKeep(l[1..], g, handler, msg, script);
    }
  }

  /** After a turn the listener is ready for the next one. */
  lemma TurnReady(s: State, d: nat, msg: Msg, script: Script, doomed: set<nat>)
    requires Ready(s, d, msg, script, doomed) && s.at[d].callbacks != []
    ensures var t := Turn(s, d, msg, script, doomed);
      && Ready(t, d, msg, script, doomed) && |t.at[d].callbacks| < |s.at[d].callbacks| && s.counter <= t.counter
      && t.at[d].handler == s.at[d].handler
      && t.counter + Cost(t.at[d].callbacks, t.at[d].handler, msg, script)
          <= s.counter + Cost(s.at[d].callbacks, s.at[d].handler, msg, script)
  {
    TurnCases(s, d, msg, script, doomed, s.counter);
    TurnInv(s, d, msg, script, doomed);
    var x, t := s.at[d], Turn(s, d, msg, script, doomed);
    var y, goes := t.at[d], Goes(x.rule, x.handler, msg, script, x.callbacks[0]);
    assert ListenerOk(x, s.counter, d in doomed);
    HeadAway(x, s.counter, d in doomed);
    assert forall c :: c in x.callbacks ==> c in All(x);
    CostOfVoices(x.callbacks[1..], x.handler, msg, script, s.counter);
    CostOfVoices(y.callbacks, x.handler, msg, script, s.counter);
    CostOfKeep(Voice(x.callbacks[1..], s.counter), goes, x.handler, msg, script);
  }

  lemma TurnInv(s: State, d: nat, msg: Msg, script: Script, doomed: set<nat>)
    requires Ready(s, d, msg, script, doomed) && s.at[d].callbacks != []
    ensures var x, t := s.at[d], Turn(s, d, msg, script, doomed);
      Inv(t, doomed) && s.counter <= t.counter <= s.counter + 2 * |OpsOf(x.handler, msg, script, x.callbacks[0])|
  {
    var c := s.at[d].callbacks[0];
    CalledThere(s, d, msg, script, doomed);
    var gone := CalledOk(s, d, msg, script, doomed);
    var t := Called(s, d, msg, script);
    RemoveCallbackInv(t, d, c.id, doomed);
    if HasId(t.at[d].callbacks, c.id) {
      KeepMembers(s.at[d].callbacks, gone);
      HasIdIn(t.at[d].callbacks, c.id);
      assert ListenerOk(s.at[d], s.counter, d in doomed);
      HeadAway(s.at[d], s.counter, d in doomed);
      SameHead(s.at[d], t.at[d], gone, s.counter);
      MovedInv(t, d, c, doomed);
    }
  }

  /** A surviving first callback is still the same one. */
  lemma SameHead(x: Listener, z: Listener, gone: set<nat>, m: nat)
    requires Worn(x, z, gone, m) && x.callbacks != [] && HasId(z.callbacks, x.callbacks[0].id)
    requires forall e :: e in x.callbacks[1..] ==> e.id != x.callbacks[0].id
    ensures x.callbacks[0] in z.callbacks
  {
    KeepMembers(x.callbacks, gone);
    HasIdIn(z.callbacks, x.callbacks[0].id);
    assert x.callbacks == [x.callbacks[0]] + x.callbacks[1..];
  }

  lemma MovedInv(t: State, d: nat, c: Callback, doomed: set<nat>)
    requires Inv(t, doomed) && d in t.at && t.at[d].lock && c in t.at[d].callbacks
    ensures Inv(t.(at := t.at[d := Moved(t.at[d], c)]), doomed)
  {
    var x := t.at[d];
    var y := Moved(x, c);
    assert ListenerOk(x, t.counter, d in doomed);
    MovedOk(x, c, t.counter, d in doomed);
    RewriteInv(t, d, y, t.counter, doomed, doomed);
    assert Rewritten(t, d, y, t.counter) == t.(at := t.at[d := y]);
  }

  lemma MovedOk(x: Listener, c: Callback, n: nat, doomed: bool)
    requires ListenerOk(x, n, doomed) && x.lock && c in x.callbacks
    ensures ListenerOk(Moved(x, c), n, doomed) && forall e :: e in All(Moved(x, c)) <==> e in All(x)
  {
    ListsDistinct(x, n, doomed);
    AwayFrom(x, c);
    RemoveIdConcat(x.callbacks, x.processed, c.id);
    RemoveIdAbsent(x.processed, c.id);
    assert All(Moved(x, c)) == RemoveId(All(x), c.id) + [c];
    ToEnd(All(x), c);
  }

  lemma AwayFrom(x: Listener, c: Callback)
    requires Distinct(All(x)) && c in x.callbacks
    ensures c in All(x) && forall k :: 0 <= k < |x.processed| ==> x.processed[k].id != c.id
  {
    var i :| 0 <= i < |x.callbacks| && x.callbacks[i] == c;
    assert All(x)[i] == c;
    forall k | 0 <= k < |x.processed| ensures x.processed[k].id != c.id { assert All(x)[|x.callbacks| + k] == x.processed[k]; }
  }

  /** A callback goes to the end of its list. */
  lemma ToEnd(l: seq<Callback>, c: Callback)
    requires Distinct(l) && c in l
    ensures Distinct(RemoveId(l, c.id) + [c]) && forall e :: e in RemoveId(l, c.id) + [c] <==> e in l
  {
    var r := RemoveId(l, c.id);
    RemoveIdMembers(l, c.id);
    RemoveIdDistinct(l, c.id);
    forall i | 0 <= i < |r| ensures r[i].id != c.id { assert r[i] in r; }
    forall e | e in l ensures e in r + [c] {
      if e.id == c.id { SameCallback(l, c, e); }
    }
  }

  // ---- the whole pass ----

  datatype Passed = Passed(state: State, called: seq<nat>)

  function CallOf(handler: Handler, msg: Msg, c: Callback): seq<nat> {
    if Calls(handler, msg, c.func) then [c.id] else []
  }

  /** The loop of `signal_filter` or `service_filter`, with the ids called in order. It ends because every
      turn shortens the list whatever the callbacks do. */
  ghost function Pass(s: State, d: nat, msg: Msg, script: Script, doomed: set<nat>): Passed
    requires Ready(s, d, msg, script, doomed)
    decreases |s.at[d].callbacks|
  {
    if s.at[d].callbacks == [] then Passed(s, [])
    else
      TurnReady(s, d, msg, script, doomed);
      var r := Pass(Turn(s, d, msg, script, doomed), d, msg, script, doomed);
      Passed(r.state, CallOf(s.at[d].handler, msg, s.at[d].callbacks[0]) + r.called)
  }

  /** Who should be called: everyone present at the start, in order, unless an earlier call removed them. */
  function Expected(v: seq<Callback>, rule: Rule, handler: Handler, msg: Msg, script: Script, gone: set<nat>): seq<nat> {
    if v == [] then []
    else if v[0].id in gone then Expected(v[1..], rule, handler, msg, script, gone)
    else
      var rest := Expected(v[1..], rule, handler, msg, script, gone + Goes(rule, handler, msg, script, v[0]));
      CallOf(handler, msg, v[0]) + rest
  }

  /** Everything that those calls remove, directly or by their return values. */
  function RemovedBy(v: seq<Callback>, rule: Rule, handler: Handler, msg: Msg, script: Script, gone: set<nat>): set<nat> {
    if v == [] then gone
    else if v[0].id in gone then RemovedBy(v[1..], rule, handler, msg, script, gone)
    else RemovedBy(v[1..], rule, handler, msg, script, gone + Goes(rule, handler, msg, script, v[0]))
  }

  lemma {:induction false} ExpectedKeep(v: seq<Callback>, rule: Rule, handler: Handler, msg: Msg, script: Script, g: set<nat>, h: set<nat>)
    ensures Expected(v, rule, handler, msg, script, g + h) == Expected(Keep(v, g), rule, handler, msg, script, h)
    ensures RemovedBy(v, rule, handler, msg, script, g + h) == g + RemovedBy(Keep(v, g), rule, handler, msg, script, h)
  {
    if v != [] {
      if v[0].id in g || v[0].id in h {
        ExpectedKeep(v[1..], rule, handler, msg, script, g, h);
      } else {
        var go := Goes(rule, handler, msg, script, v[0]);
        assert g + h + go == g + (h + go);
        ExpectedKeep(v[1..], rule, handler, msg, script, g, h + go);
      }
    }
  }

  lemma HeadVoice(l: seq<Callback>, n: nat)
    requires l != [] && l[0].id <= n
    ensures Voice(l, n) == (if l[0].func == SILENT then [] else [l[0]]) + Voice(l[1..], n)
    ensures Voice([l[0]], n) == if l[0].func == SILENT then [] else [l[0]]
  {
    assert Voice([l[0]][1..], n) == [];
  }

  /** Silent callbacks are not called and take nothing but themselves. */
  lemma SilentGoes(rule: Rule, handler: Handler, msg: Msg, script: Script, c: Callback)
    requires c.func == SILENT
    ensures CallOf(handler, msg, c) == [] && Goes(rule, handler, msg, script, c) <= {c.id}
  {
  }

  /** The calls and removals of a list by those of what its first turn leaves. */
  lemma TurnVoices(x: Listener, y: Listener, msg: Msg, script: Script, n: nat)
    requires x.callbacks != [] && x.callbacks[0].id <= n
    requires forall e :: e in x.callbacks[1..] || e in x.processed ==> e.id != x.callbacks[0].id
    requires Turned(x, y, Goes(x.rule, x.handler, msg, script, x.callbacks[0]), n)
    ensures var v, w := Voice(x.callbacks, n), Voice(y.callbacks, n);
      var f, g := RemovedBy(v, x.rule, x.handler, msg, script, {}), RemovedBy(w, x.rule, x.handler, msg, script, {});
      && Expected(v, x.rule, x.handler, msg, script, {})
          == CallOf(x.handler, msg, x.callbacks[0]) + Expected(w, x.rule, x.handler, msg, script, {})
      && Keep(Voice(y.processed, n), g) + Keep(w, g) == Keep(Voice(x.processed, n), f) + Keep(v, f)
  {
    var c, rest := x.callbacks[0], Voice(x.callbacks[1..], n);
    var go := Goes(x.rule, x.handler, msg, script, c);
    HeadVoice(x.callbacks, n);
    if c.func == SILENT {
      SilentGoes(x.rule, x.handler, msg, script, c);
      VoiceMembers(x.callbacks[1..], n);
      VoiceMembers(x.processed, n);
      KeepNone(rest, go);
      KeepNone(Voice(x.processed, n), go);
      assert Keep(Voice([c], n), go) == [];
      assert Voice(y.processed, n) == Voice(x.processed, n) && Voice(y.callbacks, n) == Voice(x.callbacks, n) == rest;
    } else {
      var none: set<nat> := {};
      var w := Voice(y.callbacks, n);
      ExpectedKeep(rest, x.rule, x.handler, msg, script, go, none);
      assert go + none == go && none + go == go;
      var g := RemovedBy(w, x.rule, x.handler, msg, script, none);
      VoicesJoin(Voice(x.processed, n), c, rest, go, g);
      assert Voice(x.callbacks, n)[1..] == rest;
    }
  }

  lemma VoicesJoin(p: seq<Callback>, c: Callback, rest: seq<Callback>, go: set<nat>, g: set<nat>)
    ensures Keep(Keep(p, go) + Keep([c], go), g) + Keep(Keep(rest, go), g) == Keep(p, go + g) + Keep([c] + rest, go + g)
  {
    KeepConcat(Keep(p, go), Keep([c], go), g);
    KeepTwice(p, go, g);
    KeepTwice([c], go, g);
    KeepTwice(rest, go, g);
    KeepConcat([c], rest, go + g);
    Assoc(Keep(p, go + g), Keep([c], go + g), Keep(rest, go + g));
  }

  lemma Assoc(a: seq<Callback>, b: seq<Callback>, c: seq<Callback>)
    ensures (a + b) + c == a + (b + c)
  {
  }

  /** One pass over a listener while callbacks add and remove watches: every callback with a function that
      is there at the start is called exactly once and in order unless it is removed before its turn, no
      other is called, and the survivors keep their order; what else is on the list then is newer. */
  lemma {:induction false} PassSpec(s: State, d: nat, msg: Msg, script: Script, doomed: set<nat>, n: nat)
    requires Ready(s, d, msg, script, doomed) && n <= s.counter && forall c :: c in s.at[d].callbacks ==> c.id <= n
    ensures var x, r := s.at[d], Pass(s, d, msg, script, doomed);
      var v := Voice(x.callbacks, n);
      var f := RemovedBy(v, x.rule, x.handler, msg, script, {});
      && r.called == Expected(v, x.rule, x.handler, msg, script, {})
      && Inv(r.state, doomed) && s.counter <= r.state.counter && d in r.state.at
      && r.state.at[d].callbacks == [] && r.state.at[d].lock
      && Voice(r.state.at[d].processed, n) == Keep(Voice(x.processed, n), f) + Keep(v, f)
    decreases |s.at[d].callbacks|
  {
    var x := s.at[d];
    if x.callbacks == [] {
      KeepNone(Voice(x.processed, n), {});
    } else {
      var t := Turn(s, d, msg, script, doomed);
      TurnReady(s, d, msg, script, doomed);
      TurnCases(s, d, msg, script, doomed, n);
      assert ListenerOk(x, s.counter, d in doomed);
      HeadAway(x, s.counter, d in doomed);
      PassSpec(t, d, msg, script, doomed, n);
      TurnVoices(x, t.at[d], msg, script, n);
    }
  }
}
