/** The message filter: which listeners a signal reaches, in what order, and what is cleaned up after it. */
module WatchMessage {
  import opened Lists
  import opened WatchModel
  import opened WatchInvariant
  import opened WatchRefinement
  import opened WatchDispatch

  predicate Field(want: Option<string>, have: Option<string>) { want.Some? ==> have == want }

  predicate Matches(rule: Rule, conn: nat, msg: Msg) {
    && rule.conn == conn && Field(rule.owner, msg.sender) && Field(rule.path, msg.path) && Field(rule.iface, msg.iface)
    && Field(rule.member, msg.member) && Field(rule.argument, msg.arg)
  }

  /** The calls that one listener gets: exactly once, in order, and only if not removed before the turn. */
  lemma {:induction false} CalledIff(v: seq<Callback>, rule: Rule, handler: Handler, msg: Msg, script: Script, gone: set<nat>, k: nat)
    requires Distinct(v) && k < |v|
    ensures v[k].id in Expected(v, rule, handler, msg, script, gone) <==>
      Calls(handler, msg, v[k].func) && v[k].id !in RemovedBy(v[..k], rule, handler, msg, script, gone)
  {
    assert forall i, j :: 0 <= i < j < |v[1..]| ==> v[1..][i] == v[i + 1] && v[1..][j] == v[j + 1];
    ExpectedIds(v[1..], rule, handler, msg, script, gone);
    ExpectedIds(v[1..], rule, handler, msg, script, gone + Goes(rule, handler, msg, script, v[0]));
    if k == 0 {
      assert forall j :: 0 <= j < |v[1..]| ==> v[1..][j] == v[j + 1];
    } else {
      assert v[..k][0] == v[0] && v[..k][1..] == v[1..][..k - 1];
      if v[0].id in gone {
        CalledIff(v[1..], rule, handler, msg, script, gone, k - 1);
      } else {
        CalledIff(v[1..], rule, handler, msg, script, gone + Goes(rule, handler, msg, script, v[0]), k - 1);
      }
    }
  }

  lemma {:induction false} ExpectedIds(v: seq<Callback>, rule: Rule, handler: Handler, msg: Msg, script: Script, gone: set<nat>)
    ensures forall id :: id in Expected(v, rule, handler, msg, script, gone) ==> exists j :: 0 <= j < |v| && v[j].id == id
  {
    if v != [] {
      var more := if v[0].id in gone then gone else gone + Goes(rule, handler, msg, script, v[0]);
      var rest := Expected(v[1..], rule, handler, msg, script, more);
      ExpectedIds(v[1..], rule, handler, msg, script, more);
      forall id | id in Expected(v, rule, handler, msg, script, gone) ensures exists j :: 0 <= j < |v| && v[j].id == id {
        if id in rest {
          var j :| 0 <= j < |v[1..]| && v[1..][j].id == id;
          assert v[j + 1].id == id;
        } else {
          assert v[0].id == id;
        }
      }
    }
  }

  lemma {:induction false} CalledOnce(v: seq<Callback>, rule: Rule, handler: Handler, msg: Msg, script: Script, gone: set<nat>)
    requires Distinct(v)
    ensures NoDup(Expected(v, rule, handler, msg, script, gone))
  {
    if v != [] {
      assert forall i, j :: 0 <= i < j < |v[1..]| ==> v[1..][i] == v[i + 1] && v[1..][j] == v[j + 1];
      var more := gone + Goes(rule, handler, msg, script, v[0]);
      CalledOnce(v[1..], rule, handler, msg, script, gone);
      CalledOnce(v[1..], rule, handler, msg, script, more);
      ExpectedIds(v[1..], rule, handler, msg, script, more);
      var rest := Expected(v[1..], rule, handler, msg, script, more);
      assert forall j :: 0 <= j < |v[1..]| ==> v[1..][j] == v[j + 1];
      assert v[0].id !in rest;
    }
  }

  // ---- what a pass does to the listeners ----

  /** Lock, rule and handler stay, and every callback was there before or is newer than `n`. */
  ghost predicate Onward(x: Listener, y: Listener, n: nat) {
    y.lock == x.lock && y.rule == x.rule && y.handler == x.handler && forall c :: c in All(y) ==> c in All(x) || c.id > n
  }

  /** A listener made since `n` ids were in use. */
  ghost predicate Newer(y: Listener, n: nat) { !y.lock && forall c :: c in All(y) ==> c.id > n }

  ghost predicate LocksKept(a: map<nat, Listener>, b: map<nat, Listener>, n: nat) {
    forall e :: e in b ==> if e in a then Onward(a[e], b[e], n) else e > n && Newer(b[e], n)
  }

  lemma LocksThen(a: map<nat, Listener>, b: map<nat, Listener>, c: map<nat, Listener>, n: nat, m: nat)
    requires LocksKept(a, b, n) && LocksKept(b, c, m) && n <= m && forall e :: e in a ==> e <= n
    ensures LocksKept(a, c, n)
  {
    forall e | e in c ensures if e in a then Onward(a[e], c[e], n) else e > n && Newer(c[e], n) {
      if e in b {
        assert Onward(b[e], c[e], m);
      }
    }
  }

  lemma PlainLocks(s: State, rule: Rule, handler: Handler, func: Func, doomed: set<nat>)
    requires Inv(s, doomed) && s.counter + 1 < U32 && Fits(rule, handler)
    ensures LocksKept(s.at, AddPlain(s, rule, handler, func).at, s.counter)
  {
    AddPlainNew(s, rule, handler, func, doomed);
    SlotNew(s, rule);
    JoinedLocks(s.at, AddPlain(s, rule, handler, func).at, Slot(s, rule), Callback(NextId(s), func), rule, handler, s.counter);
  }

  lemma SlotNew(s: State, rule: Rule)
    requires s.counter + 1 < U32
    ensures Slot(s, rule) !in s.at ==> Slot(s, rule) == s.counter + 1
  {
    FindMatchIn(s, s.order, rule);
  }

  lemma JoinedLocks(a: map<nat, Listener>, b: map<nat, Listener>, d: nat, c: Callback, rule: Rule, handler: Handler, n: nat)
    requires Joined(a, b, d, c, rule, handler) && (d !in a ==> d > n) && c.id > n
    ensures LocksKept(a, b, n)
  {
    if d in a {
      PutMembers(a[d], c);
    } else {
      assert All(b[d]) == [c];
    }
  }

  lemma AddLocks(s: State, q: Request, doomed: set<nat>)
    requires Inv(s, doomed) && s.counter + 2 < U32
    ensures LocksKept(s.at, Add(s, q).at, s.counter)
  {
    RequestFits(q);
    PlainLocks(s, RuleOf(q), HandlerOf(q), FuncOf(q), doomed);
    AddPlainInv(s, RuleOf(q), HandlerOf(q), FuncOf(q), doomed);
    NameLocks(AddPlain(s, RuleOf(q), HandlerOf(q), FuncOf(q)), Slot(s, RuleOf(q)), doomed);
    assert AllOk(s.at, s.counter, doomed);
    LocksThen(s.at, AddPlain(s, RuleOf(q), HandlerOf(q), FuncOf(q)).at, Add(s, q).at, s.counter, s.counter + 1);
  }

  lemma NameLocks(t: State, d: nat, doomed: set<nat>)
    requires Inv(t, doomed) && t.counter + 1 < U32 && d in t.at
    ensures LocksKept(t.at, WatchName(t, d).at, t.counter)
  {
    var x := t.at[d];
    if x.rule.name.Some? && x.nameWatch == 0 {
      PlainLocks(t, ServiceRule(x.rule.conn, x.rule.name.value), ServiceFilter, SILENT, doomed);
      WatchNameIs(t, d, doomed);
    }
  }

  lemma {:induction false} RemoveLocks(s: State, id: nat)
    ensures LocksKept(s.at, RemoveWatch(s, id).at, s.counter) && RemoveWatch(s, id).at.Keys <= s.at.Keys
    decreases |s.order|
  {
    HolderIn(s, s.order, id);
    if id != 0 && Holder(s, s.order, id).Some? {
      var d := Holder(s, s.order, id).value;
      var t := s.(at := s.at[d := WithoutId(s.at[d], id)]);
      RemoveFirstShorter(s.order, d);
      WithoutIdOnward(s.at[d], id, s.counter);
      RemoveLocks(Unlist(t, d), t.at[d].nameWatch);
    }
  }

  lemma {:induction false} RemoveIdSubset(l: seq<Callback>, id: nat)
    ensures forall c :: c in RemoveId(l, id) ==> c in l
  {
    if l != [] {
      RemoveIdSubset(l[1..], id);
    }
  }

  lemma WithoutIdOnward(x: Listener, id: nat, n: nat)
    ensures Onward(x, WithoutId(x, id), n)
  {
    RemoveIdSubset(x.callbacks, id);
    RemoveIdSubset(x.processed, id);
  }

  lemma {:induction false} DoLocks(s: State, ops: seq<Op>, doomed: set<nat>)
    requires Inv(s, doomed) && s.counter + 2 * |ops| < U32
    ensures LocksKept(s.at, Do(s, ops).at, s.counter)
    decreases ops
  {
    if ops != [] {
      match ops[0] {
        case AddOp(q) =>
          AddInv(s, q, doomed);
          AddLocks(s, q, doomed);
        case RemoveOp(id) =>
          RemoveWatchInv(s, id, doomed);
          RemoveLocks(s, id);
      }
      DoLocks(Apply(s, ops[0]), ops[1..], doomed);
      assert AllOk(s.at, s.counter, doomed);
      LocksThen(s.at, Apply(s, ops[0]).at, Do(s, ops).at, s.counter, Apply(s, ops[0]).counter);
    }
  }

  lemma TurnLocks(s: State, d: nat, msg: Msg, script: Script, doomed: set<nat>)
    requires Ready(s, d, msg, script, doomed) && s.at[d].callbacks != []
    ensures LocksKept(s.at, Turn(s, d, msg, script, doomed).at, s.counter)
  {
    var ops := OpsOf(s.at[d].handler, msg, script, s.at[d].callbacks[0]);
    assert s.counter + 2 * |ops| < U32;
    DoLocks(s, ops, doomed);
    TurnEnds(s, d, msg, script, doomed);
    CalledLocked(s, d, msg, script, doomed);
    HeadStays(s, d, msg, script, doomed);
    EndedLocks(s.at, Called(s, d, msg, script).at, d, s.at[d], msg, script, s.counter);
  }

  /** If the id of the first callback is still on the list after the call, so is the callback. */
  lemma HeadStays(s: State, d: nat, msg: Msg, script: Script, doomed: set<nat>)
    requires Ready(s, d, msg, script, doomed) && s.at[d].callbacks != []
    ensures var t, c := Called(s, d, msg, script), s.at[d].callbacks[0];
      d in t.at && HasId(t.at[d].callbacks, c.id) ==> c in t.at[d].callbacks
  {
    var gone := CalledOk(s, d, msg, script, doomed);
    var t, c := Called(s, d, msg, script), s.at[d].callbacks[0];
    if HasId(t.at[d].callbacks, c.id) {
      assert ListenerOk(s.at[d], s.counter, d in doomed);
      HeadAway(s.at[d], s.counter, d in doomed);
      SameHead(s.at[d], t.at[d], gone, s.counter);
    }
  }

  lemma EndedLocks(a: map<nat, Listener>, b: map<nat, Listener>, d: nat, x: Listener, msg: Msg, script: Script, n: nat)
    requires LocksKept(a, b, n) && d in a && d in b && x.callbacks != []
    requires HasId(b[d].callbacks, x.callbacks[0].id) ==> x.callbacks[0] in b[d].callbacks
    ensures LocksKept(a, b[d := Ended(x, b[d], msg, script)], n)
  {
    EndedOnward(x, b[d], msg, script, n);
    assert Onward(a[d], b[d], n);
  }

  lemma EndedOnward(x: Listener, z: Listener, msg: Msg, script: Script, n: nat)
    requires x.callbacks != [] && (HasId(z.callbacks, x.callbacks[0].id) ==> x.callbacks[0] in z.callbacks)
    ensures var y := Ended(x, z, msg, script); y.lock == z.lock && y.rule == z.rule && y.handler == z.handler
    ensures forall c :: c in All(Ended(x, z, msg, script)) ==> c in All(z)
  {
    RemoveIdSubset(z.callbacks, x.callbacks[0].id);
    RemoveIdSubset(z.processed, x.callbacks[0].id);
  }

  lemma {:induction false} PassLocks(s: State, d: nat, msg: Msg, script: Script, doomed: set<nat>)
    requires Ready(s, d, msg, script, doomed)
    ensures LocksKept(s.at, Pass(s, d, msg, script, doomed).state.at, s.counter)
    decreases |s.at[d].callbacks|
  {
    if s.at[d].callbacks != [] {
      var t := Turn(s, d, msg, script, doomed);
      TurnReady(s, d, msg, script, doomed);
      TurnLocks(s, d, msg, script, doomed);
      PassLocks(t, d, msg, script, doomed);
      assert AllOk(s.at, s.counter, doomed);
      LocksThen(s.at, t.at, Pass(t, d, msg, script, doomed).state.at, s.counter, t.counter);
    }
  }

  // ---- the order of listeners during a pass ----

  function After(l: seq<nat>, d: nat): seq<nat> {
    if l == [] then [] else if l[0] == d then l[1..] else After(l[1..], d)
  }

  /** Some listeners other than `d` have left the list. */
  ghost predicate Thinned(l: seq<nat>, m: seq<nat>, d: nat) {
    && (d in l ==> d in m) && (forall e :: e in m ==> e in l) && |After(m, d)| <= |After(l, d)|
    && (forall e :: e in After(m, d) ==> e in After(l, d)) && (forall e :: e in After(l, d) && e in m ==> e in After(m, d))
  }

  lemma {:induction false} AfterRemove(l: seq<nat>, e: nat, d: nat)
    requires e != d
    ensures Thinned(l, RemoveFirst(l, e), d)
  {
    RemoveFirstSubset(l, e);
    if l != [] {
      AfterRemove(l[1..], e, d);
      RemoveFirstShorter(l[1..], e);
      RemoveFirstSubset(l[1..], e);
      AfterIn(l[1..], d);
      assert l == [l[0]] + l[1..];
    }
  }

  lemma ThinnedTwice(l: seq<nat>, m: seq<nat>, k: seq<nat>, d: nat)
    requires Thinned(l, m, d) && Thinned(m, k, d)
    ensures Thinned(l, k, d)
  {
  }

  lemma {:induction false} AfterIn(l: seq<nat>, d: nat)
    ensures forall e :: e in After(l, d) ==> e in l
  {
    if l != [] {
      AfterIn(l[1..], d);
    }
  }

  lemma {:induction false} RemoveFirstSubset(l: seq<nat>, e: nat)
    ensures forall x :: x in RemoveFirst(l, e) ==> x in l
    ensures forall x :: x in l && x != e ==> x in RemoveFirst(l, e)
  {
    if l != [] {
      RemoveFirstSubset(l[1..], e);
      assert l == [l[0]] + l[1..];
    }
  }

  lemma {:induction false} AfterAppend(l: seq<nat>, n: nat, d: nat)
    requires d in l
    ensures After(l + [n], d) == After(l, d) + [n]
  {
    assert (l + [n])[1..] == l[1..] + [n];
    if l[0] != d {
      AfterAppend(l[1..], n, d);
    }
  }

  /** What is behind `d` in the second list was behind it in the first, or is newer than `n`; and what is
      still there of what was behind it is behind it still. */
  ghost predicate Follows(l: seq<nat>, m: seq<nat>, d: nat, n: nat) {
    && d in m && (forall e :: e in After(m, d) ==> e in After(l, d) || e > n)
    && (forall e :: e in m ==> e in l || e > n) && (forall e :: e in After(l, d) && e in m ==> e in After(m, d))
  }

  lemma FollowsThen(l: seq<nat>, m: seq<nat>, k: seq<nat>, d: nat, n: nat, more: nat)
    requires Follows(l, m, d, n) && Follows(m, k, d, more) && n <= more && forall e :: e in l ==> e <= n
    ensures Follows(l, k, d, n)
  {
    AfterIn(l, d);
  }

  lemma FollowsSame(l: seq<nat>, d: nat, n: nat)
    requires d in l
    ensures Follows(l, l, d, n)
  {
  }

  lemma OrderBelow(s: State, doomed: set<nat>)
    requires Inv(s, doomed)
    ensures forall e :: e in s.order ==> e <= s.counter
  {
  }

  lemma FollowsNew(l: seq<nat>, d: nat, n: nat, e: nat)
    requires d in l && e > n
    ensures Follows(l, l + [e], d, n)
  {
    AfterAppend(l, e, d);
    AfterIn(l, d);
  }

  lemma PlainAfter(s: State, rule: Rule, handler: Handler, func: Func, d: nat)
    requires s.counter + 1 < U32 && d in s.order
    ensures Follows(s.order, AddPlain(s, rule, handler, func).order, d, s.counter)
  {
    FindMatchIn(s, s.order, rule);
    FollowsSame(s.order, d, s.counter);
    FollowsNew(s.order, d, s.counter, s.counter + 1);
  }

  lemma AddAfter(s: State, q: Request, d: nat, doomed: set<nat>)
    requires Inv(s, doomed) && s.counter + 2 < U32 && d in s.order
    ensures Follows(s.order, Add(s, q).order, d, s.counter)
  {
    RequestFits(q);
    var t := AddPlain(s, RuleOf(q), HandlerOf(q), FuncOf(q));
    PlainAfter(s, RuleOf(q), HandlerOf(q), FuncOf(q), d);
    AddPlainInv(s, RuleOf(q), HandlerOf(q), FuncOf(q), doomed);
    NameAfter(t, Slot(s, RuleOf(q)), d, doomed);
    OrderBelow(s, doomed);
    FollowsThen(s.order, t.order, Add(s, q).order, d, s.counter, t.counter);
  }

  lemma NameAfter(t: State, m: nat, d: nat, doomed: set<nat>)
    requires Inv(t, doomed) && t.counter + 1 < U32 && m in t.at && d in t.order
    ensures Follows(t.order, WatchName(t, m).order, d, t.counter)
  {
    var x := t.at[m];
    if x.rule.name.Some? && x.nameWatch == 0 {
      PlainAfter(t, ServiceRule(x.rule.conn, x.rule.name.value), ServiceFilter, SILENT, d);
      WatchNameIs(t, m, doomed);
    } else {
      FollowsSame(t.order, d, t.counter);
    }
  }

  /** Removals never put anything behind a listener in dispatch. */
  lemma {:induction false} RemoveAfter(s: State, id: nat, d: nat)
    requires d in s.at && d in s.order && s.at[d].lock
    ensures Thinned(s.order, RemoveWatch(s, id).order, d)
    decreases |s.order|
  {
    HolderIn(s, s.order, id);
    if id != 0 && Holder(s, s.order, id).Some? {
      var e := Holder(s, s.order, id).value;
      if e != d {
        var t := s.(at := s.at[e := WithoutId(s.at[e], id)]);
        RemoveFirstShorter(s.order, e);
        AfterRemove(s.order, e, d);
        if t.at[e].callbacks == [] && !t.at[e].lock {
          RemoveAfter(Unlist(t, e), t.at[e].nameWatch, d);
          ThinnedTwice(s.order, Unlist(t, e).order, RemoveWatch(Unlist(t, e), t.at[e].nameWatch).order, d);
        }
      }
    }
  }

  lemma ApplyAfter(s: State, op: Op, d: nat, doomed: set<nat>)
    requires Inv(s, doomed) && d in s.at && s.at[d].lock && s.counter + 2 < U32
    ensures var t := Apply(s, op);
      && Inv(t, doomed) && s.counter <= t.counter <= s.counter + 2 && d in t.at && t.at[d].lock
      && (t.counter == s.counter ==> |After(t.order, d)| <= |After(s.order, d)|) && Follows(s.order, t.order, d, s.counter)
  {
    match op {
      case AddOp(q) =>
        AddInv(s, q, doomed);
        AddAfter(s, q, d, doomed);
        AddWorn(s, d, q, doomed);
      case RemoveOp(id) =>
        RemoveWatchInv(s, id, doomed);
        RemoveAfter(s, id, d);
        var _ := RemoveWorn(s, d, id, doomed);
    }
  }

  lemma {:induction false} DoAfter(s: State, ops: seq<Op>, d: nat, doomed: set<nat>)
    requires Inv(s, doomed) && d in s.at && s.at[d].lock && s.counter + 2 * |ops| < U32
    ensures Do(s, ops).counter == s.counter ==> |After(Do(s, ops).order, d)| <= |After(s.order, d)|
    ensures Follows(s.order, Do(s, ops).order, d, s.counter)
    decreases ops
  {
    if ops == [] {
      FollowsSame(s.order, d, s.counter);
    } else {
      var t := Apply(s, ops[0]);
      ApplyAfter(s, ops[0], d, doomed);
      DoInv(t, ops[1..], doomed);
      DoAfter(t, ops[1..], d, doomed);
      OrderBelow(s, doomed);
      FollowsThen(s.order, t.order, Do(s, ops).order, d, s.counter, t.counter);
    }
  }

  lemma TurnAfter(s: State, d: nat, msg: Msg, script: Script, doomed: set<nat>)
    requires Ready(s, d, msg, script, doomed) && s.at[d].callbacks != []
    ensures var t := Turn(s, d, msg, script, doomed);
      Follows(s.order, t.order, d, s.counter) && (t.counter == s.counter ==> |After(t.order, d)| <= |After(s.order, d)|)
  {
    var ops := OpsOf(s.at[d].handler, msg, script, s.at[d].callbacks[0]);
    assert s.counter + 2 * |ops| < U32;
    DoAfter(s, ops, d, doomed);
    CalledLocked(s, d, msg, script, doomed);
    CalledThere(s, d, msg, script, doomed);
    RemoveLocked(Called(s, d, msg, script), d, s.at[d].callbacks[0].id);
  }

  lemma {:induction false} PassAfter(s: State, d: nat, msg: Msg, script: Script, doomed: set<nat>)
    requires Ready(s, d, msg, script, doomed)
    ensures var t := Pass(s, d, msg, script, doomed).state;
      && s.counter <= t.counter && Follows(s.order, t.order, d, s.counter)
      && (t.counter == s.counter ==> |After(t.order, d)| <= |After(s.order, d)|)
    decreases |s.at[d].callbacks|
  {
    if s.at[d].callbacks == [] {
      FollowsSame(s.order, d, s.counter);
    } else {
      var t := Turn(s, d, msg, script, doomed);
      TurnReady(s, d, msg, script, doomed);
      TurnAfter(s, d, msg, script, doomed);
      PassAfter(t, d, msg, script, doomed);
      OrderBelow(s, doomed);
      FollowsThen(s.order, t.order, Pass(t, d, msg, script, doomed).state.order, d, s.counter, t.counter);
    }
  }

  // ---- visiting a listener ----

  function Begin(s: State, d: nat): State
    requires d in s.at
  {
    s.(at := s.at[d := s.at[d].(lock := true)])
  }

  /** The processed callbacks become the callbacks again. */
  function Closed(x: Listener): Listener { x.(callbacks := x.processed, processed := [], lock := false) }

  function Finish(s: State, d: nat): State
    requires d in s.at
  {
    s.(at := s.at[d := Closed(s.at[d])])
  }

  function Renamed(x: Listener, g: Change): Listener {
    if x.rule.name == Some(g.name) then x.(rule := x.rule.(owner := Some(g.owner))) else x
  }

  /** `update_name_cache`. */
  function UpdateNames(s: State, g: Change): State { s.(at := map d | d in s.at :: Renamed(s.at[d], g)) }

  function Prepared(s: State, d: nat, msg: Msg): State
    requires d in s.at
  {
    if s.at[d].handler == ServiceFilter && msg.change.Some? then UpdateNames(Begin(s, d), msg.change.value) else Begin(s, d)
  }

  lemma BeginInv(s: State, d: nat, doomed: set<nat>)
    requires Inv(s, doomed) && d in s.at
    ensures Inv(Begin(s, d), doomed)
  {
    var x := s.at[d];
    var y := x.(lock := true);
    assert All(y) == All(x);
    assert ListenerOk(x, s.counter, d in doomed);
    RewriteInv(s, d, y, s.counter, doomed, doomed);
    assert Rewritten(s, d, y, s.counter) == Begin(s, d);
  }

  lemma UpdateNamesInv(s: State, g: Change, doomed: set<nat>)
    requires Inv(s, doomed)
    ensures Inv(UpdateNames(s, g), doomed)
  {
    var t := UpdateNames(s, g);
    assert t.at.Keys == s.at.Keys;
    RenamedOk(s.at, t.at, g, s.counter, doomed);
    RenamedApart(s.at, t.at, g);
    SameBooks(s, t);
  }

  ghost predicate AllRenamed(a: map<nat, Listener>, b: map<nat, Listener>, g: Change) {
    b.Keys == a.Keys && forall d :: d in a ==> b[d] == Renamed(a[d], g)
  }

  lemma RenamedListener(x: Listener, g: Change, n: nat, doomed: bool)
    requires ListenerOk(x, n, doomed)
    ensures ListenerOk(Renamed(x, g), n, doomed) && All(Renamed(x, g)) == All(x)
  {
  }

  lemma RenamedOk(a: map<nat, Listener>, b: map<nat, Listener>, g: Change, n: nat, doomed: set<nat>)
    requires AllOk(a, n, doomed) && AllRenamed(a, b, g)
    ensures AllOk(b, n, doomed)
  {
    forall d | d in b ensures 1 <= d <= n && ListenerOk(b[d], n, d in doomed) { RenamedListener(a[d], g, n, d in doomed); }
  }

  lemma RenamedApart(a: map<nat, Listener>, b: map<nat, Listener>, g: Change)
    requires AllApart(a) && AllNamed(a) && AllRenamed(a, b, g)
    ensures AllApart(b) && AllNamed(b)
  {
    forall d | d in b ensures All(b[d]) == All(a[d]) {}
    forall d, e | d in b && e in b && d != e ensures Apart(b[d], b[e]) { assert Apart(a[d], a[e]); }
    forall d, e | d in b && e in b ensures NameOk(b[d], b[e]) { assert NameOk(a[d], a[e]); }
  }

  lemma PreparedInv(s: State, d: nat, msg: Msg, doomed: set<nat>)
    requires Inv(s, doomed) && d in s.at
    ensures Inv(Prepared(s, d, msg), doomed) && d in Prepared(s, d, msg).at && Prepared(s, d, msg).at[d].lock
  {
    BeginInv(s, d, doomed);
    if s.at[d].handler == ServiceFilter && msg.change.Some? {
      UpdateNamesInv(Begin(s, d), msg.change.value, doomed);
    }
  }

  /** The listener is not in dispatch already, and its pass will not run out of ids. */
  ghost predicate VisitReady(s: State, d: nat, conn: nat, msg: Msg, script: Script, doomed: set<nat>) {
    && Inv(s, doomed) && d in s.at && !s.at[d].lock
    && (Matches(s.at[d].rule, conn, msg) ==> Ready(Prepared(s, d, msg), d, msg, script, doomed))
  }

  /** After `handle_func`: a malformed owner signal makes the service filter return at once. */
  ghost function Handled(s: State, d: nat, conn: nat, msg: Msg, script: Script, doomed: set<nat>): State
    requires VisitReady(s, d, conn, msg, script, doomed) && Matches(s.at[d].rule, conn, msg)
  {
    if s.at[d].handler == ServiceFilter && msg.change.None? then Prepared(s, d, msg)
    else Pass(Prepared(s, d, msg), d, msg, script, doomed).state
  }

  lemma HandledOk(s: State, d: nat, conn: nat, msg: Msg, script: Script, doomed: set<nat>)
    requires VisitReady(s, d, conn, msg, script, doomed) && Matches(s.at[d].rule, conn, msg)
    ensures var t := Handled(s, d, conn, msg, script, doomed);
      && Inv(t, doomed) && d in t.at && t.at[d].lock && s.counter <= t.counter
      && (t.counter == s.counter ==> |After(t.order, d)| <= |After(s.order, d)|)
  {
    var p := Prepared(s, d, msg);
    PreparedInv(s, d, msg, doomed);
    if !(s.at[d].handler == ServiceFilter && msg.change.None?) {
      assert ListenerOk(p.at[d], p.counter, d in doomed);
      assert forall c :: c in p.at[d].callbacks ==> c in All(p.at[d]);
      PassSpec(p, d, msg, script, doomed, p.counter);
      PassAfter(p, d, msg, script, doomed);
    }
  }

  /** One iteration of the loop of `message_filter`. */
  ghost function Visit(s: State, d: nat, conn: nat, msg: Msg, script: Script, doomed: set<nat>): State
    requires VisitReady(s, d, conn, msg, script, doomed)
  {
    if Matches(s.at[d].rule, conn, msg) then
      HandledOk(s, d, conn, msg, script, doomed);
      Finish(Handled(s, d, conn, msg, script, doomed), d)
    else s
  }

  /** The ids called in this iteration, in order. */
  ghost function CallsAt(s: State, d: nat, conn: nat, msg: Msg, script: Script, doomed: set<nat>): seq<nat>
    requires VisitReady(s, d, conn, msg, script, doomed)
  {
    if !Matches(s.at[d].rule, conn, msg) || (s.at[d].handler == ServiceFilter && msg.change.None?) then []
    else Pass(Prepared(s, d, msg), d, msg, script, doomed).called
  }

  /** The listener has just been left without callbacks. */
  ghost predicate Emptied(s: State, d: nat, conn: nat, msg: Msg, script: Script, doomed: set<nat>)
    requires VisitReady(s, d, conn, msg, script, doomed)
  {
    var t := Visit(s, d, conn, msg, script, doomed);
    Matches(s.at[d].rule, conn, msg) && d in t.at && t.at[d].callbacks == []
  }

  lemma ClosedOk(x: Listener, n: nat, doomed: bool)
    requires ListenerOk(x, n, doomed) && x.lock
    ensures ListenerOk(Closed(x), n, doomed || x.processed == [])
    ensures forall c :: c in All(Closed(x)) ==> c in All(x)
  {
    DistinctParts(x.callbacks, x.processed);
    assert All(Closed(x)) == x.processed;
  }

  /** A visit keeps the registry in order, up to the listener it may leave empty. */
  lemma VisitInv(s: State, d: nat, conn: nat, msg: Msg, script: Script, doomed: set<nat>)
    requires VisitReady(s, d, conn, msg, script, doomed)
    ensures var t := Visit(s, d, conn, msg, script, doomed);
      && Inv(t, if Emptied(s, d, conn, msg, script, doomed) then doomed + {d} else doomed)
      && d in t.at && s.counter <= t.counter && (t.counter == s.counter ==> |After(t.order, d)| <= |After(s.order, d)|)
  {
    if Matches(s.at[d].rule, conn, msg) {
      var t := Handled(s, d, conn, msg, script, doomed);
      HandledOk(s, d, conn, msg, script, doomed);
      FinishInv(t, d, doomed);
    }
  }

  lemma FinishInv(t: State, d: nat, doomed: set<nat>)
    requires Inv(t, doomed) && d in t.at && t.at[d].lock
    ensures Inv(Finish(t, d), if t.at[d].processed == [] then doomed + {d} else doomed)
  {
    var x := t.at[d];
    var more := if x.processed == [] then doomed + {d} else doomed;
    assert ListenerOk(x, t.counter, d in doomed);
    ClosedOk(x, t.counter, d in doomed);
    RewriteInv(t, d, Closed(x), t.counter, doomed, more);
    assert Rewritten(t, d, Closed(x), t.counter) == Finish(t, d);
  }

  // ---- the whole message ----

  function NextOf(s: State, d: nat): Option<nat> {
    var l := After(s.order, d);
    if l == [] then None else Some(l[0])
  }

  function Rank(s: State, cur: Option<nat>): nat {
    match cur
    case None => 0
    case Some(d) => |After(s.order, d)| + 1
  }

  lemma {:induction false} AfterNext(l: seq<nat>, d: nat)
    requires NoDup(l) && After(l, d) != []
    ensures After(l, After(l, d)[0]) == After(l, d)[1..] && After(l, d)[0] in l
  {
    if l[0] != d {
      AfterNext(l[1..], d);
      AfterIn(l[1..], d);
      assert After(l, d) == After(l[1..], d);
      assert After(l, d)[0] in l[1..];
    }
  }

  /** Every visit uses up an id or comes nearer to the end of the list, so the pass ends. */
  lemma VisitShrinks(s: State, d: nat, conn: nat, msg: Msg, script: Script, doomed: set<nat>)
    requires VisitReady(s, d, conn, msg, script, doomed)
    ensures var t := Visit(s, d, conn, msg, script, doomed);
      s.counter <= t.counter < U32 && (t.counter == s.counter ==> Rank(t, NextOf(t, d)) < Rank(s, Some(d)))
  {
    VisitInv(s, d, conn, msg, script, doomed);
    var t := Visit(s, d, conn, msg, script, doomed);
    if After(t.order, d) != [] { AfterNext(t.order, d); }
  }

  /** Malformed owner signals cost a listener its callbacks: none is called and all are dropped. */
  lemma MalformedDropsAll(s: State, d: nat, conn: nat, msg: Msg, script: Script, doomed: set<nat>)
    requires VisitReady(s, d, conn, msg, script, doomed) && Matches(s.at[d].rule, conn, msg)
    requires s.at[d].handler == ServiceFilter && msg.change.None?
    ensures Emptied(s, d, conn, msg, script, doomed)
  {
    assert ListenerOk(s.at[d], s.counter, d in doomed);
    VisitInv(s, d, conn, msg, script, doomed);
  }

  /** What one signal does to one listener that it reaches: who is called, and who is left. */
  lemma VisitSpec(s: State, d: nat, conn: nat, msg: Msg, script: Script, doomed: set<nat>)
    requires VisitReady(s, d, conn, msg, script, doomed) && Matches(s.at[d].rule, conn, msg)
    requires s.at[d].handler == ServiceFilter ==> msg.change.Some?
    ensures var p := Prepared(s, d, msg);
      var x, n := p.at[d], s.counter;
      var v := Voice(s.at[d].callbacks, n);
      var t := Visit(s, d, conn, msg, script, doomed);
      && Pass(p, d, msg, script, doomed).called == Expected(v, x.rule, x.handler, msg, script, {})
      && d in t.at && !t.at[d].lock && t.at[d].processed == []
      && Voice(t.at[d].callbacks, n) == Keep(v, RemovedBy(v, x.rule, x.handler, msg, script, {}))
  {
    PreparedListener(s, d, msg, doomed);
    VisitPass(s, d, Prepared(s, d, msg), msg, script, doomed);
    HandledOk(s, d, conn, msg, script, doomed);
  }

  lemma VisitPass(s: State, d: nat, p: State, msg: Msg, script: Script, doomed: set<nat>)
    requires d in s.at && Ready(p, d, msg, script, doomed) && p.counter == s.counter
    requires p.at[d].processed == [] && p.at[d].callbacks == s.at[d].callbacks
    requires forall c :: c in s.at[d].callbacks ==> c.id <= s.counter
    ensures var x, r, v := p.at[d], Pass(p, d, msg, script, doomed), Voice(s.at[d].callbacks, s.counter);
      && r.called == Expected(v, x.rule, x.handler, msg, script, {}) && d in r.state.at
      && Voice(r.state.at[d].processed, s.counter) == Keep(v, RemovedBy(v, x.rule, x.handler, msg, script, {}))
  {
    PassSpec(p, d, msg, script, doomed, s.counter);
    var v := Voice(s.at[d].callbacks, s.counter);
    NoVoices(p.at[d].processed, Keep(v, RemovedBy(v, p.at[d].rule, p.at[d].handler, msg, script, {})), s.counter);
  }

  lemma NoVoices(l: seq<Callback>, more: seq<Callback>, n: nat)
    requires l == []
    ensures forall g :: Keep(Voice(l, n), g) + more == more
  {
    forall g ensures Keep(Voice(l, n), g) + more == more {
      assert Keep(Voice(l, n), g) == [];
    }
  }

  lemma PreparedListener(s: State, d: nat, msg: Msg, doomed: set<nat>)
    requires AllOk(s.at, s.counter, doomed) && d in s.at && !s.at[d].lock
    ensures var p := Prepared(s, d, msg);
      && p.counter == s.counter && d in p.at && p.at[d].processed == [] && p.at[d].callbacks == s.at[d].callbacks
      && p.at[d].handler == s.at[d].handler && forall c :: c in s.at[d].callbacks ==> c.id <= s.counter
  {
    assert ListenerOk(s.at[d], s.counter, d in doomed);
    assert forall c :: c in s.at[d].callbacks ==> c in All(s.at[d]);
  }
}
