/** Which watches a signal calls, told from the fields of the message and of the listeners' rules. */
module WatchCalls {
  import opened Lists
  import opened WatchModel
  import opened WatchInvariant
  import opened WatchRefinement
  import opened WatchDispatch
  import opened WatchMessage
  import opened WatchWalk

  /** The rule is one of this connection, and each of its fields that is set equals that of the message. */
  predicate Asks(rule: Rule, conn: nat, msg: Msg) {
    && rule.conn == conn
    && (rule.owner.Some? ==> msg.sender == rule.owner)
    && (rule.path.Some? ==> msg.path == rule.path)
    && (rule.iface.Some? ==> msg.iface == rule.iface)
    && (rule.member.Some? ==> msg.member == rule.member)
    && (rule.argument.Some? ==> msg.arg == rule.argument)
  }

  /** The callback has the function for the message: for a change of owner the one that fits the new owner. */
  predicate Answers(handler: Handler, msg: Msg, f: Func) {
    if handler == SignalFilter then f.signal
    else msg.change.Some? && (if msg.change.value.owner == "" then f.disc else f.conn)
  }

  /** What the callback returned, or that it has seen the one event it waits for, ends its watch. */
  predicate Leaves(handler: Handler, argument: Option<string>, f: Func, keep: bool) {
    if handler == SignalFilter then f.signal && !keep
    else argument.Some? && argument.value != "" && argument.value[0] == ':' && !(f.conn && f.disc)
  }

  // ---- one listener ----

  lemma {:induction false} InExpected(v: seq<Callback>, rule: Rule, handler: Handler, msg: Msg, script: Script, gone: set<nat>, j: nat)
    requires Distinct(v) && 0 < j < |v|
    ensures v[j].id in Expected(v, rule, handler, msg, script, gone) <==>
      v[j].id in Expected(v[1..], rule, handler, msg, script, if v[0].id in gone then gone else gone + Goes(rule, handler, msg, script, v[0]))
  {
  }

  /** What a pass removes is removed by a callback that is called, or by its own turn. */
  lemma {:induction false} RemovedIff(v: seq<Callback>, rule: Rule, handler: Handler, msg: Msg, script: Script, gone: set<nat>, id: nat)
    requires Distinct(v)
    ensures id in RemovedBy(v, rule, handler, msg, script, gone) <==> (
      || id in gone
      || (exists j :: 0 <= j < |v| && v[j].id in Expected(v, rule, handler, msg, script, gone) && RemoveOp(id) in script(v[j].id).ops)
      || (exists j :: 0 <= j < |v| && v[j].id == id && Leaves(handler, rule.argument, v[j].func, script(id).keep)))
  {
    if v != [] {
      var t, more := v[1..], if v[0].id in gone then gone else gone + Goes(rule, handler, msg, script, v[0]);
      assert forall i, j :: 0 <= i < j < |t| ==> t[i] == v[i + 1] && t[j] == v[j + 1];
      RemovedIff(t, rule, handler, msg, script, more, id);
      HeadRemoves(v, rule, handler, msg, script, gone, id);
      forall j | 0 < j < |v| ensures v[j].id in Expected(v, rule, handler, msg, script, gone) <==> t[j - 1].id in Expected(t, rule, handler, msg, script, more) {
        InExpected(v, rule, handler, msg, script, gone, j);
      }
      assert forall j :: 0 < j < |v| ==> v[j] == t[j - 1];
    }
  }

  lemma RemovalIff(ops: seq<Op>, id: nat)
    ensures id in Removals(ops) <==> RemoveOp(id) in ops
  {
    if RemoveOp(id) in ops {
      var k :| 0 <= k < |ops| && ops[k] == RemoveOp(id);
    }
  }

  lemma HeadRemoves(v: seq<Callback>, rule: Rule, handler: Handler, msg: Msg, script: Script, gone: set<nat>, id: nat)
    requires Distinct(v) && v != []
    ensures var more := if v[0].id in gone then gone else gone + Goes(rule, handler, msg, script, v[0]);
      id in more <==> (
        || id in gone
        || (v[0].id in Expected(v, rule, handler, msg, script, gone) && RemoveOp(id) in script(v[0].id).ops)
        || (v[0].id == id && Leaves(handler, rule.argument, v[0].func, script(id).keep)))
  {
    var c := v[0];
    ExpectedIds(v[1..], rule, handler, msg, script, if c.id in gone then gone else gone + Goes(rule, handler, msg, script, c));
    assert forall j :: 0 <= j < |v[1..]| ==> v[1..][j] == v[j + 1];
    GoesIff(rule, handler, msg, script, c, id);
  }

  lemma GoesIff(rule: Rule, handler: Handler, msg: Msg, script: Script, c: Callback, id: nat)
    ensures id in Goes(rule, handler, msg, script, c) <==>
      (Calls(handler, msg, c.func) && RemoveOp(id) in script(c.id).ops)
      || (c.id == id && Drops(rule, handler, msg, c.func, script(id).keep))
    ensures Drops(rule, handler, msg, c.func, script(id).keep) <==> Leaves(handler, rule.argument, c.func, script(id).keep)
  {
    RemovalIff(script(c.id).ops, id);
  }

  lemma VoicePrefix(l: seq<Callback>, n: nat, k: nat)
    requires k < |l| && l[k].func != SILENT && l[k].id <= n
    ensures var a, v := Voice(l[..k], n), Voice(l, n); |a| < |v| && v[..|a|] == a && v[|a|] == l[k]
  {
    assert l == l[..k] + l[k..];
    VoiceConcat(l[..k], l[k..], n);
    HeadVoice(l[k..], n);
  }

  lemma {:induction false} VoiceDistinct(l: seq<Callback>, n: nat)
    requires Distinct(l)
    ensures Distinct(Voice(l, n))
  {
    if l != [] {
      assert forall i, j :: 0 <= i < j < |l[1..]| ==> l[1..][i] == l[i + 1] && l[1..][j] == l[j + 1];
      VoiceDistinct(l[1..], n);
      VoiceMembers(l[1..], n);
      var r := Voice(l[1..], n);
      forall j | 0 <= j < |r| ensures r[j].id != l[0].id {
        assert r[j] in r;
        var m :| 0 <= m < |l[1..]| && l[1..][m] == r[j];
        assert l[m + 1] == r[j];
      }
    }
  }

  /** Only voices are called. */
  lemma CalledHaveVoice(l: seq<Callback>, rule: Rule, handler: Handler, msg: Msg, script: Script, n: nat, k: nat)
    requires Distinct(l) && k < |l| && l[k].id in Expected(Voice(l, n), rule, handler, msg, script, {})
    ensures l[k] in Voice(l, n) && l[k].func != SILENT
  {
    var v := Voice(l, n);
    ExpectedIds(v, rule, handler, msg, script, {});
    var j :| 0 <= j < |v| && v[j].id == l[k].id;
    VoiceMembers(l, n);
    assert v[j] in v;
    SameCallback(l, v[j], l[k]);
  }

  lemma {:induction false} PrefixCalled(v: seq<Callback>, rule: Rule, handler: Handler, msg: Msg, script: Script, m: nat, j: nat)
    requires Distinct(v) && j < m <= |v|
    ensures v[j].id in Expected(v[..m], rule, handler, msg, script, {}) <==> v[j].id in Expected(v, rule, handler, msg, script, {})
  {
    CalledIff(v, rule, handler, msg, script, {}, j);
    CalledIff(v[..m], rule, handler, msg, script, {}, j);
    assert v[..m][..j] == v[..j];
  }

  /** No callback before the `k`-th that is called removes it. */
  predicate Spared(l: seq<Callback>, called: seq<nat>, script: Script, k: nat)
    requires k < |l|
  {
    forall j :: 0 <= j < k && l[j].id in called ==> RemoveOp(l[k].id) !in script(l[j].id).ops
  }

  /** Some callback of the list that is called removes the id. */
  predicate Cut(l: seq<Callback>, called: seq<nat>, script: Script, id: nat) {
    exists j :: 0 <= j < |l| && l[j].id in called && RemoveOp(id) in script(l[j].id).ops
  }

  /** A callback of the list is called exactly if it answers and no earlier one that is called removes it. */
  lemma ListCalled(l: seq<Callback>, rule: Rule, handler: Handler, msg: Msg, script: Script, n: nat, k: nat)
    requires Distinct(l) && k < |l| && (forall c :: c in l ==> c.id <= n) && (handler == ServiceFilter ==> msg.change.Some?)
    ensures var called := Expected(Voice(l, n), rule, handler, msg, script, {});
      l[k].id in called <==> Answers(handler, msg, l[k].func) && Spared(l, called, script, k)
  {
    var called := Expected(Voice(l, n), rule, handler, msg, script, {});
    if l[k].func == SILENT {
      if l[k].id in called { CalledHaveVoice(l, rule, handler, msg, script, n, k); }
    } else {
      VoicePrefix(l, n, k);
      VoiceDistinct(l, n);
      var v, m := Voice(l, n), |Voice(l[..k], n)|;
      CalledIff(v, rule, handler, msg, script, {}, m);
      assert forall i, j :: 0 <= i < j < |v[..m]| ==> v[..m][i] == v[i] && v[..m][j] == v[j];
      RemovedIff(v[..m], rule, handler, msg, script, {}, l[k].id);
      EarlierCalls(l, rule, handler, msg, script, n, k);
    }
  }

  /** Among the callbacks before the `k`-th, those with a function are called as if they were alone. */
  lemma EarlierCalls(l: seq<Callback>, rule: Rule, handler: Handler, msg: Msg, script: Script, n: nat, k: nat)
    requires Distinct(l) && k < |l| && l[k].func != SILENT && forall c :: c in l ==> c.id <= n
    ensures var a := Voice(l[..k], n);
      Cut(a, Expected(a, rule, handler, msg, script, {}), script, l[k].id)
      <==> !Spared(l, Expected(Voice(l, n), rule, handler, msg, script, {}), script, k)
  {
    var v, a := Voice(l, n), Voice(l[..k], n);
    var called := Expected(v, rule, handler, msg, script, {});
    VoicePrefix(l, n, k);
    VoiceDistinct(l, n);
    VoiceMembers(l[..k], n);
    forall j | 0 <= j < |a| ensures a[j].id in Expected(a, rule, handler, msg, script, {}) <==> a[j].id in called {
      PrefixCalled(v, rule, handler, msg, script, |a|, j);
    }
    forall j | 0 <= j < k && l[j].id in called ensures l[j] in a {
      CalledHaveVoice(l, rule, handler, msg, script, n, j);
      assert l[..k][j] == l[j];
    }
    CutIsSpared(l, a, called, script, k);
  }

  lemma CutIsSpared(l: seq<Callback>, a: seq<Callback>, called: seq<nat>, script: Script, k: nat)
    requires k < |l| && (forall c :: c in a ==> c in l[..k]) && forall j :: 0 <= j < k && l[j].id in called ==> l[j] in a
    ensures Cut(a, called, script, l[k].id) <==> !Spared(l, called, script, k)
  {
    if j :| 0 <= j < |a| && a[j].id in called && RemoveOp(l[k].id) in script(a[j].id).ops {
      assert a[j] in l[..k];
      var i :| 0 <= i < k && l[..k][i] == a[j];
    }
    if j :| 0 <= j < k && l[j].id in called && RemoveOp(l[k].id) in script(l[j].id).ops {
      var i :| 0 <= i < |a| && a[i] == l[j];
    }
  }

  /** The calls of one visit: exactly the callbacks of the listener that answer the message, if the
      listener's rule asks for it, but for those that an earlier call removes. */
  lemma CalledInVisit(s: State, d: nat, conn: nat, msg: Msg, script: Script, doomed: set<nat>, k: nat)
    requires VisitReady(s, d, conn, msg, script, doomed) && k < |s.at[d].callbacks|
    ensures var l, called := s.at[d].callbacks, CallsAt(s, d, conn, msg, script, doomed);
      l[k].id in called <==> Asks(s.at[d].rule, conn, msg) && Answers(s.at[d].handler, msg, l[k].func) && Spared(l, called, script, k)
  {
    var x := s.at[d];
    if Matches(x.rule, conn, msg) && (x.handler == ServiceFilter ==> msg.change.Some?) {
      VisitSpec(s, d, conn, msg, script, doomed);
      PreparedListener(s, d, msg, doomed);
      assert ListenerOk(x, s.counter, d in doomed);
      ListsDistinct(x, s.counter, d in doomed);
      ListCalled(x.callbacks, Prepared(s, d, msg).at[d].rule, x.handler, msg, script, s.counter, k);
    }
  }

  lemma CalledAreThere(s: State, d: nat, conn: nat, msg: Msg, script: Script, doomed: set<nat>)
    requires VisitReady(s, d, conn, msg, script, doomed)
    ensures forall id :: id in CallsAt(s, d, conn, msg, script, doomed) ==>
      exists k :: 0 <= k < |s.at[d].callbacks| && s.at[d].callbacks[k].id == id
  {
    var x := s.at[d];
    if Matches(x.rule, conn, msg) && (x.handler == ServiceFilter ==> msg.change.Some?) {
      VisitSpec(s, d, conn, msg, script, doomed);
      var v := Voice(x.callbacks, s.counter);
      ExpectedIds(v, Prepared(s, d, msg).at[d].rule, Prepared(s, d, msg).at[d].handler, msg, script, {});
      VoiceMembers(x.callbacks, s.counter);
      forall id | id in CallsAt(s, d, conn, msg, script, doomed)
        ensures exists k :: 0 <= k < |x.callbacks| && x.callbacks[k].id == id
      {
        var j :| 0 <= j < |v| && v[j].id == id;
        assert v[j] in v;
        var k :| 0 <= k < |x.callbacks| && x.callbacks[k] == v[j];
      }
    }
  }

  lemma CutVoices(l: seq<Callback>, rule: Rule, handler: Handler, msg: Msg, script: Script, n: nat, id: nat)
    requires Distinct(l)
    ensures var v := Voice(l, n);
      var called := Expected(v, rule, handler, msg, script, {});
      Cut(v, called, script, id) <==> Cut(l, called, script, id)
  {
    var v := Voice(l, n);
    var called := Expected(v, rule, handler, msg, script, {});
    VoiceMembers(l, n);
    if j :| 0 <= j < |v| && v[j].id in called && RemoveOp(id) in script(v[j].id).ops {
      assert v[j] in v;
      var i :| 0 <= i < |l| && l[i] == v[j];
    }
    if j :| 0 <= j < |l| && l[j].id in called && RemoveOp(id) in script(l[j].id).ops {
      CalledHaveVoice(l, rule, handler, msg, script, n, j);
      var i :| 0 <= i < |v| && v[i] == l[j];
    }
  }

  lemma ListKept(l: seq<Callback>, rule: Rule, handler: Handler, msg: Msg, script: Script, n: nat, k: nat)
    requires Distinct(l) && k < |l| && l[k].func != SILENT && l[k].id <= n
    ensures var v := Voice(l, n);
      l[k] in Keep(v, RemovedBy(v, rule, handler, msg, script, {})) <==>
        !Cut(l, Expected(v, rule, handler, msg, script, {}), script, l[k].id)
        && !Leaves(handler, rule.argument, l[k].func, script(l[k].id).keep)
  {
    var v := Voice(l, n);
    VoiceMembers(l, n);
    VoiceDistinct(l, n);
    KeepMembers(v, RemovedBy(v, rule, handler, msg, script, {}));
    RemovedIff(v, rule, handler, msg, script, {}, l[k].id);
    CutVoices(l, rule, handler, msg, script, n, l[k].id);
    var i :| 0 <= i < |v| && v[i] == l[k];
  }

  /** What is left after a visit that calls callbacks: those that no called one removes and that do not end
      by themselves. */
  lemma KeptInVisit(s: State, d: nat, conn: nat, msg: Msg, script: Script, doomed: set<nat>, k: nat)
    requires VisitReady(s, d, conn, msg, script, doomed) && k < |s.at[d].callbacks| && s.at[d].callbacks[k].func != SILENT
    requires Asks(s.at[d].rule, conn, msg) && (s.at[d].handler == ServiceFilter ==> msg.change.Some?)
    ensures var x, t := s.at[d], Visit(s, d, conn, msg, script, doomed);
      d in t.at && (x.callbacks[k] in t.at[d].callbacks <==>
        !Cut(x.callbacks, CallsAt(s, d, conn, msg, script, doomed), script, x.callbacks[k].id)
        && !Leaves(x.handler, x.rule.argument, x.callbacks[k].func, script(x.callbacks[k].id).keep))
  {
    var x, p, t := s.at[d], Prepared(s, d, msg), Visit(s, d, conn, msg, script, doomed);
    VisitSpec(s, d, conn, msg, script, doomed);
    PreparedListener(s, d, msg, doomed);
    PreparedSame(s, d, msg);
    assert ListenerOk(x, s.counter, d in doomed);
    ListsDistinct(x, s.counter, d in doomed);
    ListKept(x.callbacks, p.at[d].rule, x.handler, msg, script, s.counter, k);
    VoiceMembers(t.at[d].callbacks, s.counter);
  }
}
