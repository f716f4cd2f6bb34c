/** Whom the whole walk of a signal calls, while callbacks add and remove watches under way. */
module WatchHeard {
  import opened Lists
  import opened WatchModel
  import opened WatchInvariant
  import opened WatchRefinement
  import opened WatchDispatch
  import opened WatchMessage
  import opened WatchWalk
  import opened WatchQuiet
  import opened WatchCalls

  /** The walk from `p` on comes to `q`. */
  ghost predicate OnWalk(p: Stop, q: Stop, conn: nat, msg: Msg, script: Script)
    requires Calm(p, script)
    decreases U32 - p.state.counter, Rank(p.state, p.cur)
  {
    q == p || (p.cur.Some? && (NextCalm(p, conn, msg, script); OnWalk(NextStop(p, conn, msg, script), q, conn, msg, script)))
  }

  // ---- what a walk keeps ----

  lemma SeenTwice(x: Listener, y: Listener, z: Listener, n: nat, m: nat, msg: Msg)
    requires Seen(x, y, n, msg) && Seen(y, z, m, msg) && n <= m
    ensures Seen(x, z, n, msg)
  {
  }

  lemma KeptTwice(a: map<nat, Listener>, b: map<nat, Listener>, c: map<nat, Listener>, n: nat, m: nat, msg: Msg)
    requires VisitKept(a, b, n, msg) && VisitKept(b, c, m, msg) && n <= m && forall e :: e in a ==> e <= n
    ensures VisitKept(a, c, n, msg)
  {
    forall e | e in c ensures if e in a then Seen(a[e], c[e], n, msg) else e > n && Newer(c[e], n) {
      if e in b {
        assert Seen(b[e], c[e], m, msg);
        if e in a { SeenTwice(a[e], b[e], c[e], n, m, msg); }
      }
    }
  }

  lemma KeptSame(a: map<nat, Listener>, n: nat, msg: Msg)
    ensures VisitKept(a, a, n, msg)
  {
  }

  /** What one visit keeps, whether it calls callbacks or not. */
  lemma NextKept(p: Stop, conn: nat, msg: Msg, script: Script)
    requires Calm(p, script) && p.cur.Some?
    ensures var s, d, q := p.state, p.cur.value, NextStop(p, conn, msg, script);
      && Calm(q, script) && s.counter <= q.state.counter && VisitKept(s.at, q.state.at, s.counter, msg)
      && Follows(s.order, q.state.order, d, s.counter) && q.cur == NextOf(q.state, d)
  {
    var s, d, doomed := p.state, p.cur.value, ToSet(p.del);
    CalmReady(p, conn, msg, script);
    NextCalm(p, conn, msg, script);
    if Matches(s.at[d].rule, conn, msg) {
      VisitKeeps(s, d, conn, msg, script, doomed);
    } else {
      KeptSame(s.at, s.counter, msg);
      FollowsSame(s.order, d, s.counter);
    }
  }

  lemma {:induction false} WalkKept(p: Stop, q: Stop, conn: nat, msg: Msg, script: Script)
    requires Calm(p, script) && OnWalk(p, q, conn, msg, script)
    ensures Calm(q, script) && p.state.counter <= q.state.counter && VisitKept(p.state.at, q.state.at, p.state.counter, msg)
    decreases U32 - p.state.counter, Rank(p.state, p.cur)
  {
    if q == p {
      KeptSame(p.state.at, p.state.counter, msg);
    } else {
      var n := NextStop(p, conn, msg, script);
      NextCalm(p, conn, msg, script);
      NextKept(p, conn, msg, script);
      WalkKept(n, q, conn, msg, script);
      Resting(p.state, ToSet(p.del));
      KeptTwice(p.state.at, n.state.at, q.state.at, p.state.counter, n.state.counter, msg);
    }
  }

  // ---- only whom the message is for ----

  /** Every call of a walk is made at one of its stops. */
  lemma {:induction false} HeardAt(p: Stop, conn: nat, msg: Msg, script: Script, id: nat) returns (q: Stop)
    requires Calm(p, script) && id in Heard(p, conn, msg, script)
    ensures OnWalk(p, q, conn, msg, script) && Calm(q, script) && q.cur.Some? && id in StopCalls(q, conn, msg, script)
    decreases U32 - p.state.counter, Rank(p.state, p.cur)
  {
    NextCalm(p, conn, msg, script);
    if id in StopCalls(p, conn, msg, script) {
      q := p;
    } else {
      q := HeardAt(NextStop(p, conn, msg, script), conn, msg, script, id);
    }
  }

  /** The listener's rule asks for the message, perhaps with the new owner of its sender that the message tells. */
  predicate AsksFor(rule: Rule, conn: nat, msg: Msg) {
    Asks(rule, conn, msg)
    || (msg.change.Some? && rule.name == Some(msg.change.value.name) && Asks(rule.(owner := Some(msg.change.value.owner)), conn, msg))
  }

  /** The watch `id` is one for this message. */
  ghost predicate Wanted(at: map<nat, Listener>, id: nat, conn: nat, msg: Msg) {
    exists d, c :: d in at && c in at[d].callbacks && c.id == id && AsksFor(at[d].rule, conn, msg) && Answers(at[d].handler, msg, c.func)
  }

  /** At a stop only callbacks of the listener there are called, and only if its rule asks for the message. */
  lemma StopBelongs(q: Stop, conn: nat, msg: Msg, script: Script, id: nat) returns (k: nat)
    requires Calm(q, script) && q.cur.Some? && id in StopCalls(q, conn, msg, script)
    ensures var x := q.state.at[q.cur.value];
      && k < |x.callbacks| && x.callbacks[k].id == id
      && Asks(x.rule, conn, msg) && Answers(x.handler, msg, x.callbacks[k].func)
  {
    CalmReady(q, conn, msg, script);
    CalledAreThere(q.state, q.cur.value, conn, msg, script, ToSet(q.del));
    k :| 0 <= k < |q.state.at[q.cur.value].callbacks| && q.state.at[q.cur.value].callbacks[k].id == id;
    CalledInVisit(q.state, q.cur.value, conn, msg, script, ToSet(q.del), k);
  }

  lemma WantedBefore(a: map<nat, Listener>, b: map<nat, Listener>, d: nat, c: Callback, n: nat, conn: nat, msg: Msg)
    requires VisitKept(a, b, n, msg) && (forall e :: e in a ==> a[e].processed == []) && c.id <= n
    requires d in b && c in b[d].callbacks && Asks(b[d].rule, conn, msg) && Answers(b[d].handler, msg, c.func)
    ensures Wanted(a, c.id, conn, msg)
  {
    assert c in All(b[d]);
    assert d in a;
    assert c in All(a[d]) && All(a[d]) == a[d].callbacks;
  }

  ghost predicate OnlyWanted(called: seq<nat>, at: map<nat, Listener>, n: nat, conn: nat, msg: Msg) {
    forall id :: id in called && id <= n ==> Wanted(at, id, conn, msg)
  }

  /** Whatever the callbacks do: a watch made before the signal is called only if it is on this connection,
      its function is there, and every field that is set for its listener is that of the message. */
  lemma HeardBelongs(s: State, conn: nat, msg: Msg, script: Script)
    requires Rest(s, script)
    ensures OnlyWanted(SignalCalls(s, conn, msg, script), s.at, s.counter, conn, msg)
  {
    var p := Start(s);
    RestCalm(s, script);
    Resting(s, {});
    forall id | id in Heard(p, conn, msg, script) && id <= s.counter ensures Wanted(s.at, id, conn, msg) {
      var q := HeardAt(p, conn, msg, script, id);
      var k := StopBelongs(q, conn, msg, script, id);
      WalkKept(p, q, conn, msg, script);
      WantedBefore(p.state.at, q.state.at, q.cur.value, q.state.at[q.cur.value].callbacks[k], p.state.counter, conn, msg);
    }
  }

  // ---- everybody whom it is for ----

  /** Only what is due is called. */
  lemma {:induction false} HeardDue(p: Stop, conn: nat, msg: Msg, script: Script, id: nat)
    requires Calm(p, script) && id in Heard(p, conn, msg, script)
    ensures Due(p.state, p.cur, id)
    decreases U32 - p.state.counter, Rank(p.state, p.cur)
  {
    NextCalm(p, conn, msg, script);
    if id in StopCalls(p, conn, msg, script) {
      var k := StopBelongs(p, conn, msg, script, id);
      assert p.state.at[p.cur.value].callbacks[k] in p.state.at[p.cur.value].callbacks;
      assert Ahead(p.state, p.cur, p.cur.value);
    } else {
      HeardDue(NextStop(p, conn, msg, script), conn, msg, script, id);
      NextDue(p, conn, msg, script, id);
    }
  }

  lemma NextDue(p: Stop, conn: nat, msg: Msg, script: Script, id: nat)
    requires Calm(p, script) && p.cur.Some?
    requires var q := NextStop(p, conn, msg, script); Due(q.state, q.cur, id)
    ensures Due(p.state, p.cur, id) && id !in Ids(p.state.at[p.cur.value].callbacks)
  {
    NextKept(p, conn, msg, script);
    Resting(p.state, ToSet(p.del));
    DueLess(p.state, NextStop(p, conn, msg, script).state, p.cur.value, id, msg);
  }

  /** The watch `id` has a callback at the listener `d`. */
  predicate At(at: map<nat, Listener>, d: nat, id: nat) { d in at && id in Ids(at[d].callbacks) }

  lemma HereOnly(p: Stop, conn: nat, msg: Msg, script: Script, d: nat, id: nat)
    requires Calm(p, script) && p.cur.Some? && At(p.state.at, d, id) && id in StopCalls(p, conn, msg, script)
    ensures p.cur == Some(d)
  {
    var k := StopBelongs(p, conn, msg, script, id);
    assert p.state.at[p.cur.value].callbacks[k] in p.state.at[p.cur.value].callbacks;
    TwoHolders(p.state.at, p.cur.value, d, id);
  }

  /** A listener ahead that is not at its turn yet is ahead still after a visit, if it is listed still. */
  lemma AheadStill(s: State, t: State, cur: nat, d: nat)
    requires Shape(s) && Shape(t) && Follows(s.order, t.order, cur, s.counter) && Ahead(s, Some(cur), d) && d != cur && d in t.at
    ensures Ahead(t, NextOf(t, cur), d)
  {
    assert d in After(t.order, cur);
    AfterNext(t.order, cur);
  }

  lemma NotDue(s: State, t: State, cur: Option<nat>, d: nat, id: nat, msg: Msg)
    requires VisitKept(s.at, t.at, s.counter, msg) && At(s.at, d, id) && !At(t.at, d, id) && AllApart(s.at) && s.counter <= t.counter
    requires forall e :: e in s.at ==> s.at[e].processed == [] && InRange(s.at[e].callbacks, s.counter)
    ensures !Due(t, cur, id)
  {
    if Due(t, cur, id) {
      var e :| Ahead(t, cur, e) && id in Ids(t.at[e].callbacks);
      WasThere(s.at, t.at, e, id, s.counter, msg);
      TwoHolders(s.at, d, e, id);
    }
  }

  /** Callbacks that leave the registry alone remove nothing ahead. */
  lemma QuietStays(p: Stop, conn: nat, msg: Msg, script: Script, d: nat, id: nat)
    requires Calm(p, script) && Quiet(script) && p.cur.Some? && p.cur != Some(d) && At(p.state.at, d, id)
    ensures At(NextStop(p, conn, msg, script).state.at, d, id)
  {
    QuietStep(p, conn, msg, script);
  }

  /** Every watch of a listener ahead gets its turn, unless it is removed before; and only in its turn it is called. */
  lemma {:induction false} TurnOf(p: Stop, conn: nat, msg: Msg, script: Script, d: nat, id: nat) returns (q: Stop)
    requires Calm(p, script) && Ahead(p.state, p.cur, d) && At(p.state.at, d, id) && id <= p.state.counter
    ensures OnWalk(p, q, conn, msg, script) && Calm(q, script)
    ensures if At(q.state.at, d, id) then q.cur == Some(d) && (id in Heard(p, conn, msg, script) <==> id in StopCalls(q, conn, msg, script))
            else id !in Heard(p, conn, msg, script)
    ensures Quiet(script) ==> At(q.state.at, d, id)
    decreases U32 - p.state.counter, Rank(p.state, p.cur)
  {
    var n := NextStop(p, conn, msg, script);
    NextCalm(p, conn, msg, script);
    if p.cur == Some(d) {
      q := p;
      if id in Heard(n, conn, msg, script) {
        HeardDue(n, conn, msg, script, id);
        NextDue(p, conn, msg, script, id);
      }
    } else {
      if id in StopCalls(p, conn, msg, script) { HereOnly(p, conn, msg, script, d, id); }
      NextKept(p, conn, msg, script);
      if Quiet(script) { QuietStays(p, conn, msg, script, d, id); }
      if At(n.state.at, d, id) {
        AheadStill(p.state, n.state, p.cur.value, d);
        q := TurnOf(n, conn, msg, script, d, id);
      } else {
        q := n;
        Resting(p.state, ToSet(p.del));
        NotDue(p.state, n.state, n.cur, d, id, msg);
        if id in Heard(n, conn, msg, script) { HeardDue(n, conn, msg, script, id); }
      }
    }
  }

  /** A listener during a walk: it may have learnt the new owner of its sender, and nothing else about the rule changes. */
  predicate Heir(rule: Rule, now: Rule, msg: Msg) {
    now == rule
    || (msg.change.Some? && rule.name == Some(msg.change.value.name) && now == rule.(owner := Some(msg.change.value.owner)))
  }

  /** At a stop the callbacks of the listener there are called exactly if its rule asks for the message,
      they have the function for it, and none of those called before in this turn removes them. */
  ghost predicate CalledAsAsked(q: Stop, conn: nat, msg: Msg, script: Script, c: Callback, called: seq<nat>)
    requires Calm(q, script) && q.cur.Some?
  {
    var x := q.state.at[q.cur.value];
    exists j :: 0 <= j < |x.callbacks| && x.callbacks[j] == c &&
      (c.id in called <==>
        Asks(x.rule, conn, msg) && Answers(x.handler, msg, c.func) && Spared(x.callbacks, StopCalls(q, conn, msg, script), script, j))
  }

  /** Each watch that is registered when a signal comes: it gets its turn at a stop of the walk, where it is
      called exactly if its listener's rule asks for the message, it has the function, and no callback of the
      same listener called before removes it; or it is removed before its turn and not called. */
  lemma CalledIffAsked(s: State, conn: nat, msg: Msg, script: Script, d: nat, c: Callback) returns (q: Stop)
    requires Rest(s, script) && d in s.at && c in s.at[d].callbacks
    ensures Calm(Start(s), script) && OnWalk(Start(s), q, conn, msg, script) && Calm(q, script)
    ensures var called := SignalCalls(s, conn, msg, script);
      if At(q.state.at, d, c.id) then
        && q.cur == Some(d) && Heir(s.at[d].rule, q.state.at[d].rule, msg) && q.state.at[d].handler == s.at[d].handler
        && CalledAsAsked(q, conn, msg, script, c, called)
      else c.id !in called
    ensures Quiet(script) ==> At(q.state.at, d, c.id)
  {
    RestCalm(s, script);
    Resting(s, {});
    FirstAhead(s, d);
    q := TurnOf(Start(s), conn, msg, script, d, c.id);
    if At(q.state.at, d, c.id) {
      WalkKept(Start(s), q, conn, msg, script);
      SameStill(s.at, q.state.at, d, c, s.counter, msg);
      var j :| 0 <= j < |q.state.at[d].callbacks| && q.state.at[d].callbacks[j] == c;
      CalmReady(q, conn, msg, script);
      CalledInVisit(q.state, d, conn, msg, script, ToSet(q.del), j);
    }
  }

  lemma FirstAhead(s: State, d: nat)
    requires Shape(s) && d in s.at
    ensures Ahead(s, FirstOf(s), d)
  {
    assert d in s.order;
    assert s.order == [s.order[0]] + s.order[1..];
  }

  /** Under its id a watch is the same as before. */
  lemma SameStill(a: map<nat, Listener>, b: map<nat, Listener>, d: nat, c: Callback, n: nat, msg: Msg)
    requires VisitKept(a, b, n, msg) && d in a && a[d].processed == [] && c in a[d].callbacks && Distinct(a[d].callbacks) && c.id <= n
    requires At(b, d, c.id)
    ensures c in b[d].callbacks && Heir(a[d].rule, b[d].rule, msg) && b[d].handler == a[d].handler
  {
    var e :| e in b[d].callbacks && e.id == c.id;
    assert e in All(b[d]);
    assert e in All(a[d]) && All(a[d]) == a[d].callbacks;
    SameCallback(a[d].callbacks, c, e);
  }

  /** A visit for owner changes tells all listeners the new owner of their sender. */
  lemma OwnersLearnt(s: State, d: nat, conn: nat, msg: Msg, script: Script, doomed: set<nat>, e: nat)
    requires VisitReady(s, d, conn, msg, script, doomed) && Asks(s.at[d].rule, conn, msg) && msg.change.Some?
    requires e in s.at && e in Visit(s, d, conn, msg, script, doomed).at
    ensures var x, y := s.at[e], Visit(s, d, conn, msg, script, doomed).at[e];
      y.rule == if s.at[d].handler == ServiceFilter && x.rule.name == Some(msg.change.value.name)
        then x.rule.(owner := Some(msg.change.value.owner)) else x.rule
  {
    HandledKeeps(s, d, conn, msg, script, doomed);
    var p, h := Prepared(s, d, msg), Handled(s, d, conn, msg, script, doomed);
    HandledOk(s, d, conn, msg, script, doomed);
    assert e in p.at && Onward(p.at[e], h.at[e], s.counter);
  }
}
