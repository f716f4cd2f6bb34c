/** Signals whose callbacks leave the registry alone: which listeners they empty, seen from the state before. */
module WatchQuiet {
  import opened Lists
  import opened WatchModel
  import opened WatchInvariant
  import opened WatchRefinement
  import opened WatchDispatch
  import opened WatchMessage
  import opened WatchWalk

  ghost predicate Quiet(script: Script) { forall id :: script(id).ops == [] }

  /** The callbacks that a pass keeps. */
  function Stay(l: seq<Callback>, rule: Rule, handler: Handler, msg: Msg, script: Script): seq<Callback> {
    if l == [] then []
    else (if Drops(rule, handler, msg, l[0].func, script(l[0].id).keep) then [] else [l[0]]) + Stay(l[1..], rule, handler, msg, script)
  }

  function Staying(x: Listener, msg: Msg, script: Script): seq<Callback> { Stay(x.callbacks, x.rule, x.handler, msg, script) }

  /** A listener after one turn without changes to the registry. */
  function OneTurn(x: Listener, msg: Msg, script: Script): Listener
    requires x.callbacks != []
  {
    var c := x.callbacks[0];
    var kept := if Drops(x.rule, x.handler, msg, c.func, script(c.id).keep) then [] else [c];
    x.(callbacks := x.callbacks[1..], processed := x.processed + kept)
  }

  lemma HeadRemoved(x: Listener, n: nat, doomed: bool)
    requires ListenerOk(x, n, doomed) && x.callbacks != []
    ensures var id := x.callbacks[0].id;
      RemoveId(x.callbacks, id) == x.callbacks[1..] && RemoveId(x.processed, id) == x.processed && HasId(x.callbacks, id)
  {
    HeadAway(x, n, doomed);
    RemoveIdAbsent(x.processed, x.callbacks[0].id);
  }

  lemma QuietTurn(s: State, d: nat, msg: Msg, script: Script, doomed: set<nat>)
    requires Ready(s, d, msg, script, doomed) && Quiet(script) && s.at[d].callbacks != []
    ensures Turn(s, d, msg, script, doomed) == With(s, d, OneTurn(s.at[d], msg, script))
  {
    var x := s.at[d];
    assert ListenerOk(x, s.counter, d in doomed);
    HeadRemoved(x, s.counter, d in doomed);
    CalledThere(s, d, msg, script, doomed);
    RemoveLocked(s, d, x.callbacks[0].id);
    assert Called(s, d, msg, script) == s;
    assert x.processed + [] == x.processed;
  }

  /** The listener after the whole pass. */
  function AllTurns(x: Listener, msg: Msg, script: Script): Listener {
    x.(callbacks := [], processed := x.processed + Staying(x, msg, script))
  }

  lemma TurnsCons(x: Listener, msg: Msg, script: Script)
    requires x.callbacks != []
    ensures AllTurns(OneTurn(x, msg, script), msg, script) == AllTurns(x, msg, script)
  {
  }

  /** The state with another listener under `d`. */
  function With(s: State, d: nat, y: Listener): State { s.(at := s.at[d := y]) }

  lemma WithTwice(s: State, d: nat, y: Listener, z: Listener)
    ensures With(With(s, d, y), d, z) == With(s, d, z)
  {
    assert s.at[d := y][d := z] == s.at[d := z];
  }

  lemma WithSame(s: State, d: nat)
    requires d in s.at
    ensures With(s, d, s.at[d]) == s
  {
    assert s.at[d := s.at[d]] == s.at;
  }

  lemma PassOne(s: State, d: nat, msg: Msg, script: Script, doomed: set<nat>) returns (t: State)
    requires Ready(s, d, msg, script, doomed) && s.at[d].callbacks != []
    ensures t == Turn(s, d, msg, script, doomed) && Ready(t, d, msg, script, doomed)
    ensures |t.at[d].callbacks| < |s.at[d].callbacks| && Pass(s, d, msg, script, doomed).state == Pass(t, d, msg, script, doomed).state
  {
    TurnReady(s, d, msg, script, doomed);
    t := Turn(s, d, msg, script, doomed);
  }

  lemma {:induction false} QuietPass(s: State, d: nat, msg: Msg, script: Script, doomed: set<nat>)
    requires Ready(s, d, msg, script, doomed) && Quiet(script)
    ensures Pass(s, d, msg, script, doomed).state == With(s, d, AllTurns(s.at[d], msg, script))
    decreases |s.at[d].callbacks|
  {
    var x := s.at[d];
    if x.callbacks == [] {
      assert AllTurns(x, msg, script) == x;
      WithSame(s, d);
    } else {
      var t := PassOne(s, d, msg, script, doomed);
      QuietTurn(s, d, msg, script, doomed);
      TurnsCons(x, msg, script);
      WithTwice(s, d, OneTurn(x, msg, script), AllTurns(x, msg, script));
      QuietPass(t, d, msg, script, doomed);
    }
  }

  /** The listener has no callback left after a signal that reaches it. */
  predicate Gone(x: Listener, msg: Msg, script: Script) {
    (x.handler == ServiceFilter && msg.change.None?) || Staying(x, msg, script) == []
  }

  /** Nothing stays exactly if every callback asks to be removed. */
  lemma {:induction false} StayNone(l: seq<Callback>, rule: Rule, handler: Handler, msg: Msg, script: Script)
    ensures Stay(l, rule, handler, msg, script) == [] <==> forall c :: c in l ==> Drops(rule, handler, msg, c.func, script(c.id).keep)
  {
    if l != [] {
      StayNone(l[1..], rule, handler, msg, script);
      assert l == [l[0]] + l[1..];
    }
  }

  /** A visited listener, which is `x` when it is reached. */
  function Visited(x: Listener, msg: Msg, script: Script): Listener {
    x.(callbacks := if Gone(x, msg, script) then [] else Staying(x, msg, script), processed := [], lock := false)
  }

  /** A visit brings the cached owners up to date and closes the visited listener. */
  lemma QuietVisit(s: State, d: nat, conn: nat, msg: Msg, script: Script, doomed: set<nat>)
    requires VisitReady(s, d, conn, msg, script, doomed) && Matches(s.at[d].rule, conn, msg) && Quiet(script)
    ensures d in Prepared(s, d, msg).at
    ensures Visit(s, d, conn, msg, script, doomed) == With(Prepared(s, d, msg), d, Visited(Prepared(s, d, msg).at[d], msg, script))
  {
    var p := Prepared(s, d, msg);
    HandledOk(s, d, conn, msg, script, doomed);
    PreparedListener(s, d, msg, doomed);
    QuietHandled(s, d, conn, msg, script, doomed);
    QuietClosed(p, Handled(s, d, conn, msg, script, doomed), d, msg, script);
  }

  lemma QuietHandled(s: State, d: nat, conn: nat, msg: Msg, script: Script, doomed: set<nat>)
    requires VisitReady(s, d, conn, msg, script, doomed) && Matches(s.at[d].rule, conn, msg) && Quiet(script)
    ensures var p := Prepared(s, d, msg);
      && d in p.at && p.at[d].handler == s.at[d].handler
      && Handled(s, d, conn, msg, script, doomed) ==
        if s.at[d].handler == ServiceFilter && msg.change.None? then p else With(p, d, AllTurns(p.at[d], msg, script))
  {
    if !(s.at[d].handler == ServiceFilter && msg.change.None?) {
      QuietPass(Prepared(s, d, msg), d, msg, script, doomed);
    }
  }

  lemma QuietClosed(p: State, h: State, d: nat, msg: Msg, script: Script)
    requires d in p.at && p.at[d].processed == []
    requires var x := p.at[d]; h == if x.handler == ServiceFilter && msg.change.None? then p else With(p, d, AllTurns(x, msg, script))
    ensures Finish(h, d) == With(p, d, Visited(p.at[d], msg, script))
  {
    var x := p.at[d];
    assert [] + Staying(x, msg, script) == Staying(x, msg, script);
    WithTwice(p, d, AllTurns(x, msg, script), Visited(x, msg, script));
  }

  lemma PreparedRule(s: State, d: nat, msg: Msg)
    requires d in s.at
    ensures d in Prepared(s, d, msg).at && Prepared(s, d, msg).at[d].rule.argument == s.at[d].rule.argument
  {
  }

  lemma {:induction false} SameStay(l: seq<Callback>, a: Rule, b: Rule, handler: Handler, msg: Msg, script: Script)
    requires a.argument == b.argument
    ensures Stay(l, a, handler, msg, script) == Stay(l, b, handler, msg, script)
  {
    if l != [] {
      SameStay(l[1..], a, b, handler, msg, script);
    }
  }

  lemma PreparedGone(s: State, d: nat, msg: Msg, script: Script)
    requires d in s.at
    ensures Gone(Prepared(s, d, msg).at[d], msg, script) <==> Gone(s.at[d], msg, script)
  {
    PreparedSame(s, d, msg);
    PreparedRule(s, d, msg);
    SameStay(s.at[d].callbacks, s.at[d].rule, Prepared(s, d, msg).at[d].rule, s.at[d].handler, msg, script);
  }

  // ---- the listeners that a signal empties ----

  predicate Updates(x: Listener, msg: Msg) { x.handler == ServiceFilter && msg.change.Some? }

  /** A listener before its visit; the cached owner is new if a listener for owner changes came before it. */
  function Owned(x: Listener, msg: Msg, updated: bool): Listener {
    if updated && msg.change.Some? then Renamed(x, msg.change.value) else x
  }

  /** Those of the listeners in `l` that match the signal and keep no callback, from the registry before it. */
  function Emptying(l: seq<nat>, at: map<nat, Listener>, conn: nat, msg: Msg, script: Script, updated: bool): seq<nat> {
    if l == [] then []
    else if l[0] in at && Matches(Owned(at[l[0]], msg, updated).rule, conn, msg) then
      (if Gone(at[l[0]], msg, script) then [l[0]] else [])
        + Emptying(l[1..], at, conn, msg, script, updated || Updates(at[l[0]], msg))
    else Emptying(l[1..], at, conn, msg, script, updated)
  }

  /** The listeners that a walk has still to visit. */
  function ToVisit(p: Stop): seq<nat> { if p.cur.None? then [] else [p.cur.value] + After(p.state.order, p.cur.value) }

  ghost predicate Untouched(l: seq<nat>, at: map<nat, Listener>, now: map<nat, Listener>, msg: Msg, updated: bool) {
    forall e :: e in l ==> e in at && e in now && now[e] == Owned(at[e], msg, updated)
  }

  lemma ToVisitNext(s: State, d: nat, del: seq<nat>)
    requires NoDup(s.order)
    ensures ToVisit(Stop(s, NextOf(s, d), del)) == After(s.order, d) && d !in After(s.order, d)
  {
    AfterNot(s.order, d);
    if After(s.order, d) != [] { AfterNext(s.order, d); }
  }

  lemma OwnedTwice(x: Listener, msg: Msg, a: bool, b: bool)
    ensures Owned(Owned(x, msg, a), msg, b) == Owned(x, msg, a || b)
  {
  }

  lemma OwnedPrepared(s: State, d: nat, e: nat, msg: Msg)
    requires d in s.at && e in s.at && e != d
    ensures e in Prepared(s, d, msg).at && Prepared(s, d, msg).at[e] == Owned(s.at[e], msg, Updates(s.at[d], msg))
  {
  }

  lemma OwnedGone(x: Listener, msg: Msg, script: Script, updated: bool)
    ensures Gone(Owned(x, msg, updated), msg, script) <==> Gone(x, msg, script)
    ensures Owned(x, msg, updated).handler == x.handler
  {
    SameStay(x.callbacks, x.rule, Owned(x, msg, updated).rule, x.handler, msg, script);
  }

  /** One visit: what it empties, and that the listeners ahead are touched in their cached owner only. */
  lemma QuietStep(p: Stop, conn: nat, msg: Msg, script: Script)
    requires Calm(p, script) && Quiet(script) && p.cur.Some?
    ensures var s, d, q := p.state, p.cur.value, NextStop(p, conn, msg, script);
      var hit := Matches(s.at[d].rule, conn, msg);
      && q.state.order == s.order && q.state.at.Keys == s.at.Keys && ToVisit(q) == After(s.order, d)
      && q.del == (if hit && Gone(s.at[d], msg, script) then [d] else []) + p.del
      && forall e :: e in s.at && e != d ==> q.state.at[e] == Owned(s.at[e], msg, hit && Updates(s.at[d], msg))
  {
    var s, d, doomed := p.state, p.cur.value, ToSet(p.del);
    CalmReady(p, conn, msg, script);
    var q := NextStop(p, conn, msg, script);
    if Matches(s.at[d].rule, conn, msg) {
      QuietVisit(s, d, conn, msg, script, doomed);
      PreparedGone(s, d, msg, script);
      PreparedSame(s, d, msg);
      forall e | e in s.at && e != d ensures q.state.at[e] == Owned(s.at[e], msg, Updates(s.at[d], msg)) {
        OwnedPrepared(s, d, e, msg);
      }
    }
    assert [] + p.del == p.del;
    ToVisitNext(q.state, d, q.del);
  }

  /** The first listener of a list, and the others. */
  lemma EmptyingCons(l: seq<nat>, at: map<nat, Listener>, conn: nat, msg: Msg, script: Script, updated: bool, del: seq<nat>)
    requires l != [] && l[0] in at
    ensures var hit := Matches(Owned(at[l[0]], msg, updated).rule, conn, msg);
      Reverse(Emptying(l, at, conn, msg, script, updated)) + del
      == Reverse(Emptying(l[1..], at, conn, msg, script, updated || (hit && Updates(at[l[0]], msg))))
        + ((if hit && Gone(at[l[0]], msg, script) then [l[0]] else []) + del)
  {
    var hit := Matches(Owned(at[l[0]], msg, updated).rule, conn, msg);
    var r := Emptying(l[1..], at, conn, msg, script, updated || (hit && Updates(at[l[0]], msg)));
    if hit && Gone(at[l[0]], msg, script) {
      assert ([l[0]] + r)[1..] == r;
      assert Reverse([l[0]] + r) == Reverse(r) + [l[0]];
    } else {
      assert [] + r == r && [] + del == del;
    }
  }

  /** Without changes by callbacks, the listeners found empty are those told from the state before. */
  lemma {:induction false} QuietWalk(p: Stop, at: map<nat, Listener>, conn: nat, msg: Msg, script: Script, updated: bool)
    requires Calm(p, script) && Quiet(script) && Untouched(ToVisit(p), at, p.state.at, msg, updated)
    ensures var w := Message(p, conn, msg, script);
      && w.del == Reverse(Emptying(ToVisit(p), at, conn, msg, script, updated)) + p.del
      && w.state.at.Keys == p.state.at.Keys
    decreases |ToVisit(p)|
  {
    var l := ToVisit(p);
    if p.cur.None? {
      assert [] + p.del == p.del;
    } else {
      var q, hit := QuietNext(p, at, conn, msg, script, updated);
      EmptyingCons(l, at, conn, msg, script, updated, p.del);
      QuietWalk(q, at, conn, msg, script, updated || (hit && Updates(at[l[0]], msg)));
    }
  }

  lemma QuietNext(p: Stop, at: map<nat, Listener>, conn: nat, msg: Msg, script: Script, updated: bool) returns (q: Stop, hit: bool)
    requires Calm(p, script) && Quiet(script) && Untouched(ToVisit(p), at, p.state.at, msg, updated) && p.cur.Some?
    ensures q == NextStop(p, conn, msg, script) && Calm(q, script) && Message(p, conn, msg, script) == Message(q, conn, msg, script)
    ensures var l := ToVisit(p);
      && l[0] in at && hit == Matches(Owned(at[l[0]], msg, updated).rule, conn, msg)
      && ToVisit(q) == l[1..] && q.state.at.Keys == p.state.at.Keys
      && q.del == (if hit && Gone(at[l[0]], msg, script) then [l[0]] else []) + p.del
      && Untouched(ToVisit(q), at, q.state.at, msg, updated || (hit && Updates(at[l[0]], msg)))
  {
    var s, d := p.state, p.cur.value;
    assert ToVisit(p)[0] == d && ToVisit(p)[1..] == After(s.order, d);
    QuietStep(p, conn, msg, script);
    NextCalm(p, conn, msg, script);
    q := NextStop(p, conn, msg, script);
    OwnedGone(at[d], msg, script, updated);
    hit := Matches(s.at[d].rule, conn, msg);
    UntouchedNext(s, q, d, at, msg, updated, hit && Updates(at[d], msg));
  }

  lemma UntouchedNext(s: State, q: Stop, d: nat, at: map<nat, Listener>, msg: Msg, updated: bool, now: bool)
    requires NoDup(s.order) && q.state.at.Keys == s.at.Keys && ToVisit(q) == After(s.order, d)
    requires Untouched([d] + After(s.order, d), at, s.at, msg, updated)
    requires forall e :: e in s.at && e != d ==> q.state.at[e] == Owned(s.at[e], msg, now)
    ensures Untouched(ToVisit(q), at, q.state.at, msg, updated || now)
  {
    AfterNot(s.order, d);
    forall e | e in ToVisit(q) ensures e in at && e in q.state.at && q.state.at[e] == Owned(at[e], msg, updated || now) {
      assert e in [d] + After(s.order, d);
      OwnedTwice(at[e], msg, updated, now);
    }
  }

  /** A quiet signal that comes to a registry at rest: the deletion loop ends exactly if at most one
      listener matches the signal and keeps no callback, and then the registry is in order again. */
  lemma QuietEndsIff(s: State, conn: nat, msg: Msg, script: Script)
    requires Rest(s, script) && Quiet(script)
    ensures var w := Signal(s, conn, msg, script);
      && w.del == Reverse(Emptying(s.order, s.at, conn, msg, script, false))
      && ((exists k :: CleanUp(w, k).phase == Finished) <==> |Emptying(s.order, s.at, conn, msg, script, false)| <= 1)
  {
    var p, l := Start(s), s.order;
    RestCalm(s, script);
    assert ToVisit(p) == l;
    QuietWalk(p, s.at, conn, msg, script, false);
    var w, e := Message(p, conn, msg, script), Emptying(l, s.at, conn, msg, script, false);
    ReverseMembers(e);
    EmptyingListed(l, s.at, conn, msg, script, false);
    DeletionEndsIff(w);
    assert w.del == Reverse(e);
    if |e| == 1 { assert w.del[0] in w.del; }
  }

  lemma {:induction false} EmptyingListed(l: seq<nat>, at: map<nat, Listener>, conn: nat, msg: Msg, script: Script, updated: bool)
    ensures forall d :: d in Emptying(l, at, conn, msg, script, updated) ==> d in l && d in at
  {
    if l != [] {
      EmptyingListed(l[1..], at, conn, msg, script, updated);
      if l[0] in at { EmptyingListed(l[1..], at, conn, msg, script, updated || Updates(at[l[0]], msg)); }
    }
  }

  // ---- two listeners emptied by one signal ----

  const ANY := SignalWatch(1, None, None, None, None, true)
  const AT_A := SignalWatch(1, None, Some("/a"), None, None, true)
  const SIGNAL := Msg(Some(":1.5"), Some("/a"), None, None, None, None)

  function Once(id: nat): Reaction { Reaction([], false) }

  /** Two watches with different rules that both match and ask to be removed: the registry is reached by two
      additions from the empty one, and the deletion loop after the signal never ends properly. */
  lemma TwoEmptied()
    ensures var s := Do(EMPTY, [AddOp(ANY), AddOp(AT_A)]);
      && Rest(s, Once) && |Signal(s, 1, SIGNAL, Once).del| == 2
      && forall k :: CleanUp(Signal(s, 1, SIGNAL, Once), k).phase != Finished
  {
    var ops := [AddOp(ANY), AddOp(AT_A)];
    var s := Do(EMPTY, ops);
    EmptyOk();
    DoInv(EMPTY, ops, {});
    TwoListeners();
    QuietCovers(s, FirstOf(s), Once);
    QuietEndsIff(s, 1, SIGNAL, Once);
    BothEmptied(s);
    ReverseMembers(Emptying(s.order, s.at, 1, SIGNAL, Once, false));
  }

  function Watching(path: Option<string>, id: nat): Listener {
    Listener(Rule(1, None, None, path, None, None, None), SignalFilter, [Callback(id, Func(true, false, false))], [], 0, false)
  }

  lemma TwoListeners()
    ensures var s := Do(EMPTY, [AddOp(ANY), AddOp(AT_A)]);
      s.order == [1, 2] && s.at == map[1 := Watching(None, 1), 2 := Watching(Some("/a"), 2)]
  {
    var s := Add(EMPTY, ANY);
    assert s.order == [1] && s.at == map[1 := Watching(None, 1)] && s.counter == 1;
    FindMatchNone(s, RuleOf(AT_A));
    var t := Add(s, AT_A);
    assert t.order == [1, 2] && t.at == map[1 := Watching(None, 1), 2 := Watching(Some("/a"), 2)];
    assert [AddOp(ANY), AddOp(AT_A)][1..] == [AddOp(AT_A)];
    assert Do(t, []) == t && Do(s, [AddOp(AT_A)]) == t;
  }

  lemma FindMatchNone(s: State, rule: Rule)
    requires forall d :: d in s.order && d in s.at ==> s.at[d].rule != rule
    ensures FindMatch(s, s.order, rule) == None
  {
    FindMatchIn(s, s.order, rule);
  }

  lemma BothEmptied(s: State)
    requires s.order == [1, 2] && s.at == map[1 := Watching(None, 1), 2 := Watching(Some("/a"), 2)]
    ensures Emptying(s.order, s.at, 1, SIGNAL, Once, false) == [1, 2]
  {
    StayNone(s.at[1].callbacks, s.at[1].rule, SignalFilter, SIGNAL, Once);
    StayNone(s.at[2].callbacks, s.at[2].rule, SignalFilter, SIGNAL, Once);
    assert s.order[1..] == [2] && [2][1..] == [];
    assert Emptying([2], s.at, 1, SIGNAL, Once, false) == [2];
  }
}
