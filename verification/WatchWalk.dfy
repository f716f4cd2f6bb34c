/** The walk of the message filter along the listeners, and the deletion of those it finds empty. */
module WatchWalk {
  import opened Lists
  import opened WatchModel
  import opened WatchInvariant
  import opened WatchRefinement
  import opened WatchDispatch
  import opened WatchMessage

  /** Where a walk along the listeners is: the state, the listener to visit, and those found empty, latest first. */
  datatype Stop = Stop(state: State, cur: Option<nat>, del: seq<nat>)

  function FirstOf(s: State): Option<nat> { if s.order == [] then None else Some(s.order[0]) }

  function Start(s: State): Stop { Stop(s, FirstOf(s), []) }

  // ---- what is asked of the state before a signal ----

  /** No callback asks by its return value to be removed after it has removed itself. */
  ghost predicate PoliteScript(script: Script) {
    forall id :: !script(id).keep ==> id !in Removals(script(id).ops)
  }

  ghost predicate NobodyLocked(at: map<nat, Listener>) { forall d :: d in at ==> !at[d].lock }

  function Ids(l: seq<Callback>): set<nat> { set c | c in l :: c.id }

  predicate Ahead(s: State, cur: Option<nat>, d: nat) {
    cur.Some? && d in s.at && (d == cur.value || d in After(s.order, cur.value))
  }

  /** The watches that a walk from `cur` on may call: those of the listeners ahead, and all future ones. */
  ghost predicate Due(s: State, cur: Option<nat>, id: nat) {
    id > s.counter || exists d :: Ahead(s, cur, d) && id in Ids(s.at[d].callbacks)
  }

  ghost function DueUpTo(s: State, cur: Option<nat>, n: nat): set<nat> { set id | 1 <= id <= n && Due(s, cur, id) }

  /** How many ids the due callbacks among the first `n` may use up. */
  function Left(script: Script, n: nat, due: set<nat>): nat {
    if n == 0 then 0 else Left(script, n - 1, due) + if n in due then 2 * |script(n).ops| else 0
  }

  /** Fewer than 2^32 ids are used up, whatever the callbacks of the first `n` ids do when called once. */
  ghost predicate Covers(s: State, cur: Option<nat>, script: Script, n: nat) {
    n < U32 && s.counter + Left(script, n, DueUpTo(s, cur, n)) <= n
  }

  /** The registry is in order up to the listeners found empty, none is in dispatch, and ids suffice. */
  ghost predicate Calm(p: Stop, script: Script) {
    && Inv(p.state, ToSet(p.del)) && NobodyLocked(p.state.at) && PoliteScript(script)
    && (p.cur.Some? ==> p.cur.value in p.state.at)
    && exists n :: Covers(p.state, p.cur, script, n)
  }

  /** Callbacks that leave the registry alone need no more ids than are in use. */
  lemma QuietCovers(s: State, cur: Option<nat>, script: Script)
    requires s.counter < U32 && forall id :: script(id).ops == []
    ensures Covers(s, cur, script, s.counter)
  {
    NothingLeft(script, s.counter, DueUpTo(s, cur, s.counter));
  }

  lemma {:induction false} NothingLeft(script: Script, n: nat, due: set<nat>)
    requires forall id :: script(id).ops == []
    ensures Left(script, n, due) == 0
  {
    if n > 0 {
      NothingLeft(script, n - 1, due);
    }
  }

  // ---- the budget of ids ----

  lemma {:induction false} LeftFewer(script: Script, n: nat, a: set<nat>, b: set<nat>)
    requires a <= b
    ensures Left(script, n, a) <= Left(script, n, b)
  {
    if n > 0 {
      LeftFewer(script, n - 1, a, b);
    }
  }

  lemma {:induction false} LeftWithout(script: Script, n: nat, due: set<nat>, id: nat)
    requires id in due && 1 <= id
    ensures Left(script, n, due) == Left(script, n, due - {id}) + if id <= n then 2 * |script(id).ops| else 0
  {
    if n > 0 {
      LeftWithout(script, n - 1, due, id);
    }
  }

  lemma {:induction false} LeftTakes(l: seq<Callback>, script: Script, n: nat, due: set<nat>, handler: Handler, msg: Msg)
    requires Distinct(l) && Ids(l) <= due && InRange(l, n)
    ensures Left(script, n, due - Ids(l)) + Cost(l, handler, msg, script) <= Left(script, n, due)
  {
    if l == [] {
      assert due - Ids(l) == due;
    } else {
      var c := l[0];
      IdsCons(l);
      LeftWithout(script, n, due, c.id);
      assert due - Ids(l) == due - {c.id} - Ids(l[1..]);
      LeftTakes(l[1..], script, n, due - {c.id}, handler, msg);
    }
  }

  lemma IdsCons(l: seq<Callback>)
    requires l != [] && Distinct(l)
    ensures Ids(l) == {l[0].id} + Ids(l[1..]) && l[0].id !in Ids(l[1..]) && l[0] in l && Distinct(l[1..])
  {
    assert l == [l[0]] + l[1..];
  }

  lemma {:induction false} PassCost(s: State, d: nat, msg: Msg, script: Script, doomed: set<nat>)
    requires Ready(s, d, msg, script, doomed)
    ensures Pass(s, d, msg, script, doomed).state.counter <= s.counter + Cost(s.at[d].callbacks, s.at[d].handler, msg, script)
    decreases |s.at[d].callbacks|
  {
    if s.at[d].callbacks != [] {
      TurnReady(s, d, msg, script, doomed);
      PassCost(Turn(s, d, msg, script, doomed), d, msg, script, doomed);
    }
  }

  // ---- what a visit leaves to do ----

  /** During a visit a listener may learn the new owner of its sender; the rest is as in a pass. */
  ghost predicate Seen(x: Listener, y: Listener, n: nat, msg: Msg) {
    && y.lock == x.lock && y.handler == x.handler
    && (y.rule == x.rule || (msg.change.Some? && y.rule == Renamed(x, msg.change.value).rule))
    && forall c :: c in All(y) ==> c in All(x) || c.id > n
  }

  ghost predicate VisitKept(a: map<nat, Listener>, b: map<nat, Listener>, n: nat, msg: Msg) {
    forall e :: e in b ==> if e in a then Seen(a[e], b[e], n, msg) else e > n && Newer(b[e], n)
  }

  /** A visit from `s` to `t` in which the callbacks of `d` were called. */
  lemma DueLess(s: State, t: State, d: nat, id: nat, msg: Msg)
    requires Shape(s) && NobodyLocked(s.at) && (forall e :: e in s.at ==> e <= s.counter && s.at[e].processed == []) && AllApart(s.at)
    requires d in s.at && InRange(s.at[d].callbacks, s.counter)
    requires VisitKept(s.at, t.at, s.counter, msg) && Follows(s.order, t.order, d, s.counter) && s.counter <= t.counter
    requires NoDup(t.order) && Due(t, NextOf(t, d), id)
    ensures Due(s, Some(d), id) && id !in Ids(s.at[d].callbacks)
  {
    if id <= s.counter {
      var e :| Ahead(t, NextOf(t, d), e) && id in Ids(t.at[e].callbacks);
      AheadBefore(s, t, d, e);
      WasThere(s.at, t.at, e, id, s.counter, msg);
      assert Ahead(s, Some(d), e) && id in Ids(s.at[e].callbacks);
      if id in Ids(s.at[d].callbacks) {
        TwoHolders(s.at, d, e, id);
      }
    }
  }

  /** What is ahead after a visit was behind the visited listener before, or is new. */
  lemma AheadBefore(s: State, t: State, d: nat, e: nat)
    requires Shape(s) && NoDup(t.order) && Follows(s.order, t.order, d, s.counter) && Ahead(t, NextOf(t, d), e)
    ensures (e in After(s.order, d) && e in s.at && e != d) || e > s.counter
  {
    var l := After(t.order, d);
    if l != [] {
      AfterNext(t.order, d);
      assert e in l;
    }
    if e in After(s.order, d) {
      AfterIn(s.order, d);
      AfterNot(s.order, d);
    }
  }

  lemma {:induction false} AfterNot(l: seq<nat>, d: nat)
    requires NoDup(l)
    ensures d !in After(l, d)
  {
    if l != [] && l[0] != d {
      AfterNot(l[1..], d);
    }
  }

  lemma WasThere(a: map<nat, Listener>, b: map<nat, Listener>, e: nat, id: nat, n: nat, msg: Msg)
    requires VisitKept(a, b, n, msg) && e in b && id in Ids(b[e].callbacks) && id <= n
    requires e in a ==> a[e].processed == []
    ensures e in a && id in Ids(a[e].callbacks)
  {
    var c :| c in b[e].callbacks && c.id == id;
    assert c in All(b[e]);
    if e in a {
      assert All(a[e]) == a[e].callbacks;
    }
  }

  lemma TwoHolders(at: map<nat, Listener>, d: nat, e: nat, id: nat)
    requires AllApart(at) && d in at && e in at && id in Ids(at[d].callbacks) && id in Ids(at[e].callbacks)
    ensures d == e
  {
    var c :| c in at[d].callbacks && c.id == id;
    var f :| f in at[e].callbacks && f.id == id;
    assert c in All(at[d]) && f in All(at[e]);
    assert d != e ==> Apart(at[d], at[e]);
  }

  /** A listener that does not match is passed by. */
  lemma DuePassed(s: State, d: nat, id: nat)
    requires Shape(s) && d in s.at && Due(s, NextOf(s, d), id)
    ensures Due(s, Some(d), id)
  {
    if id <= s.counter {
      var e :| Ahead(s, NextOf(s, d), e) && id in Ids(s.at[e].callbacks);
      if After(s.order, d) != [] { AfterNext(s.order, d); }
      assert Ahead(s, Some(d), e);
    }
  }

  /** Before the callbacks run, at most the owner of a listener's sender is brought up to date. */
  ghost predicate PreparedAs(x: Listener, y: Listener, msg: Msg) {
    && All(y) == All(x) && y.handler == x.handler
    && (y.rule == x.rule || (msg.change.Some? && y.rule == Renamed(x, msg.change.value).rule))
  }

  lemma PreparedSame(s: State, d: nat, msg: Msg)
    requires d in s.at
    ensures var p := Prepared(s, d, msg);
      && p.order == s.order && p.counter == s.counter && p.at.Keys == s.at.Keys
      && p.at[d].callbacks == s.at[d].callbacks && p.at[d].handler == s.at[d].handler
      && forall e :: e in s.at ==> PreparedAs(s.at[e], p.at[e], msg) && (e != d ==> p.at[e].lock == s.at[e].lock)
  {
    assert forall e :: e in Begin(s, d).at <==> e in s.at;
  }

  lemma ClosedKept(a: map<nat, Listener>, p: map<nat, Listener>, h: map<nat, Listener>, d: nat, n: nat, msg: Msg)
    requires d in a && !a[d].lock && p.Keys == a.Keys && LocksKept(p, h, n) && d in h
    requires forall e :: e in a ==> PreparedAs(a[e], p[e], msg) && (e != d ==> p[e].lock == a[e].lock)
    ensures VisitKept(a, h[d := Closed(h[d])], n, msg)
  {
    var b := h[d := Closed(h[d])];
    forall e | e in b ensures if e in a then Seen(a[e], b[e], n, msg) else e > n && Newer(b[e], n) {
      assert e in h;
      if e in a { assert Onward(p[e], h[e], n) && PreparedAs(a[e], p[e], msg); }
      if e == d { assert forall c :: c in All(b[d]) ==> c in All(h[d]); }
    }
  }

  lemma HandledKeeps(s: State, d: nat, conn: nat, msg: Msg, script: Script, doomed: set<nat>)
    requires VisitReady(s, d, conn, msg, script, doomed) && Matches(s.at[d].rule, conn, msg)
    ensures var p, h := Prepared(s, d, msg), Handled(s, d, conn, msg, script, doomed);
      && LocksKept(p.at, h.at, s.counter) && d in s.order && Follows(s.order, h.order, d, s.counter)
      && h.counter <= s.counter + Cost(s.at[d].callbacks, s.at[d].handler, msg, script)
  {
    var p := Prepared(s, d, msg);
    PreparedSame(s, d, msg);
    if !(s.at[d].handler == ServiceFilter && msg.change.None?) {
      PassLocks(p, d, msg, script, doomed);
      PassAfter(p, d, msg, script, doomed);
      PassCost(p, d, msg, script, doomed);
    }
  }

  /** What a visit that calls callbacks keeps. */
  lemma VisitKeeps(s: State, d: nat, conn: nat, msg: Msg, script: Script, doomed: set<nat>)
    requires VisitReady(s, d, conn, msg, script, doomed) && Matches(s.at[d].rule, conn, msg)
    ensures var t := Visit(s, d, conn, msg, script, doomed);
      && VisitKept(s.at, t.at, s.counter, msg) && Follows(s.order, t.order, d, s.counter)
      && t.counter <= s.counter + Cost(s.at[d].callbacks, s.at[d].handler, msg, script)
  {
    var h := Handled(s, d, conn, msg, script, doomed);
    HandledOk(s, d, conn, msg, script, doomed);
    HandledKeeps(s, d, conn, msg, script, doomed);
    PreparedSame(s, d, msg);
    ClosedKept(s.at, Prepared(s, d, msg).at, h.at, d, s.counter, msg);
  }

  lemma StillUnlocked(a: map<nat, Listener>, b: map<nat, Listener>, n: nat, msg: Msg)
    requires NobodyLocked(a) && VisitKept(a, b, n, msg)
    ensures NobodyLocked(b)
  {
  }

  /** The ids left cover the pass over the next listener, and what is left after it. */
  lemma CoversNext(s: State, t: State, d: nat, doomed: set<nat>, handler: Handler, msg: Msg, script: Script, n: nat)
    requires Inv(s, doomed) && NobodyLocked(s.at) && d in s.at && Covers(s, Some(d), script, n)
    requires VisitKept(s.at, t.at, s.counter, msg) && Follows(s.order, t.order, d, s.counter) && s.counter <= t.counter && NoDup(t.order)
    requires t.counter <= s.counter + Cost(s.at[d].callbacks, handler, msg, script)
    ensures Covers(t, NextOf(t, d), script, n)
  {
    var l := s.at[d].callbacks;
    var due, more := DueUpTo(s, Some(d), n), DueUpTo(t, NextOf(t, d), n);
    Resting(s, doomed);
    forall id | id in more ensures id in due - Ids(l) { DueLess(s, t, d, id, msg); }
    DueHere(s, d, doomed, n);
    LeftTakes(l, script, n, due, handler, msg);
    LeftFewer(script, n, more, due - Ids(l));
  }

  lemma Resting(s: State, doomed: set<nat>)
    requires Inv(s, doomed) && NobodyLocked(s.at)
    ensures forall e :: e in s.at ==>
      e <= s.counter && s.at[e].processed == [] && InRange(s.at[e].callbacks, s.counter) && Distinct(s.at[e].callbacks)
  {
    forall e | e in s.at
      ensures e <= s.counter && s.at[e].processed == [] && InRange(s.at[e].callbacks, s.counter) && Distinct(s.at[e].callbacks)
    {
      assert ListenerOk(s.at[e], s.counter, e in doomed);
      ListsDistinct(s.at[e], s.counter, e in doomed);
      assert All(s.at[e]) == s.at[e].callbacks;
    }
  }

  lemma DueHere(s: State, d: nat, doomed: set<nat>, n: nat)
    requires Inv(s, doomed) && NobodyLocked(s.at) && d in s.at && s.counter <= n
    ensures InRange(s.at[d].callbacks, n) && Ids(s.at[d].callbacks) <= DueUpTo(s, Some(d), n)
  {
    Resting(s, doomed);
    assert Ahead(s, Some(d), d);
    assert forall c :: c in s.at[d].callbacks ==> 1 <= c.id <= n && c.id in Ids(s.at[d].callbacks);
  }

  /** A listener that is reached in a calm walk can be visited. */
  lemma CalmReady(p: Stop, conn: nat, msg: Msg, script: Script)
    requires Calm(p, script) && p.cur.Some?
    ensures VisitReady(p.state, p.cur.value, conn, msg, script, ToSet(p.del))
  {
    var s, d, doomed := p.state, p.cur.value, ToSet(p.del);
    var n :| Covers(s, p.cur, script, n);
    PreparedInv(s, d, msg, doomed);
    PreparedSame(s, d, msg);
    Resting(s, doomed);
    DueHere(s, d, doomed, n);
    LeftTakes(s.at[d].callbacks, script, n, DueUpTo(s, p.cur, n), s.at[d].handler, msg);
  }

  ghost function NextStop(p: Stop, conn: nat, msg: Msg, script: Script): Stop
    requires Calm(p, script) && p.cur.Some?
  {
    CalmReady(p, conn, msg, script);
    var d, doomed := p.cur.value, ToSet(p.del);
    var t := Visit(p.state, d, conn, msg, script, doomed);
    Stop(t, NextOf(t, d), if Emptied(p.state, d, conn, msg, script, doomed) then [d] + p.del else p.del)
  }

  ghost function StopCalls(p: Stop, conn: nat, msg: Msg, script: Script): seq<nat>
    requires Calm(p, script) && p.cur.Some?
  {
    CalmReady(p, conn, msg, script);
    CallsAt(p.state, p.cur.value, conn, msg, script, ToSet(p.del))
  }

  lemma NextIn(s: State, d: nat)
    requires Shape(s) && NextOf(s, d).Some?
    ensures NextOf(s, d).value in s.at
  {
    AfterNext(s.order, d);
  }

  lemma {:induction false} NextCovered(p: Stop, conn: nat, msg: Msg, script: Script)
    requires Calm(p, script) && p.cur.Some?
    ensures var q := NextStop(p, conn, msg, script);
      Inv(q.state, ToSet(q.del)) && NobodyLocked(q.state.at) && exists n :: Covers(q.state, q.cur, script, n)
  {
    var s, d, doomed := p.state, p.cur.value, ToSet(p.del);
    CalmReady(p, conn, msg, script);
    var q := NextStop(p, conn, msg, script);
    var n :| Covers(s, p.cur, script, n);
    VisitInv(s, d, conn, msg, script, doomed);
    DoomedMore(d, p.del);
    if Matches(s.at[d].rule, conn, msg) {
      VisitKeeps(s, d, conn, msg, script, doomed);
      StillUnlocked(s.at, q.state.at, s.counter, msg);
      CoversNext(s, q.state, d, doomed, s.at[d].handler, msg, script, n);
    } else {
      assert DueUpTo(s, q.cur, n) <= DueUpTo(s, p.cur, n) by {
        forall id | id in DueUpTo(s, q.cur, n) ensures id in DueUpTo(s, p.cur, n) { DuePassed(s, d, id); }
      }
      LeftFewer(script, n, DueUpTo(s, q.cur, n), DueUpTo(s, p.cur, n));
      assert Covers(q.state, q.cur, script, n);
    }
  }

  lemma DoomedMore(d: nat, del: seq<nat>)
    ensures ToSet([d] + del) == ToSet(del) + {d}
  {
  }

  /** The walk stays calm, comes nearer to its end, and no id is given back. */
  lemma NextCalm(p: Stop, conn: nat, msg: Msg, script: Script)
    requires Calm(p, script) && p.cur.Some?
    ensures var q := NextStop(p, conn, msg, script);
      && Calm(q, script) && p.state.counter <= q.state.counter < U32
      && (q.state.counter == p.state.counter ==> Rank(q.state, q.cur) < Rank(p.state, p.cur))
  {
    CalmReady(p, conn, msg, script);
    NextCovered(p, conn, msg, script);
    var q := NextStop(p, conn, msg, script);
    VisitShrinks(p.state, p.cur.value, conn, msg, script, ToSet(p.del));
    if q.cur.Some? { NextIn(q.state, p.cur.value); }
  }

  /** The loop of `message_filter` from a stop on: the state after it, and the listeners found empty. It
      ends because each visit uses up an id or comes nearer to the end of the list. */
  ghost function Message(p: Stop, conn: nat, msg: Msg, script: Script): Stop
    requires Calm(p, script)
    decreases U32 - p.state.counter, Rank(p.state, p.cur)
  {
    if p.cur.None? then p
    else
      NextCalm(p, conn, msg, script);
      Message(NextStop(p, conn, msg, script), conn, msg, script)
  }

  /** The ids called on the way. */
  ghost function Heard(p: Stop, conn: nat, msg: Msg, script: Script): seq<nat>
    requires Calm(p, script)
    decreases U32 - p.state.counter, Rank(p.state, p.cur)
  {
    if p.cur.None? then []
    else
      NextCalm(p, conn, msg, script);
      StopCalls(p, conn, msg, script) + Heard(NextStop(p, conn, msg, script), conn, msg, script)
  }

  /** Whatever the callbacks do, the walk leaves the registry in order up to the listeners it found empty,
      and nothing is in dispatch any more. */
  lemma {:induction false} MessageInv(p: Stop, conn: nat, msg: Msg, script: Script)
    requires Calm(p, script)
    ensures var w := Message(p, conn, msg, script);
      Calm(w, script) && w.cur.None? && p.state.counter <= w.state.counter
    decreases U32 - p.state.counter, Rank(p.state, p.cur)
  {
    if p.cur.Some? {
      NextCalm(p, conn, msg, script);
      MessageInv(NextStop(p, conn, msg, script), conn, msg, script);
    }
  }

  // ---- deleting the listeners found empty ----

  /** One iteration of the deletion loop for a listed listener. */
  function DeleteEmpty(s: State, d: nat): State
    requires d in s.at
  {
    if s.at[d].callbacks != [] then s else RemoveWatch(Unlist(s, d), s.at[d].nameWatch)
  }

  /** The loop stands at an entry of its list, has ended, or reads a record that has been freed. */
  datatype Phase = Busy(entry: nat) | Finished | Freed

  datatype Cleaning = Cleaning(state: State, phase: Phase)

  /** One step of the deletion loop. It goes on with the entry behind the first one, whichever it is at. */
  function CleanStep(c: Cleaning, del: seq<nat>): Cleaning {
    match c.phase
    case Busy(k) =>
      if k >= |del| then c.(phase := Finished)
      else if del[k] !in c.state.at then c.(phase := Freed)
      else Cleaning(DeleteEmpty(c.state, del[k]), Busy(1))
    case _ => c
  }

  function Clean(c: Cleaning, del: seq<nat>, steps: nat): Cleaning
    decreases steps
  {
    if steps == 0 then c else Clean(CleanStep(c, del), del, steps - 1)
  }

  /** The deletion loop on the state after the walk. */
  function CleanUp(w: Stop, steps: nat): Cleaning { Clean(Cleaning(w.state, Busy(0)), w.del, steps) }

  lemma {:induction false} NeverFinished(c: Cleaning, del: seq<nat>, steps: nat)
    requires |del| > 1 && c.phase != Finished && (c.phase.Busy? ==> c.phase.entry <= 1)
    ensures Clean(c, del, steps).phase != Finished
    decreases steps
  {
    if steps > 0 {
      NeverFinished(CleanStep(c, del), del, steps - 1);
    }
  }

  lemma {:induction false} PhaseStays(c: Cleaning, del: seq<nat>, steps: nat)
    requires !c.phase.Busy?
    ensures Clean(c, del, steps) == c
  {
    if steps > 0 {
      PhaseStays(c, del, steps - 1);
    }
  }

  /** The deletion loop comes to an end exactly if the walk found no listener empty, or one that is still
      listed; the condition can be read off where it starts. */
  lemma DeletionEndsIff(w: Stop)
    ensures (exists k :: CleanUp(w, k).phase == Finished) <==> w.del == [] || (|w.del| == 1 && w.del[0] in w.state.at)
    ensures forall k :: CleanUp(w, k).phase == Finished ==>
      CleanUp(w, k).state == if w.del == [] then w.state else DeleteEmpty(w.state, w.del[0])
  {
    var c := Cleaning(w.state, Busy(0));
    if w.del == [] || (|w.del| == 1 && w.del[0] in w.state.at) {
      OneDeletion(w);
    } else {
      forall k: nat ensures CleanUp(w, k).phase != Finished {
        if |w.del| > 1 {
          NeverFinished(c, w.del, k);
        } else if k > 0 {
          PhaseStays(CleanStep(c, w.del), w.del, k - 1);
        }
      }
    }
  }

  lemma OneDeletion(w: Stop)
    requires w.del == [] || (|w.del| == 1 && w.del[0] in w.state.at)
    ensures CleanUp(w, |w.del| + 1).phase == Finished
    ensures forall k :: CleanUp(w, k).phase == Finished ==>
      CleanUp(w, k).state == if w.del == [] then w.state else DeleteEmpty(w.state, w.del[0])
  {
    var c, del := Cleaning(w.state, Busy(0)), w.del;
    var e := CleanStep(c, del);
    if del == [] {
      assert Clean(e, del, 0) == e;
      forall k: nat | k > 0 ensures CleanUp(w, k) == e { PhaseStays(e, del, k - 1); }
    } else {
      var f := CleanStep(e, del);
      assert Clean(f, del, 0) == f && Clean(e, del, 1) == f;
      forall k: nat | k > 0 ensures CleanUp(w, k) == if k == 1 then e else f {
        assert CleanUp(w, k) == Clean(e, del, k - 1);
        if k > 1 { PhaseStays(f, del, k - 2); }
      }
    }
  }

  lemma {:induction false} StandsStill(c: Cleaning, del: seq<nat>, steps: nat)
    requires CleanStep(c, del) == c
    ensures Clean(c, del, steps) == c
  {
    if steps > 0 {
      StandsStill(c, del, steps - 1);
    }
  }

  /** The second listener of the list got callbacks back, so the loop passes over it for ever. */
  predicate Stuck(w: Stop)
    requires |w.del| > 1
  {
    w.del[0] in w.state.at &&
    var t := DeleteEmpty(w.state, w.del[0]);
    w.del[1] in t.at && t.at[w.del[1]].callbacks != []
  }

  lemma DeletedGone(s: State, d: nat)
    requires d in s.at
    ensures s.at[d].callbacks == [] ==> d !in DeleteEmpty(s, d).at
  {
    RemoveLocks(Unlist(s, d), s.at[d].nameWatch);
  }

  /** With two or more listeners found empty the loop stands still for ever, or comes to a freed record. */
  lemma DeletionFails(w: Stop)
    requires |w.del| > 1
    ensures if Stuck(w) then forall k :: CleanUp(w, k).phase == if k == 0 then Busy(0) else Busy(1)
            else forall k :: k >= 3 ==> CleanUp(w, k).phase == Freed
  {
    var c, del := Cleaning(w.state, Busy(0)), w.del;
    var e := CleanStep(c, del);
    if Stuck(w) {
      forall k: nat ensures CleanUp(w, k).phase == if k == 0 then Busy(0) else Busy(1) {
        if k > 0 { StandsStill(e, del, k - 1); }
      }
    } else {
      var f := CleanStep(e, del);
      if e.phase.Busy? && del[1] in e.state.at { DeletedGone(e.state, del[1]); }
      var g := CleanStep(f, del);
      assert g.phase == Freed;
      forall k: nat | k >= 3 ensures CleanUp(w, k).phase == Freed {
        assert CleanUp(w, k) == Clean(e, del, k - 1) == Clean(f, del, k - 2) == Clean(g, del, k - 3);
        PhaseStays(g, del, k - 3);
      }
    }
  }

  lemma UnlistClean(s: State, d: nat, doomed: set<nat>)
    requires Inv(s, doomed + {d}) && d in s.at && s.at[d].callbacks == []
    ensures Inv(DeleteEmpty(s, d), doomed)
  {
    UnlistInv(s, d, doomed);
    RemoveWatchInv(Unlist(s, d), s.at[d].nameWatch, doomed);
  }

  lemma CleanOne(s: State, d: nat)
    requires Inv(s, {d}) && d in s.at
    ensures Inv(DeleteEmpty(s, d), {})
  {
    if s.at[d].callbacks == [] {
      var none: set<nat> := {};
      assert none + {d} == {d};
      UnlistClean(s, d, none);
    } else {
      NoneDoomed(s.at, s.counter, {d}, {});
    }
  }

  lemma NoneDoomed(at: map<nat, Listener>, n: nat, doomed: set<nat>, less: set<nat>)
    requires AllOk(at, n, doomed) && forall d :: d in doomed && d in at ==> at[d].callbacks != []
    ensures AllOk(at, n, less)
  {
    forall e | e in at ensures ListenerOk(at[e], n, e in less) {
      assert ListenerOk(at[e], n, e in doomed);
    }
  }

  lemma DeletedUnlocked(s: State, d: nat)
    requires NobodyLocked(s.at) && d in s.at
    ensures NobodyLocked(DeleteEmpty(s, d).at)
  {
    if s.at[d].callbacks == [] {
      RemoveLocks(Unlist(s, d), s.at[d].nameWatch);
    }
  }

  /** Between signals: the registry is in order, nothing is in dispatch, and ids suffice for this signal. */
  ghost predicate Rest(s: State, script: Script) {
    && Inv(s, {}) && NobodyLocked(s.at) && PoliteScript(script)
    && exists n :: Covers(s, FirstOf(s), script, n)
  }

  lemma RestCalm(s: State, script: Script)
    requires Rest(s, script)
    ensures Calm(Start(s), script)
  {
    assert ToSet(Start(s).del) == {};
  }

  /** The walk of one signal that comes to a registry at rest. */
  ghost function Signal(s: State, conn: nat, msg: Msg, script: Script): Stop
    requires Rest(s, script)
  {
    RestCalm(s, script);
    Message(Start(s), conn, msg, script)
  }

  /** The ids that it calls, in order. */
  ghost function SignalCalls(s: State, conn: nat, msg: Msg, script: Script): seq<nat>
    requires Rest(s, script)
  {
    RestCalm(s, script);
    Heard(Start(s), conn, msg, script)
  }

  /** A signal after which the deletion loop ends leaves the registry in order: ids, name watches, match
      rules and the filter, and no empty listener. */
  lemma MessageRestores(s: State, conn: nat, msg: Msg, script: Script, steps: nat)
    requires Rest(s, script)
    ensures var c := CleanUp(Signal(s, conn, msg, script), steps);
      c.phase == Finished ==> Inv(c.state, {}) && NobodyLocked(c.state.at)
  {
    var w := Signal(s, conn, msg, script);
    RestCalm(s, script);
    MessageInv(Start(s), conn, msg, script);
    DeletionEndsIff(w);
    if CleanUp(w, steps).phase == Finished {
      if w.del == [] {
        assert ToSet(w.del) == {};
      } else {
        ToSetOne(w.del);
        CleanOne(w.state, w.del[0]);
        DeletedUnlocked(w.state, w.del[0]);
      }
    }
  }

  lemma ToSetOne(l: seq<nat>)
    requires |l| == 1
    ensures ToSet(l) == {l[0]}
  {
  }
}
