/** The registry over whole histories: calls and signals in any order, from the empty registry on. */
module WatchHistory {
  import opened Lists
  import opened WatchModel
  import opened WatchInvariant
  import opened WatchRefinement
  import opened WatchDispatch
  import opened WatchMessage
  import opened WatchWalk

  /** A call made outside of dispatch, or a signal with what its callbacks do and the steps its deletion loop takes. */
  datatype Event = Call(op: Op) | Arrival(conn: nat, msg: Msg, script: Script, steps: nat)

  ghost predicate AtRest(s: State) { Inv(s, {}) && NobodyLocked(s.at) }

  /** Ids do not run out, callbacks are polite, and the deletion loop of a signal has come to its end. */
  ghost predicate Can(s: State, e: Event) {
    match e
    case Call(op) => s.counter + 2 < U32
    case Arrival(conn, msg, script, steps) => Rest(s, script) && CleanUp(Signal(s, conn, msg, script), steps).phase == Finished
  }

  ghost function Next(s: State, e: Event): State
    requires Can(s, e)
  {
    match e
    case Call(op) => Apply(s, op)
    case Arrival(conn, msg, script, steps) => CleanUp(Signal(s, conn, msg, script), steps).state
  }

  ghost predicate History(s: State, l: seq<Event>)
    decreases l
  {
    l != [] ==> Can(s, l[0]) && History(Next(s, l[0]), l[1..])
  }

  ghost function After(s: State, l: seq<Event>): State
    requires History(s, l)
    decreases l
  {
    if l == [] then s else After(Next(s, l[0]), l[1..])
  }

  lemma NobodyStarts(a: map<nat, Listener>, b: map<nat, Listener>, n: nat)
    requires NobodyLocked(a) && LocksKept(a, b, n)
    ensures NobodyLocked(b)
  {
  }

  lemma CallKeeps(s: State, op: Op)
    requires AtRest(s) && s.counter + 2 < U32
    ensures AtRest(Apply(s, op))
  {
    match op {
      case AddOp(q) =>
        AddInv(s, q, {});
        AddLocks(s, q, {});
        NobodyStarts(s.at, Add(s, q).at, s.counter);
      case RemoveOp(id) =>
        RemoveWatchInv(s, id, {});
        RemoveLocks(s, id);
        NobodyStarts(s.at, RemoveWatch(s, id).at, s.counter);
    }
  }

  lemma NextKeeps(s: State, e: Event)
    requires AtRest(s) && Can(s, e)
    ensures AtRest(Next(s, e))
  {
    match e
    case Call(op) => CallKeeps(s, op);
    case Arrival(conn, msg, script, steps) => MessageRestores(s, conn, msg, script, steps);
  }

  lemma {:induction false} HistoryKeeps(s: State, l: seq<Event>)
    requires AtRest(s) && History(s, l)
    ensures AtRest(After(s, l))
    decreases l
  {
    if l != [] {
      NextKeeps(s, l[0]);
      HistoryKeeps(Next(s, l[0]), l[1..]);
    }
  }

  /** In every history from the empty registry on, whatever the callbacks of its signals did: ids are
      distinct, no listener is empty, each has one match rule, and the message filter of a connection is
      installed, once, exactly while some watch on it is registered. */
  lemma EveryHistory(l: seq<Event>)
    requires History(EMPTY, l)
    ensures var s := After(EMPTY, l);
      && Inv(s, {}) && NobodyLocked(s.at)
      && forall conn :: s.filters[conn] == if exists e :: e in Registry(s) && e.rule.conn == conn then 1 else 0
  {
    EmptyOk();
    HistoryKeeps(EMPTY, l);
    var s := After(EMPTY, l);
    forall conn ensures s.filters[conn] == if exists e :: e in Registry(s) && e.rule.conn == conn then 1 else 0 { FilterIff(s, conn); }
  }
}
