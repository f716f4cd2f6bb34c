/** Two runs from the start in which a synced client ends up with something else than what is live. */
module CounterRuns {
  import opened Lists
  import opened Paths
  import opened DBusValues
  import opened ObjectModel
  import opened ObjectTree
  import opened Observers
  import opened Published
  import opened PropertyValues
  import opened ServerInvariant
  import opened ServerCalls
  import opened ServerApi
  import opened Clients
  import opened ValueInvariant
  import opened ValueCalls
  import opened Runs
  import opened GuardRuns
  import opened ObjectRules

  const A: Path := "/a"
  const P := Prop("P", true, false, false)
  const VALUES := Table([], [], Some([P]))
  const PLAIN := Table([Member("M", false)], [], None)
  const X_I := NewIface("x.I", VALUES, map["P" := Int32(1)])
  const X_K := NewIface("x.K", PLAIN, map[])

  lemma UserNames()
    ensures !Builtin("x.I") && !Builtin("x.K") && "x.I" != "x.K"
  {
    assert "x.I"[0] != INTROSPECTABLE[0] && "x.I"[0] != PROPERTIES[0] && "x.I"[2] != "x.K"[2];
  }

  /** A run in order, and what is open after it. */
  ghost predicate Fine(enabled: bool, acts: seq<Action>, s: State, open: Unreported) {
    Disciplined(enabled, acts) && Careful(enabled, acts) && Run(enabled, acts) == s && Runs.Open(acts) == open
  }

  lemma FineMore(enabled: bool, acts: seq<Action>, s: State, open: Unreported, a: Action)
    requires Fine(enabled, acts, s, open) && Allowed(s, a) && ValuesAllowed(s, open, a)
    ensures Fine(enabled, acts + [a], Step(s, a), OpenStep(open, a))
  {
    var more := acts + [a];
    assert more[..|more| - 1] == acts && more[|more| - 1] == a;
  }

  // ---- a synced client beside two announced interfaces ----

  const FIRST := Action.Register(A, "x.I", VALUES, map["P" := Int32(1)])
  const SECOND := Action.Register(A, "x.K", PLAIN, map[])
  const BASE: seq<Action> := [] + [FIRST] + [SECOND] + [Subscribe(0)] + [GetManagedObjects(0)]

  /** The first registration. */
  lemma AfterFirst(s: State)
    requires Good(s) && OnlyRoot(s) && s.enabled
    ensures Allowed(s, FIRST) && ValuesAllowed(s, {}, FIRST)
    ensures var s' := Step(s, FIRST);
      Good(s') && A in s'.reg && s'.enabled && X_I in s'.reg[A].ifaces && !Has(s'.reg[A].ifaces, "x.K") && s'.reg[A].removed == []
  {
    UserNames();
    NothingBelow(s);
    assert !Hidden(VALUES.Props()[0].experimental, true);
    RegisterPuts(s, A, "x.I", VALUES, map["P" := Int32(1)]);
    RegisterKeeps(s, A, "x.I", VALUES, map["P" := Int32(1)]);
    Unlisted(Step(s, FIRST).reg[A].ifaces);
  }

  lemma Unlisted(ifaces: seq<Iface>)
    requires NameSet(ifaces) <= {INTROSPECTABLE, PROPERTIES, "x.I"}
    ensures !Has(ifaces, "x.K")
  {
    UserNames();
    assert "x.K" !in NameSet(ifaces);
  }

  lemma NothingBelow(s: State)
    requires OnlyRoot(s)
    ensures A !in s.reg && NoneBelow(s.reg, A)
  {
    RootHasNoAncestor(A);
  }

  /** The second one. */
  lemma AfterSecond(s: State)
    requires Good(s) && A in s.reg && s.enabled && X_I in s.reg[A].ifaces && !Has(s.reg[A].ifaces, "x.K") && s.reg[A].removed == []
    ensures Allowed(s, SECOND) && ValuesAllowed(s, {}, SECOND)
    ensures var s' := Step(s, SECOND);
      Good(s') && A in s'.reg && s'.enabled && X_I in s'.reg[A].ifaces && X_K in s'.reg[A].ifaces
  {
    UserNames();
    assert !Hidden(PLAIN.methods[0].experimental, true);
    RegisterPuts(s, A, "x.K", PLAIN, map[]);
    RegisterKeeps(s, A, "x.K", PLAIN, map[]);
  }

  /** Nothing is queued; both interfaces are announced with their values; client 0 has its reply. */
  ghost predicate Served(s: State) {
    && Good(s) && Values(s, {}) && s.pending == [] && A in s.reg && s.enabled
    && X_I in s.reg[A].ifaces && X_K in s.reg[A].ifaces && !HasWork(s.reg[A])
    && var cv := Client(s.out, 0, A); cv.on && cv.synced
  }

  lemma AfterAsking(s: State, s1: State, s': State)
    requires Good(s1) && Values(s', {}) && Good(s') && s1 == s.(out := s.out + [Subscribed(0)]) && s' == GetObjects(s1, 0)
    requires A in s.reg && s.enabled && X_I in s.reg[A].ifaces && X_K in s.reg[A].ifaces
    ensures Served(s')
  {
    JustSubscribed(s.out);
    Asked(s1, 0);
    KeepsIfaces(s1, s');
    WorkIsDone(s');
  }

  lemma JustSubscribed(out: seq<Msg>)
    ensures Client(out + [Subscribed(0)], 0, A).on
  {
    ClientLast(out, Subscribed(0), 0, A);
  }

  lemma Base() returns (s: State)
    ensures Fine(true, BASE, s, {}) && Served(s)
  {
    var s0 := Run(true, []);
    var s1, s2 := Step(s0, FIRST), Step(Step(s0, FIRST), SECOND);
    var s3 := Step(s2, Subscribe(0));
    s := Step(s3, GetManagedObjects(0));
    RunGood(true, []);
    AttachedRoot(true);
    AfterFirst(s0);
    AfterSecond(s1);
    FineMore(true, [], s0, {}, FIRST);
    FineMore(true, [] + [FIRST], s1, {}, SECOND);
    FineMore(true, [] + [FIRST] + [SECOND], s2, {}, Subscribe(0));
    FineMore(true, [] + [FIRST] + [SECOND] + [Subscribe(0)], s3, {}, GetManagedObjects(0));
    StepGood(s2, Subscribe(0));
    FineValues(true, BASE, s, {});
    AfterAsking(s2, s3, s);
  }

  lemma FineValues(enabled: bool, acts: seq<Action>, s: State, open: Unreported)
    requires Fine(enabled, acts, s, open)
    ensures Good(s) && Values(s, open)
  {
    RunGood(enabled, acts);
    RunValues(enabled, acts);
  }

  lemma WorkIsDone(s: State)
    requires Good(s) && s.pending == [] && A in s.reg
    ensures !HasWork(s.reg[A])
  {
    if HasWork(s.reg[A]) { WorkIsQueued(s, A); }
  }

  /** A subscriber that asks for the objects is synced, and nothing is left queued. */
  lemma Asked(s: State, c: nat)
    requires Good(s) && Client(s.out, c, A).on
    ensures var s' := GetObjects(s, c); var cv := Client(s'.out, c, A);
      s'.pending == [] && cv.on && cv.synced && s'.enabled == s.enabled
  {
    FlushListGrows(s, s.pending);
    StaysOn(s, Flush(s), c);
    FlushListContents(s, s.pending);
    FlushKeeps(s);
    ClientLast(Flush(s).out, ManagedObjects(c, Reply(s)), c, A);
  }

  lemma StaysOn(s: State, s': State, c: nat)
    requires Grows(s, s')
    ensures var a, b := Client(s.out, c, A), Client(s'.out, c, A); b.on == a.on && b.synced == a.synced
  {
    var ms := s'.out[|s.out|..];
    assert s'.out == s.out + ms;
    ClientPlain(s.out, ms, c, A);
  }

  /** A reply leaves the interfaces as they were, with nothing queued. */
  lemma KeepsIfaces(s: State, s': State)
    requires Good(s) && Values(s', {}) && Good(s') && s' == GetObjects(s, 0) && s'.pending == [] && A in s.reg
    ensures A in s'.reg && forall i :: i in s.reg[A].ifaces && i.pending == [] ==> i in s'.reg[A].ifaces
  {
    FlushListContents(s, s.pending);
    assert SameContents(s.reg[A], s'.reg[A]);
    NotWaiting(s');
    IdleStay(s.reg[A], s'.reg[A]);
  }

  lemma IdleStay(o: Obj, o': Obj)
    requires SameContents(o, o') && forall k :: 0 <= k < |o'.ifaces| ==> o'.ifaces[k].pending == []
    ensures forall i :: i in o.ifaces && i.pending == [] ==> i in o'.ifaces
  {
    forall i | i in o.ifaces && i.pending == [] ensures i in o'.ifaces {
      var k :| 0 <= k < |o.ifaces| && o.ifaces[k] == i;
      assert o'.ifaces[k] == i;
    }
  }

  lemma NotWaiting(s: State)
    requires Good(s) && Values(s, {}) && s.pending == [] && A in s.reg
    ensures forall k :: 0 <= k < |s.reg[A].ifaces| ==> s.reg[A].ifaces[k].pending == []
  {
    assert ValuesOk(A, s.reg[A], Told(s.out, A), {}, s.enabled);
    assert !s.reg[A].queued;
  }

  /** Two user interfaces make two references. */
  lemma TwoUsers(s: State, i: Iface, j: Iface)
    requires Good(s) && A in s.reg && i in s.reg[A].ifaces && j in s.reg[A].ifaces
    requires i.name != j.name && !Builtin(i.name) && !Builtin(j.name)
    ensures s.reg[A].refcount > 1 && Has(s.reg[A].ifaces, i.name) && Has(s.reg[A].ifaces, j.name)
    ensures s.reg[A].ifaces[Index(s.reg[A].ifaces, i.name)] == i
  {
    DistinctAt(s, A);
    TwoNames(s.reg[A].ifaces, i, j);
  }

  lemma TwoNames(l: seq<Iface>, i: Iface, j: Iface)
    requires DistinctNames(l) && i in l && j in l && i.name != j.name && !Builtin(i.name) && !Builtin(j.name)
    ensures UserCount(l) > 1 && Has(l, i.name) && Has(l, j.name) && l[Index(l, i.name)] == i
  {
    var a :| 0 <= a < |l| && l[a] == i;
    var b :| 0 <= b < |l| && l[b] == j;
    IndexOfEach(l, a);
    IndexOfEach(l, b);
    UserCountDrop(l, a);
    NameSetDrop(l, a);
    UserInterfaceCounts(l[..a] + l[a + 1..], j.name);
  }

  lemma StaysSynced(s: State, s': State)
    requires Grows(s, s') && Client(s.out, 0, A).on && Client(s.out, 0, A).synced
    ensures Client(Flush(s').out, 0, A).on && Client(Flush(s').out, 0, A).synced
  {
    StaysOn(s, s', 0);
    FlushListGrows(s', s'.pending);
    StaysOn(s', Flush(s'), 0);
  }

  // ---- registered again too early ----

  const AWAY := Action.Unregister(A, "x.I")

  lemma Withdrawn(s: State)
    requires Served(s)
    ensures Allowed(s, AWAY)
    ensures var s' := Step(s, AWAY);
      A in s'.reg && "x.I" in s'.reg[A].removed && s'.enabled && !Has(s'.reg[A].ifaces, "x.I")
  {
    UserNames();
    TwoUsers(s, X_I, X_K);
    AfterRemoval(s, A, "x.I");
    DistinctAt(s, A);
    NameSetDrop(s.reg[A].ifaces, Index(s.reg[A].ifaces, "x.I"));
    assert "x.I" !in NameSet(Step(s, AWAY).reg[A].ifaces);
  }

  lemma AgainAccepted(s: State)
    requires A in s.reg && s.enabled && !Has(s.reg[A].ifaces, "x.I")
    ensures ObjectModel.Register(s, A, "x.I", VALUES, map["P" := Int32(1)]).1
  {
    assert !Hidden(VALUES.Props()[0].experimental, true);
  }

  /** A name registered again while its withdrawal waits: the synced client misses the live interface. */
  lemma ReAddRun()
    ensures var acts := BASE + [AWAY];
      var s', cv := Run(true, acts + [FIRST]), Client(Flush(Run(true, acts + [FIRST])).out, 0, A);
      && Disciplined(true, acts) && Runs.Open(acts + [FIRST]) == {} && cv.on && cv.synced
      && "x.I" in LiveNames(s', A) && "x.I" !in cv.view
  {
    var s := Base();
    var t := Step(s, AWAY);
    Withdrawn(s);
    RunStep(BASE, AWAY);
    RunStep(BASE + [AWAY], FIRST);
    AgainAccepted(t);
    StepGrows(s, AWAY);
    StepGrows(t, FIRST);
    GrowsTrans(s, t, Step(t, FIRST));
    StaysSynced(s, Step(t, FIRST));
    RunGood(true, BASE + [AWAY]);
    UserNames();
    ReAddLoses(t, A, "x.I", VALUES, map["P" := Int32(1)]);
    RunInStep(true, BASE + [AWAY]);
    GrowsKeepsStep(t, Step(t, FIRST));
    FlushedTracks(Step(t, FIRST), 0, A);
  }

  lemma RunStep(acts: seq<Action>, a: Action)
    ensures Run(true, acts + [a]) == Step(Run(true, acts), a) && Runs.Open(acts + [a]) == OpenStep(Runs.Open(acts), a)
    ensures Disciplined(true, acts + [a]) <==> Disciplined(true, acts) && Allowed(Run(true, acts), a)
  {
    var more := acts + [a];
    assert more[..|more| - 1] == acts && more[|more| - 1] == a;
  }

  // ---- a change left behind ----

  const CHANGED := Change(A, "x.I", "P", Some(Int32(2)))
  const REPORTED := Report(A, "x.I", "P")
  const OTHER_AWAY := Action.Unregister(A, "x.K")

  function At(s: State): nat
    requires A in s.reg
  {
    Index(s.reg[A].ifaces, "x.I")
  }

  /** The interface after the value has changed and been reported. */
  const X_I_QUEUED := Iface("x.I", VALUES, map["P" := Int32(2)], [P])

  lemma ChangedAndReported(s: State)
    requires Served(s)
    ensures var s' := Step(Step(s, CHANGED), REPORTED);
      && A in s'.reg && At(s) < |s'.reg[A].ifaces| && s'.reg[A].ifaces[At(s)] == X_I_QUEUED && s'.out == s.out
      && s'.reg[A].added == [] && s'.reg[A].refcount > 1 && Has(s'.reg[A].ifaces, "x.K") && s'.enabled == s.enabled
  {
    UserNames();
    TwoUsers(s, X_I, X_K);
    ChangedThenReported(s, At(s));
  }

  lemma ChangedThenReported(s: State, k: nat)
    requires A in s.reg && s.enabled && s.reg[A].added == [] && k < |s.reg[A].ifaces| && Index(s.reg[A].ifaces, "x.I") == k
    requires s.reg[A].ifaces[k] == X_I
    ensures var s' := Step(Step(s, CHANGED), REPORTED);
      && A in s'.reg && k < |s'.reg[A].ifaces| && s'.reg[A].ifaces[k] == X_I_QUEUED && s'.out == s.out
      && s'.reg[A].added == [] && s'.reg[A].refcount == s.reg[A].refcount && s'.enabled == s.enabled
      && forall n :: Has(s'.reg[A].ifaces, n) <==> Has(s.reg[A].ifaces, n)
  {
    ChangedOne(s, k);
    ReportedOne(Step(s, CHANGED), k);
    SameNames(s.reg[A].ifaces, Step(s, CHANGED).reg[A].ifaces);
    SameNames(Step(s, CHANGED).reg[A].ifaces, Step(Step(s, CHANGED), REPORTED).reg[A].ifaces);
  }

  lemma ChangedOne(s: State, k: nat)
    requires A in s.reg && k < |s.reg[A].ifaces| && Index(s.reg[A].ifaces, "x.I") == k && s.reg[A].ifaces[k] == X_I
    ensures var s' := Step(s, CHANGED); var o := s'.reg[A];
      && A in s'.reg && o.ifaces == s.reg[A].ifaces[k := X_I.(data := map["P" := Int32(2)])] && s'.out == s.out
      && Index(o.ifaces, "x.I") == k && o.added == s.reg[A].added && o.refcount == s.reg[A].refcount && s'.enabled == s.enabled
  {
    var l := s.reg[A].ifaces;
    assert X_I.data["P" := Int32(2)] == map["P" := Int32(2)];
    SameNames(l, l[k := X_I.(data := map["P" := Int32(2)])]);
  }

  lemma ReportedOne(s: State, k: nat)
    requires A in s.reg && s.enabled && s.reg[A].added == [] && k < |s.reg[A].ifaces| && Index(s.reg[A].ifaces, "x.I") == k
    requires s.reg[A].ifaces[k] == X_I.(data := map["P" := Int32(2)])
    ensures var s' := Step(s, REPORTED); var o := s'.reg[A];
      && A in s'.reg && o.ifaces == s.reg[A].ifaces[k := X_I_QUEUED] && s'.out == s.out
      && o.added == [] && o.refcount == s.reg[A].refcount && s'.enabled == s.enabled
  {
    assert FindProperty(VALUES.Props(), "P", true) == Some(P);
    assert [P] + [] == [P];
  }

  /** Observers still hold the value of before. */
  lemma ToldOne(s: State)
    requires Served(s)
    ensures Look(Known(Told(s.out, A), "x.I"), "P") == Some(Int32(1))
  {
    UserNames();
    TwoUsers(s, X_I, X_K);
    NotWaiting(s);
    assert !s.reg[A].queued;
    SettledCurrent(s, A, {});
    assert CurrentAt(s.reg[A].ifaces[At(s)], Told(s.out, A), s.enabled);
    assert Agrees(X_I, Known(Told(s.out, A), "x.I"), "P", true);
  }

  const REPORT_RUN: seq<Action> := BASE + [CHANGED] + [REPORTED]

  /** The state before the sibling goes. */
  lemma Reported() returns (s: State, t: State)
    ensures Fine(true, BASE, s, {}) && Fine(true, REPORT_RUN, t, {}) && t == Step(Step(s, CHANGED), REPORTED) && Served(s)
  {
    s := Base();
    t := Step(Step(s, CHANGED), REPORTED);
    FineMore(true, BASE, s, {}, CHANGED);
    FineMore(true, BASE + [CHANGED], Step(s, CHANGED), {(A, "x.I", "P")}, REPORTED);
  }

  /** Every change has been reported, yet once a sibling is removed a synced client keeps the old value. */
  lemma LostChangeRun()
    ensures var acts := REPORT_RUN + [OTHER_AWAY];
      var s', cv := Run(true, acts), Client(Flush(Run(true, acts)).out, 0, A);
      && Disciplined(true, acts) && Runs.Open(acts) == {} && cv.on && cv.synced && "x.I" in cv.view
      && Look(cv.view["x.I"], "P") == Some(Int32(1))
      && A in s'.reg && X_I_QUEUED in s'.reg[A].ifaces && Now(X_I_QUEUED, "P", true) == Some(Int32(2))
  {
    var s, t := Reported();
    var u := Step(t, OTHER_AWAY);
    RunStep(REPORT_RUN, OTHER_AWAY);
    Removable(s, t);
    OldValueTold(s, t, u);
    OldValueHeld(t, u);
    SyncedStill(s, t, u);
  }

  lemma Removable(s: State, t: State)
    requires Served(s) && t == Step(Step(s, CHANGED), REPORTED)
    ensures Allowed(t, OTHER_AWAY) && t.out == s.out
  {
    UserNames();
    ChangedAndReported(s);
  }

  /** What everybody was told of the value stays as it was. */
  lemma OldValueTold(s: State, t: State, u: State)
    requires Served(s) && Fine(true, REPORT_RUN, t, {}) && t == Step(Step(s, CHANGED), REPORTED) && u == Step(t, OTHER_AWAY)
    ensures Look(Known(Told(Flush(u).out, A), "x.I"), "P") == Some(Int32(1))
    ensures A in u.reg && X_I_QUEUED in u.reg[A].ifaces && "x.I" in LiveNames(u, A)
    ensures Now(X_I_QUEUED, "P", true) == Some(Int32(2))
  {
    ChangedAndReported(s);
    ToldOne(s);
    FineValues(true, REPORT_RUN, t, {});
    StillThere(t, u, At(s));
    UserNames();
    RemovalTells(t, A, "x.K", "x.I");
  }

  /** What a synced client holds is what everybody was told. */
  lemma OldValueHeld(t: State, u: State)
    requires Fine(true, REPORT_RUN, t, {}) && u == Step(t, OTHER_AWAY) && Allowed(t, OTHER_AWAY) && "x.I" in LiveNames(u, A)
    ensures var cv, told := Client(Flush(u).out, 0, A), Told(Flush(u).out, A);
      cv.on && cv.synced ==> "x.I" in cv.view && "x.I" in told && cv.view["x.I"] == told["x.I"]
  {
    RunStep(REPORT_RUN, OTHER_AWAY);
    SetCoherence(true, REPORT_RUN + [OTHER_AWAY], 0, A);
    RunGood(true, REPORT_RUN);
    RunValues(true, REPORT_RUN);
    StepGood(t, OTHER_AWAY);
    RemovalExact(t, u, A, "x.K", 0);
  }

  lemma SyncedStill(s: State, t: State, u: State)
    requires Served(s) && t.out == s.out && u == Step(t, OTHER_AWAY)
    ensures Client(Flush(u).out, 0, A).on && Client(Flush(u).out, 0, A).synced
  {
    StepGrows(t, OTHER_AWAY);
    StaysSynced(t, u);
  }

  lemma StillThere(t: State, u: State, k: nat)
    requires Good(t) && u == Step(t, OTHER_AWAY)
    requires A in t.reg && k < |t.reg[A].ifaces| && t.reg[A].ifaces[k] == X_I_QUEUED
    requires t.reg[A].refcount > 1 && Has(t.reg[A].ifaces, "x.K")
    ensures A in u.reg && X_I_QUEUED in u.reg[A].ifaces && "x.I" in LiveNames(u, A) && Has(t.reg[A].ifaces, "x.I")
    ensures Now(X_I_QUEUED, "P", true) == Some(Int32(2))
  {
    UserNames();
    AfterRemoval(t, A, "x.K");
    DistinctAt(t, A);
    NameThere(t, u, A, "x.K", k);
    StillListed(t.reg[A].ifaces, Index(t.reg[A].ifaces, "x.K"), k);
    QueuedNow();
  }

  lemma QueuedNow()
    ensures Now(X_I_QUEUED, "P", true) == Some(Int32(2))
  {
  }

  lemma StillListed(l: seq<Iface>, j: nat, k: nat)
    requires j < |l| && k < |l| && j != k
    ensures l[k] in l[..j] + l[j + 1..]
  {
    var r := l[..j] + l[j + 1..];
    assert r[if k < j then k else k - 1] == l[k];
  }
}
