/** A run with experimental members disabled, as they are by default. */
module DefaultRun {
  import opened Lists
  import opened Paths
  import opened DBusValues
  import opened ObjectModel
  import opened ObjectTree
  import opened Observers
  import opened PropertyValues
  import opened ServerInvariant
  import opened ServerApi
  import opened Clients
  import opened ValueInvariant
  import opened ValueCalls
  import opened Runs
  import opened ObjectRules
  import opened CounterRuns

  /** A table with a method and two properties, one of them experimental. */
  const H := Prop("H", true, false, true)
  const MIXED := Table([Member("Update", false)], [], Some([P, H]))
  const DATA: map<string, DValue> := map["P" := Int32(1), "H" := Int32(2)]
  const U := Action.Register(A, "x.U", MIXED, DATA)
  const ASKED: seq<Action> := [] + [U] + [Subscribe(0)] + [GetManagedObjects(0)]

  lemma UserName()
    ensures !Builtin("x.U")
  {
    assert "x.U"[0] != INTROSPECTABLE[0] && "x.U"[0] != PROPERTIES[0];
  }

  lemma MixedTable()
    ensures Offered(MIXED, false) && DistinctProps(MIXED.Props())
  {
    assert Member("Update", false) in MIXED.methods;
    assert [P, H][0].name[0] != [P, H][1].name[0];
  }

  /** The registration is accepted. */
  lemma Accepted(s: State)
    requires Good(s) && OnlyRoot(s) && !s.enabled
    ensures Allowed(s, U) && ValuesAllowed(s, {}, U) && ObjectModel.Register(s, A, "x.U", MIXED, DATA).1
    ensures var s' := Step(s, U);
      Good(s') && A in s'.reg && !s'.enabled && Iface("x.U", MIXED, DATA, []) in s'.reg[A].ifaces
  {
    UserName();
    NothingBelow(s);
    MixedTable();
    RegisterIff(s, A, "x.U", MIXED, DATA);
    StepEnabled(s, U);
    RegisterKeeps(s, A, "x.U", MIXED, DATA);
  }

  const TRY := Table([Member("Try", true)], [], Some([H]))

  lemma TryTable(enabled: bool)
    ensures Offered(TRY, enabled) <==> enabled
  {
    assert TRY.methods[0] in TRY.methods;
  }

  /** An interface of which everything is experimental is refused, unless these are enabled. */
  lemma Refused(s: State, p: Path, name: string, data: map<string, DValue>)
    requires Good(s) && MayRegister(s, p, name) && !On(s, p, name)
    ensures ObjectModel.Register(s, p, name, TRY, data).1 <==> s.enabled
  {
    TryTable(s.enabled);
    RegisterIff(s, p, name, TRY, data);
  }

  lemma AfterAsking(s: State, s1: State, s': State)
    requires Good(s1) && Values(s', {}) && Good(s') && s1 == s.(out := s.out + [Subscribed(0)]) && s' == GetObjects(s1, 0)
    requires A in s.reg && Iface("x.U", MIXED, DATA, []) in s.reg[A].ifaces
    ensures A in s'.reg && Iface("x.U", MIXED, DATA, []) in s'.reg[A].ifaces && Flush(s') == s'
    ensures var cv := Client(s'.out, 0, A); cv.on && cv.synced
  {
    JustSubscribed(s.out);
    Asked(s1, 0);
    KeepsIfaces(s1, s');
  }

  lemma AskedRun() returns (s: State)
    ensures Fine(false, ASKED, s, {}) && A in s.reg && Iface("x.U", MIXED, DATA, []) in s.reg[A].ifaces && Flush(s) == s
    ensures var cv := Client(s.out, 0, A); cv.on && cv.synced
  {
    var s0 := Run(false, []);
    var s1 := Step(s0, U);
    var s2 := Step(s1, Subscribe(0));
    s := Step(s2, GetManagedObjects(0));
    RunGood(false, []);
    AttachedRoot(false);
    Accepted(s0);
    FineMore(false, [], s0, {}, U);
    FineMore(false, [] + [U], s1, {}, Subscribe(0));
    FineMore(false, [] + [U] + [Subscribe(0)], s2, {}, GetManagedObjects(0));
    StepGood(s1, Subscribe(0));
    FineValues(false, ASKED, s, {});
    AfterAsking(s1, s2, s);
  }

  /** The client that asked holds the ordinary property and not the experimental one. */
  lemma OrdinaryOnly()
    ensures Disciplined(false, ASKED) && Careful(false, ASKED)
    ensures var cv := Client(Run(false, ASKED).out, 0, A); cv.on && cv.synced && "x.U" in cv.view && cv.view["x.U"] == map["P" := Int32(1)]
  {
    var s := AskedRun();
    var k :| 0 <= k < |s.reg[A].ifaces| && s.reg[A].ifaces[k] == Iface("x.U", MIXED, DATA, []);
    UserName();
    ClientShows(false, ASKED, 0, A, k);
    OnlyP(Client(s.out, 0, A).view["x.U"]);
  }

  lemma OnlyP(t: PropTable)
    requires Shows(t, MIXED.Props(), DATA, false)
    ensures t == map["P" := Int32(1)]
  {
    assert P in MIXED.Props() && H in MIXED.Props();
    assert forall q :: q in t ==> q == "P";
  }
}
