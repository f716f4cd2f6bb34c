/** Whole runs of the policy daemon: reloads, requests, disconnections and update rounds in any order. */
module PolicyRuns {
  import opened Lists
  import opened PolicyModel

  /** `Reload` replaces the loaded policies, completely or partly loaded; `Request` is an agent asking for
      an application's policy, which is watched and answered; a `Round` may fail after `ok` sends. */
  datatype Action =
    | Reload(policies: map<string, Policy>)
    | Request(agent: string, owner: string, ids: seq<string>)
    | Disconnect(key: string)
    | AgentGone(agent: string)
    | Round(order: seq<string>, ok: nat)

  ghost predicate Can(s: State, a: Action) {
    match a
    case Disconnect(key) => key in s.apps
    case Round(order, ok) => Walks(s, order)
    case _ => true
  }

  function Answer(s: State, key: string): State
    requires key in s.apps
  {
    s.(told := s.told[key := ActiveOf(s, key).json])
  }

  ghost function Next(s: State, a: Action): State
    requires Can(s, a)
  {
    match a
    case Reload(p) => s.(policies := p)
    case Request(agent, owner, ids) => Answer(Watch(s, agent, owner, ids), Key(agent, owner))
    case Disconnect(key) => Stop(s, key)
    case AgentGone(agent) => RemoveAgent(s, agent)
    case Round(order, ok) => PolicyModel.Round(s, order, ok)
  }

  ghost predicate Runs(s: State, l: seq<Action>)
    decreases l
  {
    l != [] ==> Can(s, l[0]) && Runs(Next(s, l[0]), l[1..])
  }

  ghost function After(s: State, l: seq<Action>): State
    requires Runs(s, l)
    decreases l
  {
    if l == [] then s else After(Next(s, l[0]), l[1..])
  }

  lemma SendKeepsIndex(s: State, l: seq<string>, ok: nat)
    requires IndexOk(s) && Walks(s, l)
    ensures IndexOk(PolicyModel.Round(s, l, ok))
  {
    RoundProgress(s, l, ok);
    var t := PolicyModel.Round(s, l, ok);
    forall key ensures (key in t.apps <==> key in s.apps) && (key in s.apps ==> t.apps[key].ids == s.apps[key].ids) {
      assert Reached(s, t, key, key in l[..Min(ok, |l|)]);
    }
    SameIndex(s, t);
  }

  lemma StepKeepsIndex(s: State, a: Action)
    requires IndexOk(s) && Can(s, a)
    ensures IndexOk(Next(s, a))
  {
    match a
    case Reload(p) => SameIndex(s, Next(s, a));
    case Request(agent, owner, ids) =>
      WatchKeepsIndex(s, agent, owner, ids);
      SameIndex(Watch(s, agent, owner, ids), Next(s, a));
    case Disconnect(key) =>
      StopDrops(s, key);
      DropKeepsIndex(s, {key});
    case AgentGone(agent) => DropKeepsIndex(s, Victims(s, agent));
    case Round(order, ok) => SendKeepsIndex(s, order, ok);
  }

  lemma {:induction false} RunIndex(s: State, l: seq<Action>)
    requires IndexOk(s) && Runs(s, l)
    ensures IndexOk(After(s, l))
    decreases l
  {
    if l != [] {
      StepKeepsIndex(s, l[0]);
      RunIndex(Next(s, l[0]), l[1..]);
    }
  }

  /** The daemon right after it has started. */
  function Initial(policies: map<string, Policy>, fallback: Policy): State {
    State(policies, fallback, map[], map[], {}, [], map[])
  }

  lemma InitialIndex(policies: map<string, Policy>, fallback: Policy)
    ensures IndexOk(Initial(policies, fallback))
  {
  }

  /** In every state reachable from the start the two directions of the index agree exactly. */
  lemma ReachableIndex(policies: map<string, Policy>, fallback: Policy, l: seq<Action>)
    requires Runs(Initial(policies, fallback), l)
    ensures IndexOk(After(Initial(policies, fallback), l))
  {
    InitialIndex(policies, fallback);
    RunIndex(Initial(policies, fallback), l);
  }

  // ---- what the agents really hold ----

  /** The policy remembered for each application is the last one its agent was sent. */
  ghost predicate InStep(s: State) { forall key :: key in s.apps ==> key in s.told && s.told[key] == s.apps[key].json }

  /** A request is answered with the active policy but does not update what is remembered for a watched
      application; so it keeps the memory right exactly when the application was not due for an update. */
  lemma RequestInStepIff(s: State, agent: string, owner: string, ids: seq<string>)
    requires InStep(s)
    ensures InStep(Next(s, Request(agent, owner, ids))) <==> Key(agent, owner) !in Marked(s)
  {
    var key, t := Key(agent, owner), Next(s, Request(agent, owner, ids));
    if key in s.apps {
      assert t.told[key] == ActiveOf(s, key).json && t.apps[key] == s.apps[key];
    } else {
      assert t.told[key] == t.apps[key].json;
    }
    forall k | k in t.apps && k != key ensures k in t.told && t.told[k] == t.apps[k].json {
      assert k in s.apps;
    }
  }

  /** No agent asks again for an application while an update for it is due. */
  ghost predicate Patient(s: State, l: seq<Action>)
    requires Runs(s, l)
    decreases l
  {
    l != [] ==> (l[0].Request? ==> Key(l[0].agent, l[0].owner) !in Marked(s)) && Patient(Next(s, l[0]), l[1..])
  }

  lemma StepInStep(s: State, a: Action)
    requires InStep(s) && Can(s, a) && (a.Request? ==> Key(a.agent, a.owner) !in Marked(s))
    ensures InStep(Next(s, a))
  {
    match a
    case Reload(p) =>
    case Request(agent, owner, ids) => RequestInStepIff(s, agent, owner, ids);
    case Disconnect(key) =>
    case AgentGone(agent) =>
    case Round(order, ok) =>
      RoundProgress(s, order, ok);
      var t := Next(s, a);
      forall key | key in t.apps ensures key in t.told && t.told[key] == t.apps[key].json {
        assert Reached(s, t, key, key in order[..Min(ok, |order|)]);
      }
  }

  lemma {:induction false} RunInStep(s: State, l: seq<Action>)
    requires InStep(s) && Runs(s, l) && Patient(s, l)
    ensures InStep(After(s, l))
    decreases l
  {
    if l != [] {
      StepInStep(s, l[0]);
      RunInStep(Next(s, l[0]), l[1..]);
    }
  }

  /** No lost updates: whatever reloads, requests, disconnections and failed rounds came before, a round
      that completes leaves every agent holding the active policy of each of its applications. */
  lemma NoLostUpdates(s: State, l: seq<Action>, order: seq<string>, ok: nat)
    requires InStep(s) && Runs(s, l) && Patient(s, l)
    requires Walks(After(s, l), order) && ok >= |order|
    ensures var t := PolicyModel.Round(After(s, l), order, ok);
      forall key :: key in t.apps ==>
        t.apps[key].json == ActiveOf(t, key).json && key in t.told && t.told[key] == ActiveOf(t, key).json
  {
    var u := After(s, l);
    RunInStep(s, l);
    RoundCompletes(u, order, ok);
    StepInStep(u, Round(order, ok));
  }

  /** The same from the start on. */
  lemma ReachableUpdates(policies: map<string, Policy>, fallback: Policy, l: seq<Action>, order: seq<string>, ok: nat)
    requires Runs(Initial(policies, fallback), l) && Patient(Initial(policies, fallback), l)
    requires Walks(After(Initial(policies, fallback), l), order) && ok >= |order|
    ensures var t := PolicyModel.Round(After(Initial(policies, fallback), l), order, ok);
      forall key :: key in t.apps ==> key in t.told && t.told[key] == ActiveOf(t, key).json
  {
    NoLostUpdates(Initial(policies, fallback), l, order, ok);
  }

  /** Without that patience: a completed round leaves an agent right exactly when its application was due
      for an update or the agent already held the active policy. */
  lemma HoldsIff(s: State, order: seq<string>, ok: nat, key: string)
    requires Walks(s, order) && ok >= |order| && key in s.apps && key in s.told
    ensures var t := PolicyModel.Round(s, order, ok);
      key in t.apps && key in t.told
      && (t.told[key] == ActiveOf(t, key).json <==> key in Marked(s) || s.told[key] == ActiveOf(s, key).json)
  {
    RoundProgress(s, order, ok);
    RoundCompletes(s, order, ok);
    assert order[..|order|] == order;
    assert Reached(s, PolicyModel.Round(s, order, ok), key, key in order);
  }

  // ---- a lost update ----

  const IDS := ["user:a"]
  const KEY := Key(":1.1", ":1.5")
  const ASK := Request(":1.1", ":1.5", IDS)

  function Loaded(json: string): map<string, Policy> { map["user:a" := Policy("user:a", json)] }

  /** A state in which only the policy `json` is loaded and only one application may be watched. */
  ghost predicate Snapshot(s: State, json: string, apps: map<string, App>) {
    s.policies == Loaded(json) && s.apps == apps && apps.Keys <= {KEY}
  }

  lemma LoadedIsActive(s: State, json: string)
    requires s.policies == Loaded(json)
    ensures Accepted(IDS) == IDS && Active(IDS, s.policies, s.fallback) == Policy("user:a", json)
  {
    assert KindAt(IDS[0], 0, "user");
    assert First(IDS, s.policies, -1, 0);
    ActivePolicy(IDS, s.policies, s.fallback);
  }

  lemma FirstAsk(s: State, json: string)
    requires Snapshot(s, json, map[])
    ensures Snapshot(Next(s, ASK), json, map[KEY := App(IDS, json)])
  {
    LoadedIsActive(s, json);
  }

  lemma SecondAsk(s: State, json: string, held: string)
    requires Snapshot(s, json, map[KEY := App(IDS, held)])
    ensures var t := Next(s, ASK); Snapshot(t, json, map[KEY := App(IDS, held)]) && t.told == s.told[KEY := json]
  {
    LoadedIsActive(s, json);
  }

  lemma EmptyRound(s: State, json: string)
    requires Snapshot(s, json, map[KEY := App(IDS, json)])
    ensures Marked(s) == {} && Can(s, Round([], 0))
    ensures Snapshot(Next(s, Round([], 0)), json, s.apps) && Next(s, Round([], 0)).told == s.told
    ensures ActiveOf(s, KEY).json == json
  {
    LoadedIsActive(s, json);
  }

  const LOSING := [Reload(Loaded("1")), ASK, Reload(Loaded("2")), ASK, Reload(Loaded("1")), Round([], 0)]

  /** An agent that asks again while an update is due can be left with an outdated policy after a round
      that completes: it holds policy 2 while policy 1 is active and no update is due. */
  lemma LostUpdate()
    ensures Runs(INITIAL, LOSING)
    ensures var t := After(INITIAL, LOSING);
      && Marked(t) == {} && KEY in t.apps && ActiveOf(t, KEY).json == "1" && KEY in t.told && t.told[KEY] == "2"
  {
    var a := Next(INITIAL, LOSING[0]);
    var b := Next(a, LOSING[1]);
    FirstAsk(a, "1");
    var c := Next(b, LOSING[2]);
    var d := Next(c, LOSING[3]);
    SecondAsk(c, "2", "1");
    var e := Next(d, LOSING[4]);
    EmptyRound(e, "1");
    var t := Next(e, LOSING[5]);
    EmptyRound(t, "1");
    assert Runs(t, LOSING[6..]) && After(t, LOSING[6..]) == t;
    StepRun(e, LOSING, 5);
    StepRun(d, LOSING, 4);
    StepRun(c, LOSING, 3);
    StepRun(b, LOSING, 2);
    StepRun(a, LOSING, 1);
    StepRun(INITIAL, LOSING, 0);
    assert LOSING[0..] == LOSING;
  }

  lemma StepRun(s: State, l: seq<Action>, k: nat)
    requires k < |l| && Can(s, l[k]) && Runs(Next(s, l[k]), l[k + 1..])
    ensures Runs(s, l[k..]) && After(s, l[k..]) == After(Next(s, l[k]), l[k + 1..])
  {
    assert l[k..][1..] == l[k + 1..];
  }

  // ---- failing rounds converge ----

  lemma SmallerSet(a: set<string>, b: set<string>)
    requires a < b
    ensures |a| < |b|
  {
    assert b == a + (b - a);
    assert b - a != {};
  }

  /** If every round gets at least one message out, as many rounds as there are due updates suffice. */
  lemma {:induction false} RoundsConverge(s: State, l: seq<Action>)
    requires Runs(s, l) && forall k :: 0 <= k < |l| ==> l[k].Round? && l[k].ok >= 1
    ensures |l| >= |Marked(s)| ==> Marked(After(s, l)) == {}
    decreases l
  {
    if l != [] {
      var t, order, ok := Next(s, l[0]), l[0].order, l[0].ok;
      RoundProgress(s, order, ok);
      assert Marked(t) <= Marked(s);
      if Marked(s) != {} {
        var x :| x in Marked(s);
        assert x in order;
        assert order[0] in order[..Min(ok, |order|)] && order[0] in Marked(s);
        SmallerSet(Marked(t), Marked(s));
      } else {
        assert Marked(t) == {};
      }
      RoundsConverge(t, l[1..]);
    }
  }
}
