/** The policy index and the update engine of the policy daemon on values. */
module PolicyModel {
  import opened Lists

  datatype Policy = Policy(id: string, json: string)

  /** An agent's application: its accepted policy ids and the policy its agent is believed to hold. */
  datatype App = App(ids: seq<string>, json: string)

  /** One policy message to an agent about an application. */
  datatype Send = Send(agent: string, owner: string, json: string)

  /** `told` is a history variable: the last policy each agent was sent for an application. */
  datatype State = State(
    policies: map<string, Policy>,
    fallback: Policy,
    apps: map<string, App>,
    index: map<string, seq<string>>,
    marked: set<string>,
    sent: seq<Send>,
    told: map<string, string>)

  // ---- application ids ----

  function Key(agent: string, owner: string): string { agent + "/" + owner }

  function AgentOf(key: string): string {
    if key == [] || key[0] == '/' then "" else [key[0]] + AgentOf(key[1..])
  }

  function OwnerOf(key: string): string {
    if key == [] then "" else if key[0] == '/' then key[1..] else OwnerOf(key[1..])
  }

  /** Splitting an application id at its first slash gives back the names it was made of. */
  lemma {:induction false} SplitKey(agent: string, owner: string)
    requires '/' !in agent
    ensures AgentOf(Key(agent, owner)) == agent && OwnerOf(Key(agent, owner)) == owner
  {
    if agent != [] {
      SplitKey(agent[1..], owner);
      assert Key(agent, owner)[1..] == Key(agent[1..], owner);
    }
  }

  predicate HasPrefix(s: string, p: string) { p <= s }

  /** A name without a slash starts the id exactly when it starts the agent's name. */
  lemma {:induction false} PrefixOfAgent(key: string, name: string)
    requires '/' !in name
    ensures HasPrefix(key, name) <==> HasPrefix(AgentOf(key), name)
  {
    if name != [] && key != [] && key[0] != '/' {
      PrefixOfAgent(key[1..], name[1..]);
      assert key == [key[0]] + key[1..] && name == [name[0]] + name[1..];
    }
  }

  // ---- policy ids ----

  predicate Letter(c: char) { 'a' <= c <= 'z' || 'A' <= c <= 'Z' }

  predicate KindAt(id: string, i: nat, kind: string) {
    i + |kind| + 1 < |id| && id[i..i + |kind|] == kind && id[i + |kind|] == ':' && Letter(id[i + |kind| + 1])
  }

  /** The regular expression is not anchored: it may match anywhere in the id. */
  predicate ValidId(id: string) {
    exists i :: 0 <= i < |id| && (KindAt(id, i, "selinux") || KindAt(id, i, "user") || KindAt(id, i, "group"))
  }

  function Priority(id: string): int {
    if HasPrefix(id, "selinux:") then 2
    else if HasPrefix(id, "user:") then 1
    else if HasPrefix(id, "group:") then 0
    else -1
  }

  function Accepted(ids: seq<string>): seq<string> {
    if ids == [] then []
    else if ValidId(ids[0]) then [ids[0]] + Accepted(ids[1..])
    else Accepted(ids[1..])
  }

  // ---- the active policy ----

  /** The running maximum of `get_active_policy`. */
  function Scan(ids: seq<string>, policies: map<string, Policy>, best: Option<Policy>, top: int): Option<Policy> {
    if ids == [] then best
    else if Priority(ids[0]) > top && ids[0] in policies then
      Scan(ids[1..], policies, Some(policies[ids[0]]), Priority(ids[0]))
    else Scan(ids[1..], policies, best, top)
  }

  function Active(ids: seq<string>, policies: map<string, Policy>, fallback: Policy): Policy {
    match Scan(ids, policies, None, -1)
    case None => fallback
    case Some(p) => p
  }

  /** The `k`-th id names a loaded policy of a known kind; no other such id has a higher priority, and
      no earlier one has the same. */
  ghost predicate First(ids: seq<string>, policies: map<string, Policy>, top: int, k: int) {
    && 0 <= k < |ids| && ids[k] in policies && Priority(ids[k]) > top
    && forall j :: 0 <= j < |ids| && ids[j] in policies ==>
        Priority(ids[j]) <= Priority(ids[k]) && (j < k ==> Priority(ids[j]) < Priority(ids[k]))
  }

  lemma {:induction false} ScanFirst(ids: seq<string>, policies: map<string, Policy>, best: Option<Policy>, top: int)
    ensures forall k :: First(ids, policies, top, k) ==> Scan(ids, policies, best, top) == Some(policies[ids[k]])
    ensures (forall k :: 0 <= k < |ids| && ids[k] in policies ==> Priority(ids[k]) <= top) ==>
      Scan(ids, policies, best, top) == best
  {
    if ids != [] {
      var rest, p := ids[1..], Priority(ids[0]);
      if p > top && ids[0] in policies {
        ScanFirst(rest, policies, Some(policies[ids[0]]), p);
        forall k | First(ids, policies, top, k) ensures Scan(ids, policies, best, top) == Some(policies[ids[k]]) {
          if k > 0 {
            assert First(rest, policies, p, k - 1);
          }
        }
      } else {
        ScanFirst(rest, policies, best, top);
        forall k | First(ids, policies, top, k) ensures Scan(ids, policies, best, top) == Some(policies[ids[k]]) {
          assert k > 0;
          assert First(rest, policies, top, k - 1);
        }
      }
    }
  }

  /** The active policy is the first loaded one of the highest priority, and the default one exactly
      when no id with a known prefix is loaded. */
  lemma ActivePolicy(ids: seq<string>, policies: map<string, Policy>, fallback: Policy)
    ensures forall k :: First(ids, policies, -1, k) ==> Active(ids, policies, fallback) == policies[ids[k]]
    ensures (forall k :: 0 <= k < |ids| && ids[k] in policies ==> Priority(ids[k]) < 0) ==>
      Active(ids, policies, fallback) == fallback
    ensures (exists k :: 0 <= k < |ids| && ids[k] in policies && Priority(ids[k]) >= 0) ==>
      exists k :: First(ids, policies, -1, k)
  {
    ScanFirst(ids, policies, None, -1);
    FirstExists(ids, policies, -1);
  }

  lemma {:induction false} FirstExists(ids: seq<string>, policies: map<string, Policy>, top: int)
    ensures (exists k :: 0 <= k < |ids| && ids[k] in policies && Priority(ids[k]) > top) ==>
      exists k :: First(ids, policies, top, k)
  {
    if ids != [] {
      var rest, p := ids[1..], Priority(ids[0]);
      if p > top && ids[0] in policies {
        FirstExists(rest, policies, p);
        if exists k :: First(rest, policies, p, k) {
          var k :| First(rest, policies, p, k);
          assert First(ids, policies, top, k + 1);
        } else {
          assert forall j :: 0 <= j < |rest| && rest[j] in policies ==> Priority(rest[j]) <= p;
          assert First(ids, policies, top, 0);
        }
      } else {
        FirstExists(rest, policies, top);
        if exists k :: 0 <= k < |ids| && ids[k] in policies && Priority(ids[k]) > top {
          var k :| 0 <= k < |ids| && ids[k] in policies && Priority(ids[k]) > top;
          assert rest[k - 1] == ids[k];
          var m :| First(rest, policies, top, m);
          assert First(ids, policies, top, m + 1);
        }
      }
    }
  }

  /** An id that the unanchored pattern accepts in its middle has no priority and never wins. */
  lemma AcceptedButNeverActive(policies: map<string, Policy>, fallback: Policy)
    ensures ValidId("my-user:root") && Accepted(["my-user:root"]) == ["my-user:root"]
    ensures Active(["my-user:root"], policies, fallback) == fallback
  {
    var ids := ["my-user:root"];
    assert KindAt(ids[0], 3, "user");
    assert ids[0][0] == 'm';
    assert Accepted(ids[1..]) == [];
    ActivePolicy(["my-user:root"], policies, fallback);
  }

  // ---- the two-way index ----

  function Link(index: map<string, seq<string>>, ids: seq<string>, key: string): map<string, seq<string>>
    decreases ids
  {
    if ids == [] then index
    else Link(index[ids[0] := Lookup(index, ids[0]) + [key]], ids[1..], key)
  }

  function Unlink(index: map<string, seq<string>>, ids: seq<string>, key: string): map<string, seq<string>>
    decreases ids
  {
    if ids == [] then index
    else if ids[0] in index then Unlink(index[ids[0] := RemoveFirst(index[ids[0]], key)], ids[1..], key)
    else Unlink(index, ids[1..], key)
  }

  function Lookup(index: map<string, seq<string>>, id: string): seq<string> {
    if id in index then index[id] else []
  }

  function ActiveOf(s: State, key: string): Policy
    requires key in s.apps
  {
    Active(s.apps[key].ids, s.policies, s.fallback)
  }

  /** `pold_policy_watch_app`. */
  function Watch(s: State, agent: string, owner: string, ids: seq<string>): State {
    var key := Key(agent, owner);
    if key in s.apps then s
    else
      var a := Accepted(ids);
      s.(index := Link(s.index, a, key), apps := s.apps[key := App(a, Active(a, s.policies, s.fallback).json)])
  }

  /** `stop_watching_app`. */
  function Stop(s: State, key: string): State
    requires key in s.apps
  {
    s.(index := Unlink(s.index, s.apps[key].ids, key), apps := s.apps - {key})
  }

  /** How often the list of a policy id holds an application. */
  function Held(s: State, id: string, key: string): nat { multiset(Lookup(s.index, id))[key] }

  /** How often a watched application names a policy id. */
  function Wanted(s: State, id: string, key: string): nat {
    if key in s.apps then multiset(s.apps[key].ids)[id] else 0
  }

  /** Each list holds each application as often as it names the id, and only watched applications. */
  ghost predicate IndexOk(s: State) { forall id, key :: Held(s, id, key) == Wanted(s, id, key) }

  /** Only the index and the ids of the applications matter. */
  lemma SameIndex(s: State, t: State)
    requires IndexOk(s) && t.index == s.index && t.apps.Keys == s.apps.Keys
    requires forall key :: key in s.apps ==> t.apps[key].ids == s.apps[key].ids
    ensures IndexOk(t)
  {
    forall id, key ensures Held(t, id, key) == Wanted(t, id, key) {
      assert Held(s, id, key) == Wanted(s, id, key);
    }
  }

  lemma {:induction false} LinkCounts(index: map<string, seq<string>>, ids: seq<string>, key: string, id: string, k: string)
    ensures multiset(Lookup(Link(index, ids, key), id))[k]
      == multiset(Lookup(index, id))[k] + if k == key then multiset(ids)[id] else 0
    decreases ids
  {
    if ids != [] {
      LinkCounts(index[ids[0] := Lookup(index, ids[0]) + [key]], ids[1..], key, id, k);
      assert ids == [ids[0]] + ids[1..];
    }
  }

  /** Watching keeps the index exact, also when an id is given several times. */
  lemma WatchKeepsIndex(s: State, agent: string, owner: string, ids: seq<string>)
    requires IndexOk(s)
    ensures IndexOk(Watch(s, agent, owner, ids))
  {
    var key, t := Key(agent, owner), Watch(s, agent, owner, ids);
    if key !in s.apps {
      forall id, k ensures Held(t, id, k) == Wanted(t, id, k) {
        LinkCounts(s.index, Accepted(ids), key, id, k);
        assert Held(s, id, k) == Wanted(s, id, k);
      }
    }
  }

  // ---- removal ----

  function Without(l: seq<string>, r: set<string>): seq<string> {
    if l == [] then []
    else if l[0] in r then Without(l[1..], r)
    else [l[0]] + Without(l[1..], r)
  }

  /** The state without a set of applications: gone from the table and from every list. */
  function Drop(s: State, r: set<string>): State {
    s.(apps := s.apps - r, index := map id | id in s.index :: Without(s.index[id], r))
  }

  function RemoveTimes(l: seq<string>, x: string, n: nat): seq<string>
    decreases n
  {
    if n == 0 then l else RemoveTimes(RemoveFirst(l, x), x, n - 1)
  }

  lemma {:induction false} RemoveFirstCount(l: seq<string>, x: string)
    ensures multiset(RemoveFirst(l, x)) == multiset(l) - multiset{x}
    ensures Without(RemoveFirst(l, x), {x}) == Without(l, {x})
  {
    if l != [] {
      assert l == [l[0]] + l[1..];
      if l[0] != x {
        RemoveFirstCount(l[1..], x);
        assert RemoveFirst(l, x)[1..] == RemoveFirst(l[1..], x);
      }
    }
  }

  lemma {:induction false} WithoutAbsent(l: seq<string>, r: set<string>)
    requires forall x :: x in r ==> x !in l
    ensures Without(l, r) == l
  {
    if l != [] {
      assert l[0] in l;
      WithoutAbsent(l[1..], r);
    }
  }

  lemma {:induction false} RemoveAll(l: seq<string>, x: string, n: nat)
    requires n == multiset(l)[x]
    ensures RemoveTimes(l, x, n) == Without(l, {x})
    decreases n
  {
    RemoveFirstCount(l, x);
    if n == 0 {
      WithoutAbsent(l, {x});
    } else {
      RemoveAll(RemoveFirst(l, x), x, n - 1);
    }
  }

  lemma {:induction false} UnlinkTimes(index: map<string, seq<string>>, ids: seq<string>, key: string)
    ensures Unlink(index, ids, key).Keys == index.Keys
    ensures forall id :: id in index ==> Unlink(index, ids, key)[id] == RemoveTimes(index[id], key, multiset(ids)[id])
    decreases ids
  {
    if ids != [] {
      assert ids == [ids[0]] + ids[1..];
      var next := if ids[0] in index then index[ids[0] := RemoveFirst(index[ids[0]], key)] else index;
      UnlinkTimes(next, ids[1..], key);
      assert next.Keys == index.Keys;
    }
  }

  /** Although its lists are only unlinked once per accepted id, a stopped application leaves no trace. */
  lemma StopDrops(s: State, key: string)
    requires IndexOk(s) && key in s.apps
    ensures Stop(s, key) == Drop(s, {key})
  {
    UnlinkTimes(s.index, s.apps[key].ids, key);
    forall id | id in s.index ensures Stop(s, key).index[id] == Without(s.index[id], {key}) {
      assert Held(s, id, key) == Wanted(s, id, key);
      RemoveAll(s.index[id], key, Wanted(s, id, key));
    }
  }

  lemma {:induction false} WithoutCount(l: seq<string>, r: set<string>, k: string)
    ensures multiset(Without(l, r))[k] == if k in r then 0 else multiset(l)[k]
  {
    if l != [] {
      assert l == [l[0]] + l[1..];
      WithoutCount(l[1..], r, k);
    }
  }

  lemma DropKeepsIndex(s: State, r: set<string>)
    requires IndexOk(s)
    ensures IndexOk(Drop(s, r))
  {
    forall id, k ensures Held(Drop(s, r), id, k) == Wanted(Drop(s, r), id, k) {
      assert Held(s, id, k) == Wanted(s, id, k);
      WithoutCount(Lookup(s.index, id), r, k);
    }
  }

  lemma {:induction false} WithoutTwice(l: seq<string>, r: set<string>, q: set<string>)
    ensures Without(Without(l, r), q) == Without(l, r + q)
  {
    if l != [] {
      WithoutTwice(l[1..], r, q);
    }
  }

  lemma DropTwice(s: State, r: set<string>, q: set<string>)
    ensures Drop(Drop(s, r), q) == Drop(s, r + q)
  {
    var a, b := Drop(Drop(s, r), q), Drop(s, r + q);
    forall id | id in s.index ensures a.index[id] == b.index[id] { WithoutTwice(s.index[id], r, q); }
    assert a.index == b.index;
    assert a.apps == b.apps;
  }

  // ---- removal of an agent ----

  /** `fill_apps_to_remove`: the applications in any list whose id starts with the agent's name. */
  function Victims(s: State, agent: string): set<string> {
    set id, key | id in s.index && key in s.index[id] && HasPrefix(key, agent) :: key
  }

  /** `pold_remove_agent_apps`. */
  function RemoveAgent(s: State, agent: string): State { Drop(s, Victims(s, agent)) }

  /** The applications of an agent that have at least one accepted id. */
  function Listed(s: State): set<string> { set key | key in s.apps && s.apps[key].ids != [] }

  lemma VictimsAre(s: State, agent: string)
    requires IndexOk(s)
    ensures forall key :: key in Victims(s, agent) <==> key in Listed(s) && HasPrefix(key, agent)
  {
    forall key ensures key in Victims(s, agent) <==> key in Listed(s) && HasPrefix(key, agent) {
      if key in Victims(s, agent) {
        var id :| id in s.index && key in s.index[id];
        assert Held(s, id, key) == Wanted(s, id, key);
      } else if key in Listed(s) {
        var id := s.apps[key].ids[0];
        assert id in multiset(s.apps[key].ids);
        assert Held(s, id, key) == Wanted(s, id, key);
        assert Held(s, id, key) > 0;
        assert key in multiset(Lookup(s.index, id));
        assert id in s.index && key in s.index[id];
      }
    }
  }

  /** No other agent with a listed application has a name that continues this agent's name. */
  ghost predicate PrefixFree(s: State, agent: string) {
    forall key :: key in Listed(s) && AgentOf(key) != agent ==> !HasPrefix(AgentOf(key), agent)
  }

  /** The applications removed are exactly the agent's own listed ones if and only if the agent's name
      is no prefix of another such agent's name; its applications without an accepted id always stay. */
  lemma RemovesOwnIff(s: State, agent: string)
    requires IndexOk(s) && '/' !in agent
    ensures PrefixFree(s, agent) <==>
      forall key :: key in s.apps ==>
        (key !in RemoveAgent(s, agent).apps <==> AgentOf(key) == agent && s.apps[key].ids != [])
    ensures IndexOk(RemoveAgent(s, agent))
    ensures forall key :: key in s.apps && s.apps[key].ids == [] ==> key in RemoveAgent(s, agent).apps
  {
    VictimsAre(s, agent);
    DropKeepsIndex(s, Victims(s, agent));
    forall key ensures HasPrefix(key, agent) <==> HasPrefix(AgentOf(key), agent) { PrefixOfAgent(key, agent); }
  }

  const INITIAL_POLICY := Policy("", "{}")
  const INITIAL := State(map[], INITIAL_POLICY, map[], map[], {}, [], map[])

  /** The agent ":1.1" takes an application of the agent ":1.10" with it. */
  lemma PrefixFlaw()
    ensures var s := Watch(Watch(INITIAL, ":1.1", ":1.5", ["user:a"]), ":1.10", ":1.6", ["user:b"]);
      Key(":1.10", ":1.6") in s.apps && RemoveAgent(s, ":1.1").apps == map[]
  {
    var a := Watch(INITIAL, ":1.1", ":1.5", ["user:a"]);
    var s := Watch(a, ":1.10", ":1.6", ["user:b"]);
    assert KindAt("user:a", 0, "user") && KindAt("user:b", 0, "user");
    assert Accepted(["user:a"]) == ["user:a"] && Accepted(["user:b"]) == ["user:b"];
    var k, m := Key(":1.1", ":1.5"), Key(":1.10", ":1.6");
    assert k[4] == '/' && m[4] == '0';
    assert s.apps.Keys == {k, m};
    WatchKeepsIndex(INITIAL, ":1.1", ":1.5", ["user:a"]);
    WatchKeepsIndex(a, ":1.10", ":1.6", ["user:b"]);
    VictimsAre(s, ":1.1");
    assert Victims(s, ":1.1") == {k, m};
  }

  // ---- marking and sending ----

  /** `mark_update_apps`: the applications whose agents hold another policy than the active one. */
  function Marked(s: State): set<string> { set key | key in s.apps && s.apps[key].json != ActiveOf(s, key).json }

  function SendOne(s: State, key: string): State
    requires key in s.apps
  {
    var json := ActiveOf(s, key).json;
    s.(apps := s.apps[key := s.apps[key].(json := json)],
      sent := s.sent + [Send(AgentOf(key), OwnerOf(key), json)],
      told := s.told[key := json])
  }

  ghost predicate AllIn(l: seq<string>, m: set<string>) { forall x :: x in l ==> x in m }

  /** `update_agent_policies` over the applications `l`, when the first `ok` sends succeed. */
  function SendAll(s: State, l: seq<string>, ok: nat): State
    requires AllIn(l, s.apps.Keys)
    decreases l
  {
    if l == [] || ok == 0 then s else SendAll(SendOne(s, l[0]), l[1..], ok - 1)
  }

  /** One mark-and-send round; `l` is the order in which the hash table is walked. */
  function Round(s: State, l: seq<string>, ok: nat): State
    requires AllIn(l, s.apps.Keys)
  {
    SendAll(s.(marked := Marked(s)), l, ok)
  }

  function Min(a: nat, b: nat): nat { if a < b then a else b }

  /** An order in which a round may walk the marked applications. */
  ghost predicate Walks(s: State, l: seq<string>) { NoDup(l) && forall x :: x in l <==> x in Marked(s) }

  function Message(s: State, key: string): Send
    requires key in s.apps
  {
    Send(AgentOf(key), OwnerOf(key), ActiveOf(s, key).json)
  }

  /** The application is one of the first `n` of the list. */
  predicate Within(l: seq<string>, n: nat, key: string)
    decreases l
  {
    l != [] && n > 0 && (l[0] == key || Within(l[1..], n - 1, key))
  }

  lemma {:induction false} WithinIs(l: seq<string>, n: nat, key: string)
    ensures Within(l, n, key) <==> key in l[..Min(n, |l|)]
    decreases l
  {
    if l != [] && n > 0 {
      WithinIs(l[1..], n - 1, key);
      assert l[..Min(n, |l|)] == [l[0]] + l[1..][..Min(n - 1, |l| - 1)];
    }
  }

  /** The record of an application and what its agent was told, once its active policy was sent or not. */
  ghost predicate Reached(s: State, t: State, key: string, sent: bool) {
    && (key in t.apps <==> key in s.apps)
    && (key in s.apps ==> t.apps[key] == if sent then App(s.apps[key].ids, ActiveOf(s, key).json) else s.apps[key])
    && (sent && key in s.apps ==> key in t.told && t.told[key] == ActiveOf(s, key).json)
    && (!sent ==> (key in t.told <==> key in s.told) && (key in t.told ==> t.told[key] == s.told[key]))
  }

  lemma {:induction false} SendReaches(s: State, l: seq<string>, ok: nat, key: string)
    requires AllIn(l, s.apps.Keys)
    ensures Reached(s, SendAll(s, l, ok), key, Within(l, ok, key))
    decreases l
  {
    if l != [] && ok > 0 {
      SendReaches(SendOne(s, l[0]), l[1..], ok - 1, key);
      assert key in s.apps ==> ActiveOf(SendOne(s, l[0]), key) == ActiveOf(s, key);
    }
  }

  lemma {:induction false} SendFrame(s: State, l: seq<string>, ok: nat)
    requires AllIn(l, s.apps.Keys)
    ensures var t := SendAll(s, l, ok); t == s.(apps := t.apps, sent := t.sent, told := t.told)
    decreases l
  {
    if l != [] && ok > 0 {
      SendFrame(SendOne(s, l[0]), l[1..], ok - 1);
    }
  }

  lemma {:induction false} SendLog(s: State, l: seq<string>, ok: nat)
    requires AllIn(l, s.apps.Keys)
    ensures var t := SendAll(s, l, ok);
      && |t.sent| == |s.sent| + Min(ok, |l|) && s.sent <= t.sent
      && forall k :: 0 <= k < Min(ok, |l|) ==> t.sent[|s.sent| + k] == Message(s, l[k])
    decreases l
  {
    if l != [] && ok > 0 {
      var t, u := SendOne(s, l[0]), SendAll(s, l, ok);
      SendLog(t, l[1..], ok - 1);
      forall k | 0 <= k < Min(ok, |l|) ensures u.sent[|s.sent| + k] == Message(s, l[k]) {
        if k == 0 {
          assert t.sent[|s.sent|] == Message(s, l[0]);
        } else {
          assert u.sent[|t.sent| + (k - 1)] == Message(t, l[1..][k - 1]);
        }
      }
    }
  }

  /** A round sends, in the order walked, to applications that differed and to no others; those it did
      not reach are exactly the ones that the next round marks again. */
  lemma RoundProgress(s: State, l: seq<string>, ok: nat)
    requires Walks(s, l)
    ensures var t, n := Round(s, l, ok), Min(ok, |l|);
      && t.marked == Marked(s)
      && t.policies == s.policies && t.fallback == s.fallback && t.index == s.index
      && |t.sent| == |s.sent| + n && s.sent <= t.sent
      && (forall k :: 0 <= k < n ==> t.sent[|s.sent| + k] == Message(s, l[k]) && l[k] in Marked(s))
      && (forall key :: Reached(s, t, key, key in l[..n]))
      && (forall key :: key in Marked(t) <==> key in Marked(s) && key !in l[..n])
  {
    var u, n := s.(marked := Marked(s)), Min(ok, |l|);
    SendFrame(u, l, ok);
    SendLog(u, l, ok);
    var t := Round(s, l, ok);
    forall key
      ensures Reached(s, t, key, key in l[..n])
      ensures key in Marked(t) <==> key in Marked(s) && key !in l[..n]
    {
      SendReaches(u, l, ok, key);
      WithinIs(l, ok, key);
      assert key in s.apps ==> ActiveOf(t, key) == ActiveOf(s, key) == ActiveOf(u, key);
      assert key in l[..n] ==> key in l;
    }
    forall k | 0 <= k < n ensures t.sent[|s.sent| + k] == Message(s, l[k]) && l[k] in Marked(s) {
      assert l[k] in l;
      assert Message(u, l[k]) == Message(s, l[k]);
    }
  }

  /** A round that completes leaves every application with its active policy. */
  lemma RoundCompletes(s: State, l: seq<string>, ok: nat)
    requires Walks(s, l) && ok >= |l|
    ensures var t := Round(s, l, ok);
      && Marked(t) == {}
      && t.apps.Keys == s.apps.Keys
      && forall key :: key in s.apps ==> t.apps[key].json == ActiveOf(t, key).json == ActiveOf(s, key).json
  {
    RoundProgress(s, l, ok);
    assert l[..|l|] == l;
    var t := Round(s, l, ok);
    forall key ensures key in t.apps <==> key in s.apps { assert Reached(s, t, key, key in l[..|l|]); }
    forall key | key in s.apps ensures t.apps[key].json == ActiveOf(t, key).json == ActiveOf(s, key).json {
      assert Reached(s, t, key, key in l[..|l|]);
      assert key !in Marked(t);
    }
  }
}
