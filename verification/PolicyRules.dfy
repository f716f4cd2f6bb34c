/** What the policy daemon promises, on the strings themselves: which policy is active, which ids are
    accepted, who is told what. */
module PolicyRules {
  import opened Lists
  import opened PolicyModel
  import opened PolicyRuns

  predicate Starts(s: string, prefix: string) { |prefix| <= |s| && s[..|prefix|] == prefix }

  // ---- the active policy ----

  /** The `k`-th id is the first one with this prefix that names a loaded policy. */
  ghost predicate FirstNamed(ids: seq<string>, policies: map<string, Policy>, prefix: string, k: int) {
    && 0 <= k < |ids| && ids[k] in policies && Starts(ids[k], prefix)
    && forall j :: 0 <= j < k && Starts(ids[j], prefix) ==> ids[j] !in policies
  }

  ghost predicate NoneNamed(ids: seq<string>, policies: map<string, Policy>, prefix: string) {
    forall j :: 0 <= j < |ids| && Starts(ids[j], prefix) ==> ids[j] !in policies
  }

  /** The policy of the first loaded id that starts with "selinux:"; without one, with "user:"; without
      one, with "group:"; else the default. */
  ghost predicate Chosen(ids: seq<string>, policies: map<string, Policy>, fallback: Policy, p: Policy) {
    && (forall k :: FirstNamed(ids, policies, "selinux:", k) ==> p == policies[ids[k]])
    && (NoneNamed(ids, policies, "selinux:") ==>
        (forall k :: FirstNamed(ids, policies, "user:", k) ==> p == policies[ids[k]]))
    && (NoneNamed(ids, policies, "selinux:") && NoneNamed(ids, policies, "user:") ==>
        (forall k :: FirstNamed(ids, policies, "group:", k) ==> p == policies[ids[k]]))
    && (NoneNamed(ids, policies, "selinux:") && NoneNamed(ids, policies, "user:") && NoneNamed(ids, policies, "group:") ==>
        p == fallback)
  }

  lemma {:induction false} FirstOrNone(ids: seq<string>, policies: map<string, Policy>, prefix: string, n: nat)
    requires n <= |ids|
    ensures (exists k :: FirstNamed(ids, policies, prefix, k)) || forall j :: 0 <= j < n && Starts(ids[j], prefix) ==> ids[j] !in policies
  {
    if n > 0 {
      FirstOrNone(ids, policies, prefix, n - 1);
      if !exists k :: FirstNamed(ids, policies, prefix, k) {
        assert !FirstNamed(ids, policies, prefix, n - 1);
      }
    }
  }

  /** There is one such policy only. */
  lemma ChosenOnce(ids: seq<string>, policies: map<string, Policy>, fallback: Policy, p: Policy, q: Policy)
    requires Chosen(ids, policies, fallback, p) && Chosen(ids, policies, fallback, q)
    ensures p == q
  {
    FirstOrNone(ids, policies, "selinux:", |ids|);
    FirstOrNone(ids, policies, "user:", |ids|);
    FirstOrNone(ids, policies, "group:", |ids|);
  }

  lemma Kinds(id: string)
    ensures Priority(id) == 2 <==> Starts(id, "selinux:")
    ensures Priority(id) == 1 <==> Starts(id, "user:")
    ensures Priority(id) == 0 <==> Starts(id, "group:")
    ensures -1 <= Priority(id) <= 2
  {
    if id != "" {
      assert Starts(id, "selinux:") ==> id[0] == 's';
      assert Starts(id, "user:") ==> id[0] == 'u';
      assert Starts(id, "group:") ==> id[0] == 'g';
    }
  }

  lemma NamedFirst(ids: seq<string>, policies: map<string, Policy>, prefix: string, top: int, k: int)
    requires FirstNamed(ids, policies, prefix, k) && top >= 0
    requires forall id :: Starts(id, prefix) <==> Priority(id) == top
    requires forall j :: 0 <= j < |ids| && ids[j] in policies ==> Priority(ids[j]) <= top
    ensures First(ids, policies, -1, k)
  {
    assert Priority(ids[k]) == top;
    forall j | 0 <= j < |ids| && ids[j] in policies
      ensures Priority(ids[j]) <= Priority(ids[k]) && (j < k ==> Priority(ids[j]) < Priority(ids[k]))
    {
      assert Starts(ids[j], prefix) <==> Priority(ids[j]) == top;
    }
  }

  /** The running maximum finds this policy. */
  lemma ActiveIsChosen(ids: seq<string>, policies: map<string, Policy>, fallback: Policy)
    ensures Chosen(ids, policies, fallback, Active(ids, policies, fallback))
  {
    ActivePolicy(ids, policies, fallback);
    forall id ensures (Priority(id) == 2 <==> Starts(id, "selinux:")) && (Priority(id) == 1 <==> Starts(id, "user:"))
      && (Priority(id) == 0 <==> Starts(id, "group:")) && -1 <= Priority(id) <= 2 { Kinds(id); }
    forall k | FirstNamed(ids, policies, "selinux:", k) ensures First(ids, policies, -1, k) {
      NamedFirst(ids, policies, "selinux:", 2, k);
    }
    if NoneNamed(ids, policies, "selinux:") {
      forall k | FirstNamed(ids, policies, "user:", k) ensures First(ids, policies, -1, k) {
        NamedFirst(ids, policies, "user:", 1, k);
      }
      if NoneNamed(ids, policies, "user:") {
        forall k | FirstNamed(ids, policies, "group:", k) ensures First(ids, policies, -1, k) {
          NamedFirst(ids, policies, "group:", 0, k);
        }
      }
    }
  }

  // ---- accepted ids ----

  /** `kind`, a colon and a letter stand somewhere in the id. */
  ghost predicate Holds(id: string, before: string, kind: string, c: char, behind: string) {
    && id == before + kind + ":" + [c] + behind
    && (kind == "selinux" || kind == "user" || kind == "group") && ('a' <= c <= 'z' || 'A' <= c <= 'Z')
  }

  ghost predicate Names(id: string) { exists before, kind, c, behind :: Holds(id, before, kind, c, behind) }

  lemma KindSplits(id: string, i: nat, kind: string)
    requires i < |id| && KindAt(id, i, kind) && (kind == "selinux" || kind == "user" || kind == "group")
    ensures Names(id)
  {
    var n := i + |kind|;
    assert id == id[..i] + kind + ":" + [id[n + 1]] + id[n + 2..];
    assert Holds(id, id[..i], kind, id[n + 1], id[n + 2..]);
  }

  /** The pattern accepts exactly the ids that hold one of the three kinds, a colon and a letter. */
  lemma ValidIff(id: string)
    ensures ValidId(id) <==> Names(id)
  {
    if ValidId(id) {
      var i :| 0 <= i < |id| && (KindAt(id, i, "selinux") || KindAt(id, i, "user") || KindAt(id, i, "group"));
      if KindAt(id, i, "selinux") { KindSplits(id, i, "selinux"); }
      else if KindAt(id, i, "user") { KindSplits(id, i, "user"); }
      else { KindSplits(id, i, "group"); }
    }
    if Names(id) {
      var before, kind, c, behind :| Holds(id, before, kind, c, behind);
      assert KindAt(id, |before|, kind);
    }
  }

  /** The accepted ids keep their order and their number. */
  lemma {:induction false} AcceptedIs(a: seq<string>, b: seq<string>)
    ensures Accepted(a + b) == Accepted(a) + Accepted(b)
    ensures forall id :: Accepted([id]) == if Names(id) then [id] else []
  {
    forall id ensures Accepted([id]) == if Names(id) then [id] else [] {
      ValidIff(id);
      assert Accepted([id][1..]) == [];
    }
    if a == [] {
      assert a + b == b;
    } else {
      assert (a + b)[1..] == a[1..] + b;
      AcceptedIs(a[1..], b);
    }
  }

  // ---- what is remembered and sent ----

  /** A new application is filed under its agent's and its own name, with the accepted ids and the policy
      that is active for them; a watched one is left alone. */
  lemma WatchFiles(s: State, agent: string, owner: string, ids: seq<string>)
    ensures var t, key := Watch(s, agent, owner, ids), agent + "/" + owner;
      && key in t.apps
      && (key in s.apps ==> t == s)
      && (key !in s.apps ==>
          && t.apps[key].ids == Accepted(ids)
          && exists p :: Chosen(t.apps[key].ids, s.policies, s.fallback, p) && t.apps[key].json == p.json)
  {
    ActiveIsChosen(Accepted(ids), s.policies, s.fallback);
  }

  /** A request is answered with the policy that is active for the ids the application is filed with. */
  lemma RequestAnswered(s: State, agent: string, owner: string, ids: seq<string>, p: Policy)
    requires var t := Watch(s, agent, owner, ids);
      agent + "/" + owner in t.apps && Chosen(t.apps[agent + "/" + owner].ids, s.policies, s.fallback, p)
    ensures var t, key := Next(s, Request(agent, owner, ids)), agent + "/" + owner; key in t.told && t.told[key] == p.json
  {
    var t, key := Watch(s, agent, owner, ids), agent + "/" + owner;
    ActiveIsChosen(t.apps[key].ids, s.policies, s.fallback);
    ChosenOnce(t.apps[key].ids, s.policies, s.fallback, p, ActiveOf(t, key));
  }

  /** An application is due for an update exactly if what its agent is believed to hold is not the policy
      that is active for its ids. */
  lemma DueIff(s: State, key: string, p: Policy)
    requires key in s.apps && Chosen(s.apps[key].ids, s.policies, s.fallback, p)
    ensures key in Marked(s) <==> s.apps[key].json != p.json
  {
    ActiveIsChosen(s.apps[key].ids, s.policies, s.fallback);
    ChosenOnce(s.apps[key].ids, s.policies, s.fallback, p, ActiveOf(s, key));
  }

  /** A completed round sends the active policy of each application that was due to the agent the
      application was filed for. */
  lemma RoundTells(s: State, l: seq<string>, ok: nat, agent: string, owner: string, p: Policy)
    requires Walks(s, l) && ok >= |l| && '/' !in agent && agent + "/" + owner in Marked(s)
    requires Chosen(s.apps[agent + "/" + owner].ids, s.policies, s.fallback, p)
    ensures var t := PolicyModel.Round(s, l, ok); exists k :: |s.sent| <= k < |t.sent| && t.sent[k] == Send(agent, owner, p.json)
  {
    var key, t := agent + "/" + owner, PolicyModel.Round(s, l, ok);
    RoundProgress(s, l, ok);
    ActiveIsChosen(s.apps[key].ids, s.policies, s.fallback);
    ChosenOnce(s.apps[key].ids, s.policies, s.fallback, p, ActiveOf(s, key));
    SplitKey(agent, owner);
    assert key == Key(agent, owner);
    var k :| 0 <= k < |l| && l[k] == key;
    assert t.sent[|s.sent| + k] == Message(s, l[k]);
    assert t.sent[|s.sent| + k] == Send(agent, owner, p.json);
  }

  /** In every patient history from the start on, a completed round leaves each agent with the policy of
      the first loaded id of the highest kind. */
  lemma AgentsHoldChosen(policies: map<string, Policy>, fallback: Policy, l: seq<Action>, order: seq<string>, ok: nat, key: string, p: Policy)
    requires Runs(Initial(policies, fallback), l) && Patient(Initial(policies, fallback), l)
    requires Walks(After(Initial(policies, fallback), l), order) && ok >= |order|
    requires var t := PolicyModel.Round(After(Initial(policies, fallback), l), order, ok);
      key in t.apps && Chosen(t.apps[key].ids, t.policies, t.fallback, p)
    ensures var t := PolicyModel.Round(After(Initial(policies, fallback), l), order, ok); key in t.told && t.told[key] == p.json
  {
    var t := PolicyModel.Round(After(Initial(policies, fallback), l), order, ok);
    ReachableUpdates(policies, fallback, l, order, ok);
    ActiveIsChosen(t.apps[key].ids, t.policies, t.fallback);
    ChosenOnce(t.apps[key].ids, t.policies, t.fallback, p, ActiveOf(t, key));
  }

  /** When an agent goes, the watched applications that stay are those with no accepted id and those whose
      id does not begin with the agent's name. */
  lemma AgentGoneLeaves(s: State, agent: string)
    requires IndexOk(s)
    ensures forall key :: key in RemoveAgent(s, agent).apps <==>
      key in s.apps && (s.apps[key].ids == [] || !Starts(key, agent))
  {
    VictimsAre(s, agent);
  }
}
