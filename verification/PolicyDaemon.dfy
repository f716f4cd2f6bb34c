/** The policy tables of the daemon in memory: hash tables whose values are singly linked lists behind a
    sentinel node, updated in place. */
module PolicyDaemon {
  import opened Lists
  import opened PolicyModel
  import PolicyRules

  /** `struct pold_agent_app`. */
  class AgentApp {
    const id: string
    var policyIds: seq<string>
    var agentPolicyJson: string

    constructor (id: string)
      ensures this.id == id && policyIds == [] && agentPolicyJson == ""
    {
      this.id := id;
      policyIds, agentPolicyJson := [], "";
    }

    function View(): App
      reads this
    {
      App(policyIds, agentPolicyJson)
    }
  }

  /** A `GSList` node; `home` is the policy id whose list it was made for. */
  class Node {
    const app: AgentApp?
    var next: Node?
    ghost const home: string

    constructor (app: AgentApp?, ghost home: string)
      ensures this.app == app && next == null && this.home == home
    {
      this.app := app;
      this.home := home;
      next := null;
    }
  }

  ghost predicate Linked(s: seq<Node>)
    reads s`next
  {
    && NoDup(s)
    && (forall i :: 0 <= i < |s| - 1 ==> s[i].next == s[i + 1])
    && (s != [] ==> s[|s| - 1].next == null)
  }

  ghost function Head(s: seq<Node>): Node? { if s == [] then null else s[0] }

  lemma Overwrite<T>(m: map<string, T>, k: string, a: T, b: T)
    ensures m[k := a][k := b] == m[k := b]
  {
  }

  /** `g_slist_append`. */
  method Append(head: Node?, app: AgentApp?, ghost s: seq<Node>, ghost home: string) returns (h: Node, n: Node)
    requires Linked(s) && head == Head(s)
    modifies s`next
    ensures fresh(n) && n.app == app && n.home == home
    ensures Linked(s + [n]) && h == Head(s + [n])
  {
    n := new Node(app, home);
    if head == null {
      return n, n;
    }
    var last := head;
    ghost var i := 0;
    while last.next != null
      invariant 0 <= i < |s| && last == s[i] && Linked(s)
      invariant last.next == if i + 1 < |s| then s[i + 1] else null
      decreases |s| - i
    {
      last := last.next;
      i := i + 1;
    }
    last.next := n;
    h := head;
    assert forall j :: 0 <= j < |s| - 1 ==> (s + [n])[j] == s[j] && s[j].next == s[j + 1];
    assert forall j :: 0 <= j < |s| ==> (s + [n])[j].next == (s + [n])[j + 1];
  }

  /** `g_slist_remove`; `k` is where the application is first found. */
  method Remove(head: Node?, app: AgentApp, ghost s: seq<Node>) returns (h: Node?, ghost r: seq<Node>)
    requires Linked(s) && head == Head(s)
    modifies s`next
    ensures Linked(r) && h == Head(r) && r == WithoutNode(s, app)
  {
    var prev: Node? := null;
    h := head;
    var tmp := head;
    ghost var i := 0;
    while tmp != null
      invariant 0 <= i <= |s| && Linked(s)
      invariant tmp == if i < |s| then s[i] else null
      invariant prev == if i == 0 then null else s[i - 1]
      invariant forall j :: 0 <= j < i ==> s[j].app != app
      invariant h == Head(s)
      decreases |s| - i
    {
      if tmp.app == app {
        r := s[..i] + s[i + 1..];
        if prev != null {
          prev.next := tmp.next;
        } else {
          h := tmp.next;
        }
        RemovedAt(s, app, i);
        LinkedAround(s, i);
        return;
      }
      prev := tmp;
      tmp := tmp.next;
      i := i + 1;
    }
    r := s;
    NotFound(s, app);
  }

  /** The list without the node that has been taken out of the chain. */
  lemma LinkedAround(s: seq<Node>, i: nat)
    requires NoDup(s) && i < |s|
    requires forall j :: 0 <= j < |s| - 1 && j != i - 1 ==> s[j].next == s[j + 1]
    requires i > 0 ==> s[i - 1].next == if i + 1 < |s| then s[i + 1] else null
    requires i + 1 < |s| ==> s[|s| - 1].next == null
    ensures Linked(s[..i] + s[i + 1..])
  {
    var r := s[..i] + s[i + 1..];
    forall j | 0 <= j < |r| - 1 ensures r[j].next == r[j + 1] {
      if j < i - 1 {
        assert r[j] == s[j] && r[j + 1] == s[j + 1];
      } else if j == i - 1 {
        assert r[j] == s[i - 1] && r[j + 1] == s[i + 1];
      } else {
        assert r[j] == s[j + 1] && r[j + 1] == s[j + 2];
      }
    }
    forall j, k | 0 <= j < k < |r| ensures r[j] != r[k] {
      assert r[j] == s[if j < i then j else j + 1] && r[k] == s[if k < i then k else k + 1];
    }
  }

  ghost function WithoutNode(s: seq<Node>, app: AgentApp): seq<Node> {
    if s == [] then [] else if s[0].app == app then s[1..] else [s[0]] + WithoutNode(s[1..], app)
  }

  lemma {:induction false} RemovedAt(s: seq<Node>, app: AgentApp, i: nat)
    requires i < |s| && s[i].app == app && forall j :: 0 <= j < i ==> s[j].app != app
    ensures WithoutNode(s, app) == s[..i] + s[i + 1..]
  {
    if i > 0 {
      RemovedAt(s[1..], app, i - 1);
      assert s[..i] == [s[0]] + s[1..][..i - 1];
    }
  }

  lemma {:induction false} NotFound(s: seq<Node>, app: AgentApp)
    requires forall j :: 0 <= j < |s| ==> s[j].app != app
    ensures WithoutNode(s, app) == s
  {
    if s != [] {
      NotFound(s[1..], app);
    }
  }

  ghost predicate Filled(s: seq<Node>) { forall k :: 0 <= k < |s| ==> s[k].app != null }

  /** The first node is a sentinel, and the only one. */
  ghost predicate Guarded(s: seq<Node>) { s != [] && s[0].app == null && Filled(s[1..]) }

  lemma GuardedMore(s: seq<Node>, n: Node)
    requires Guarded(s) && n.app != null
    ensures Guarded(s + [n]) && (s + [n])[0] == s[0]
  {
    assert (s + [n])[1..] == s[1..] + [n];
  }

  ghost predicate Homed(s: seq<Node>, cells: set<Node>, id: string) {
    forall x :: x in s ==> x in cells && x.home == id
  }

  ghost function Ids(s: seq<Node>): (r: seq<string>)
    requires Filled(s)
  {
    seq(|s|, k requires 0 <= k < |s| => s[k].app.id)
  }

  /** The table of lists as ids; the sentinels are not part of it. */
  ghost function IndexOf(nodes: map<string, seq<Node>>): map<string, seq<string>> {
    map id | id in nodes :: Contents(nodes[id])
  }

  ghost function Contents(s: seq<Node>): seq<string> {
    if s != [] && Filled(s[1..]) then Ids(s[1..]) else []
  }

  lemma IndexShrinks(before: map<string, seq<Node>>, after: map<string, seq<Node>>, id: string, key: string)
    requires id in before && id in after && after == before[id := after[id]]
    requires Guarded(before[id]) && Guarded(after[id])
    requires Ids(after[id][1..]) == RemoveFirst(Ids(before[id][1..]), key)
    ensures IndexOf(after) == IndexOf(before)[id := RemoveFirst(IndexOf(before)[id], key)]
  {
  }

  /** Behind the sentinel are only filed applications, and perhaps `app`. */
  ghost predicate Owned(s: seq<Node>, table: map<string, AgentApp>, app: AgentApp?) {
    forall k :: 1 <= k < |s| && s[k].app != app ==> s[k].app != null && Filed(s[k].app, table)
  }

  ghost predicate Filed(app: AgentApp, table: map<string, AgentApp>) { app.id in table && table[app.id] == app }

  ghost predicate TableOk(table: map<string, AgentApp>) { forall key :: key in table ==> table[key].id == key }

  ghost predicate AllOwned(nodes: map<string, seq<Node>>, table: map<string, AgentApp>, app: AgentApp?) {
    forall id :: id in nodes ==> Owned(nodes[id], table, app)
  }

  lemma OwnedMore(nodes: map<string, seq<Node>>, table: map<string, AgentApp>, app: AgentApp)
    requires forall id :: id in nodes ==> Guarded(nodes[id])
    requires TableOk(table) && AllOwned(nodes, table, app) && app.id !in table
    ensures TableOk(table[app.id := app]) && AllOwned(nodes, table[app.id := app], null)
  {
    forall id, k | id in nodes && 1 <= k < |nodes[id]|
      ensures nodes[id][k].app != null && Filed(nodes[id][k].app, table[app.id := app])
    {
      assert nodes[id][k] == nodes[id][1..][k - 1];
    }
  }

  lemma IndexGrows(before: map<string, seq<Node>>, after: map<string, seq<Node>>, id: string, n: Node)
    requires n.app != null && id in after && after == before[id := after[id]]
    requires id in before ==> Guarded(before[id]) && after[id] == before[id] + [n]
    requires id !in before ==> |after[id]| == 2 && after[id][1] == n
    ensures IndexOf(after) == IndexOf(before)[id := Lookup(IndexOf(before), id) + [n.app.id]]
  {
    var s := after[id];
    assert Filled(s[1..]) && Ids(s[1..]) == Lookup(IndexOf(before), id) + [n.app.id];
  }

  /** Removing a node by its pointer removes the first occurrence of its id, when ids tell applications apart. */
  lemma {:induction false} RemoveById(s: seq<Node>, app: AgentApp)
    requires Filled(s) && forall k :: 0 <= k < |s| ==> (s[k].app == app <==> s[k].app.id == app.id)
    ensures Filled(WithoutNode(s, app)) && Ids(WithoutNode(s, app)) == RemoveFirst(Ids(s), app.id)
    ensures forall x :: x in WithoutNode(s, app) ==> x in s
  {
    if s != [] {
      RemoveById(s[1..], app);
      assert Ids(s)[1..] == Ids(s[1..]);
    }
  }

  lemma {:induction false} SetToSeq(r: set<string>) returns (l: seq<string>)
    ensures NoDup(l) && forall x :: x in l <==> x in r
    decreases r
  {
    l := [];
    if r != {} {
      var x :| x in r;
      l := SetToSeq(r - {x});
      l := [x] + l;
    }
  }

  lemma AllInConcat(a: seq<string>, b: seq<string>, m: set<string>)
    ensures AllIn(a + b, m) <==> AllIn(a, m) && AllIn(b, m)
  {
    assert forall x :: x in a || x in b ==> x in a + b;
  }

  lemma {:induction false} SendAllKeys(s: State, l: seq<string>, ok: nat)
    requires AllIn(l, s.apps.Keys)
    ensures SendAll(s, l, ok).apps.Keys == s.apps.Keys
    decreases l
  {
    if l != [] && ok > 0 {
      SendAllKeys(SendOne(s, l[0]), l[1..], ok - 1);
    }
  }

  lemma {:induction false} SendAllMore(s: State, a: seq<string>, b: seq<string>, ok: nat)
    requires AllIn(a + b, s.apps.Keys) && ok >= |a|
    ensures AllIn(a, s.apps.Keys) && AllIn(b, SendAll(s, a, |a|).apps.Keys)
    ensures SendAll(s, a + b, ok) == SendAll(SendAll(s, a, |a|), b, ok - |a|)
    decreases |a|, 0
  {
    AllInConcat(a, b, s.apps.Keys);
    SendAllKeys(s, a, |a|);
    if a == [] {
      assert a + b == b;
    } else {
      SendAllFirst(s, a[0], a[1..], a, b, ok);
    }
  }

  lemma {:induction false} SendAllFirst(s: State, x: string, l: seq<string>, a: seq<string>, b: seq<string>, ok: nat)
    requires a == [x] + l && AllIn(a, s.apps.Keys) && AllIn(b, s.apps.Keys) && ok >= |a|
    ensures AllIn(a + b, s.apps.Keys) && AllIn(b, SendAll(s, a, |a|).apps.Keys)
    ensures SendAll(s, a + b, ok) == SendAll(SendAll(s, a, |a|), b, ok - |a|)
    decreases |l|, 1
  {
    assert a + b == [x] + (l + b);
    AllInConcat(a, b, s.apps.Keys);
    AllInConcat([x], l, s.apps.Keys);
    AllInConcat(l, b, s.apps.Keys);
    assert x in [x];
    SendAllKeys(s, a, |a|);
    SendAllCons(s, x, l + b, ok);
    SendAllCons(s, x, l, |a|);
    SendAllMore(SendOne(s, x), l, b, ok - 1);
  }

  lemma SendAllCons(s: State, x: string, l: seq<string>, ok: nat)
    requires x in s.apps && AllIn(l, s.apps.Keys) && ok > 0
    ensures AllIn([x] + l, s.apps.Keys) && SendAll(s, [x] + l, ok) == SendAll(SendOne(s, x), l, ok - 1)
  {
    assert ([x] + l)[1..] == l;
  }

  lemma {:induction false} WithoutNodeIn(s: seq<Node>, app: AgentApp)
    ensures forall x :: x in WithoutNode(s, app) ==> x in s
  {
    if s != [] {
      WithoutNodeIn(s[1..], app);
    }
  }

  lemma KeepsSentinel(s: seq<Node>, app: AgentApp)
    requires Guarded(s)
    ensures var r := WithoutNode(s, app);
      Guarded(r) && r[0] == s[0] && forall x :: x in r ==> x in s
  {
    WithoutNodeIn(s, app);
    WithoutNodeIn(s[1..], app);
    var r := WithoutNode(s, app);
    assert r[1..] == WithoutNode(s[1..], app);
    forall k | 0 <= k < |r[1..]| ensures r[1..][k].app != null {
      assert r[1..][k] in r[1..];
      assert r[1..][k] in s[1..];
    }
  }

  lemma OwnedWith(
      before: map<string, seq<Node>>, after: map<string, seq<Node>>, id: string, n: Node, table: map<string, AgentApp>, app: AgentApp)
    requires AllOwned(before, table, app) && id in after && after == before[id := after[id]] && n.app == app
    requires id in before ==> after[id] == before[id] + [n]
    requires id !in before ==> |after[id]| == 2 && after[id][1] == n
    ensures AllOwned(after, table, app)
  {
    forall other | other in after ensures Owned(after[other], table, app) {
      if other in before { assert Owned(before[other], table, app); }
    }
  }

  lemma OwnedAfter(before: map<string, seq<Node>>, after: map<string, seq<Node>>, id: string, table: map<string, AgentApp>)
    requires AllOwned(before, table, null) && id in after && after == before[id := after[id]] && Owned(after[id], table, null)
    ensures AllOwned(after, table, null)
  {
    forall other | other in after ensures Owned(after[other], table, null) {
      if other != id { assert Owned(before[other], table, null); }
    }
  }

  /** Removing behind a sentinel removes one id, and leaves only filed applications. */
  lemma RemoveBehind(s: seq<Node>, app: AgentApp, table: map<string, AgentApp>)
    requires Guarded(s) && Owned(s, table, null) && Filed(app, table)
    ensures var r := WithoutNode(s, app);
      Guarded(r) && Owned(r, table, null) && Ids(r[1..]) == RemoveFirst(Ids(s[1..]), app.id)
  {
    var t, r := s[1..], WithoutNode(s, app);
    assert forall k :: 0 <= k < |t| ==> t[k] == s[k + 1];
    RemoveById(t, app);
    KeepsSentinel(s, app);
    assert r[1..] == WithoutNode(t, app);
    assert forall x :: x in t ==> Filed(x.app, table);
    forall k | 1 <= k < |r| ensures r[k].app != null && Filed(r[k].app, table) {
      assert r[k] == r[1..][k - 1];
      assert r[1..][k - 1] in r[1..];
    }
  }

  /** When the index is exact, the lists no longer hold an application that left the table. */
  lemma NobodyLeft(nodes: map<string, seq<Node>>, table: map<string, AgentApp>, app: AgentApp, s: State)
    requires forall id :: id in nodes ==> Guarded(nodes[id])
    requires TableOk(table) && AllOwned(nodes, table, null) && Filed(app, table)
    requires IndexOk(s) && s.index == IndexOf(nodes) && app.id !in s.apps
    ensures AllOwned(nodes, table - {app.id}, null)
  {
    forall id, k | id in nodes && 1 <= k < |nodes[id]|
      ensures nodes[id][k].app != null && Filed(nodes[id][k].app, table - {app.id})
    {
      var l := Ids(nodes[id][1..]);
      assert l[k - 1] == nodes[id][k].app.id;
      assert s.index[id] == l;
      assert l[k - 1] in multiset(l);
      assert Held(s, id, l[k - 1]) == Wanted(s, id, l[k - 1]);
    }
  }

  lemma DropNone(s: State)
    ensures Drop(s, {}) == s
  {
    forall id | id in s.index ensures Drop(s, {}).index[id] == s.index[id] { WithoutAbsent(s.index[id], {}); }
    assert Drop(s, {}).index == s.index;
  }

  /** Found are the applications with this owner in the lists that are not left to do. */
  ghost predicate Collected(
    found: set<AgentApp>, table: map<string, AgentApp>, index: map<string, seq<string>>, todo: set<string>, owner: string)
  {
    && (forall a :: a in found ==>
        Filed(a, table) && HasPrefix(a.id, owner) && exists id :: id in index && id !in todo && a.id in index[id])
    && (forall id, key :: id in index && id !in todo && key in index[id] && HasPrefix(key, owner) ==>
        key in table && table[key] in found)
  }

  lemma CollectMore(
      found: set<AgentApp>, more: set<AgentApp>, table: map<string, AgentApp>, index: map<string, seq<string>>,
      todo: set<string>, id: string, owner: string)
    requires Collected(found, table, index, todo, owner) && id in todo && id in index
    requires forall a :: a in more ==> Filed(a, table) && HasPrefix(a.id, owner) && a.id in index[id]
    requires forall key :: key in index[id] && HasPrefix(key, owner) ==> key in table && table[key] in more
    ensures Collected(found + more, table, index, todo - {id}, owner)
  {
  }

  lemma CollectedAll(found: set<AgentApp>, table: map<string, AgentApp>, s: State, owner: string)
    requires Collected(found, table, s.index, {}, owner)
    ensures FiledUnder(found, table, Victims(s, owner))
  {
    var v := Victims(s, owner);
    forall a | a in found ensures Filed(a, table) && a.id in v {
      var id :| id in s.index && a.id in s.index[id];
    }
    forall key | key in v ensures key in table && table[key] in found {
      var id :| id in s.index && key in s.index[id] && HasPrefix(key, owner);
    }
  }

  /** The applications are those filed under the ids `v`. */
  ghost predicate FiledUnder(todo: set<AgentApp>, table: map<string, AgentApp>, v: set<string>) {
    && (forall a :: a in todo ==> Filed(a, table) && a.id in v)
    && (forall key :: key in v ==> key in table && table[key] in todo)
  }

  lemma UpdateNext(todo: set<AgentApp>, table: map<string, AgentApp>, v: set<string>, done: seq<string>, app: AgentApp)
    requires FiledUnder(todo, table, v - ToSet(done)) && app in todo && TableOk(table) && NoDup(done) && AllIn(done, v)
    ensures Filed(app, table) && NoDup(done + [app.id]) && AllIn(done + [app.id], v)
    ensures FiledUnder(todo - {app}, table, v - ToSet(done + [app.id]))
  {
    assert app.id !in done;
    assert v - ToSet(done + [app.id]) == v - ToSet(done) - {app.id};
  }

  lemma MarkedIds(todo: set<AgentApp>, table: map<string, AgentApp>, v: set<string>)
    requires FiledUnder(todo, table, v) && TableOk(table)
    ensures (set a | a in todo :: a.id) == v
  {
    forall key | key in v ensures key in set a | a in todo :: a.id {
      assert table[key] in todo && table[key].id == key;
    }
  }

  lemma FiledNone(table: map<string, AgentApp>, v: set<string>, gone: set<string>)
    requires FiledUnder({}, table, v - gone) && gone <= v
    ensures gone == v
  {
    forall key | key in v ensures key in gone {
      assert key !in gone ==> key in v - gone;
    }
  }

  lemma FiledMore(found: set<AgentApp>, table: map<string, AgentApp>, m: set<string>, todo: set<string>, key: string)
    requires FiledUnder(found, table, m - todo) && TableOk(table) && key in todo && key in table
    ensures FiledUnder(if key in m then found + {table[key]} else found, table, m - (todo - {key}))
  {
    assert m - (todo - {key}) == if key in m then m - todo + {key} else m - todo;
  }

  lemma RemoveNext(todo: set<AgentApp>, table: map<string, AgentApp>, v: set<string>, app: AgentApp)
    requires FiledUnder(todo, table, v) && app in todo && TableOk(table)
    ensures Filed(app, table) && app.id in v && FiledUnder(todo - {app}, table - {app.id}, v - {app.id})
  {
  }

  lemma AcceptedStep(before: seq<string>, ids: seq<string>, i: nat)
    requires i < |ids|
    ensures ValidId(ids[i]) ==> before + Accepted(ids[i..]) == before + [ids[i]] + Accepted(ids[i + 1..])
    ensures ValidId(ids[i]) ==> Accepted(ids[i..]) == [ids[i]] + Accepted(ids[i + 1..])
    ensures !ValidId(ids[i]) ==> Accepted(ids[i..]) == Accepted(ids[i + 1..])
  {
    assert ids[i..][1..] == ids[i + 1..];
  }

  lemma LinkStep(index: map<string, seq<string>>, before: seq<string>, ids: seq<string>, i: nat, key: string)
    requires i < |ids|
    ensures before + Accepted(ids[i..]) == (before + (if ValidId(ids[i]) then [ids[i]] else [])) + Accepted(ids[i + 1..])
    ensures Link(index, Accepted(ids[i..]), key) ==
      Link(if ValidId(ids[i]) then index[ids[i] := Lookup(index, ids[i]) + [key]] else index, Accepted(ids[i + 1..]), key)
  {
    AcceptedStep(before, ids, i);
    assert before + [] == before;
    if ValidId(ids[i]) { assert ([ids[i]] + Accepted(ids[i + 1..]))[1..] == Accepted(ids[i + 1..]); }
  }

  class Daemon {
    var idToPolicy: map<string, Policy>
    const defaultPolicy: Policy
    /** First nodes of the lists, which are sentinels. */
    var idToApps: map<string, Node>
    var appIdToApp: map<string, AgentApp>
    var updateApps: set<AgentApp>
    /** Messages handed to the connection. */
    var sent: seq<Send>
    ghost var told: map<string, string>
    /** The nodes of each list in order, and all nodes. */
    ghost var nodes: map<string, seq<Node>>
    ghost var cells: set<Node>

    constructor (defaultPolicy: Policy, policies: map<string, Policy>)
      ensures Valid() && State() == PolicyModel.State(policies, defaultPolicy, map[], map[], {}, [], map[])
    {
      this.defaultPolicy := defaultPolicy;
      idToPolicy, idToApps, appIdToApp, updateApps := policies, map[], map[], {};
      sent, told, nodes, cells := [], map[], map[], {};
    }

    /** Every stored pointer is still the sentinel of its list; the lists are well formed and share no node. */
    ghost predicate Shape()
      reads this`nodes, this`idToApps, this`cells, cells`next
    {
      nodes.Keys == idToApps.Keys && forall id :: id in nodes ==> ListOk(id)
    }

    ghost predicate ListOk(id: string)
      reads this`nodes, this`idToApps, this`cells, cells`next
    {
      && id in nodes && id in idToApps && Guarded(nodes[id]) && nodes[id][0] == idToApps[id]
      && Homed(nodes[id], cells, id) && Linked(nodes[id])
    }

    /** The lists hold only applications that are in the application table, and perhaps `app`. */
    ghost predicate LiveBut(app: AgentApp?)
      reads this`nodes, this`appIdToApp
    {
      TableOk(appIdToApp) && AllOwned(nodes, appIdToApp, app)
    }

    ghost function State(): State
      reads this, appIdToApp.Values
    {
      PolicyModel.State(idToPolicy, defaultPolicy, Apps(), IndexOf(nodes), set a | a in updateApps :: a.id, sent, told)
    }

    ghost function Apps(): map<string, App>
      reads this`appIdToApp, appIdToApp.Values
    {
      map key | key in appIdToApp :: appIdToApp[key].View()
    }

    ghost predicate Valid()
      reads this, cells, appIdToApp.Values
    {
      Shape() && LiveBut(null) && IndexOk(State())
    }

    /** `add_app`: appends a node to the list of `id`, behind a new sentinel if there was no list. */
    method AddApp(id: string, app: AgentApp) returns (ghost n: Node)
      requires Shape()
      modifies this`idToApps, this`nodes, this`cells, cells`next
      ensures Shape() && fresh(cells - old(cells))
      ensures n.app == app && id in nodes && nodes == old(nodes)[id := nodes[id]]
      ensures id in old(nodes) ==> nodes[id] == old(nodes)[id] + [n]
      ensures id !in old(nodes) ==> |nodes[id]| == 2 && nodes[id][1] == n
    {
      if id in idToApps {
        n := AppendTo(id, app);
      } else {
        NewList(id);
        ghost var one := nodes[id];
        n := AppendTo(id, app);
        Overwrite(old(nodes), id, one, nodes[id]);
      }
    }

    method NewList(id: string)
      requires Shape() && id !in idToApps
      modifies this`idToApps, this`nodes, this`cells
      ensures Shape() && old(cells) <= cells && fresh(cells - old(cells))
      ensures id in nodes && |nodes[id]| == 1 && nodes == old(nodes)[id := nodes[id]]
    {
      var apps, n := Append(null, null, [], id);
      assert [] + [n] == [n];
      idToApps := idToApps[id := apps];
      nodes := nodes[id := [n]];
      cells := cells + {n};
      assert ListOk(id);
      OthersKept(id);
    }

    /** Appending behind the sentinel: the returned head is dropped, since it cannot have changed. */
    method AppendTo(id: string, app: AgentApp) returns (ghost n: Node)
      requires Shape() && id in nodes
      modifies this`nodes, this`cells, cells`next
      ensures Shape() && cells == old(cells) + {n} && fresh(n)
      ensures n.app == app && nodes == old(nodes)[id := old(nodes)[id] + [n]]
    {
      ghost var s := nodes[id];
      assert ListOk(id);
      var _, m := Append(idToApps[id], app, s, id);
      n := m;
      nodes := nodes[id := s + [n]];
      cells := cells + {n};
      GuardedMore(s, n);
      assert Homed(s + [n], cells, id);
      assert ListOk(id);
      OthersKept(id);
    }

    /** Work on one list, whose nodes only it may hold, leaves the others as they were. */
    twostate lemma OthersKept(id: string)
      requires old(Shape()) && id in nodes && ListOk(id)
      requires nodes == old(nodes)[id := nodes[id]] && nodes.Keys == idToApps.Keys
      requires forall other :: other in old(idToApps) && other != id ==> other in idToApps && idToApps[other] == old(idToApps)[other]
      requires old(cells) <= cells
      requires forall x :: x in old(cells) && x.home != id ==> x.next == old(x.next)
      ensures Shape()
    {
      forall other | other in nodes && other != id ensures ListOk(other) {
        assert old(ListOk(other));
      }
    }

    /** `get_active_policy`. */
    method GetActivePolicy(app: AgentApp) returns (policy: Policy)
      ensures policy == Active(app.policyIds, idToPolicy, defaultPolicy)
      ensures PolicyRules.Chosen(app.policyIds, idToPolicy, defaultPolicy, policy)
    {
      var best: Option<Policy> := None;
      var maxPriority := -1;
      var ids := app.policyIds;
      while ids != []
        invariant Scan(ids, idToPolicy, best, maxPriority) == Scan(app.policyIds, idToPolicy, None, -1)
        decreases |ids|
      {
        var id := ids[0];
        var current := Priority(id);
        if current > maxPriority && id in idToPolicy {
          best := Some(idToPolicy[id]);
          maxPriority := current;
        }
        ids := ids[1..];
      }
      policy := if best.Some? then best.value else defaultPolicy;
      PolicyRules.ActiveIsChosen(app.policyIds, idToPolicy, defaultPolicy);
    }

    /** `pold_policy_watch_app`. */
    method WatchApp(agentOwner: string, appOwner: string, ids: seq<string>)
      requires Valid()
      modifies this`idToApps, this`nodes, this`cells, this`appIdToApp, cells`next
      ensures Valid() && fresh(cells - old(cells))
      ensures State() == Watch(old(State()), agentOwner, appOwner, ids)
      ensures forall key :: key in old(appIdToApp) ==> key in appIdToApp && appIdToApp[key] == old(appIdToApp)[key]
    {
      var appId := agentOwner + "/" + appOwner;
      if appId in appIdToApp {
        return;
      }
      WatchNew(appId, ids);
      WatchKeepsIndex(old(State()), agentOwner, appOwner, ids);
    }

    method WatchNew(appId: string, ids: seq<string>)
      requires Shape() && LiveBut(null) && appId !in appIdToApp
      modifies this`idToApps, this`nodes, this`cells, this`appIdToApp, cells`next
      ensures Shape() && LiveBut(null) && fresh(cells - old(cells))
      ensures appId in appIdToApp && appIdToApp == old(appIdToApp)[appId := appIdToApp[appId]]
      ensures var a := Accepted(ids);
        State() == old(State()).(index := Link(old(State()).index, a, appId),
          apps := old(State()).apps[appId := App(a, Active(a, idToPolicy, defaultPolicy).json)])
    {
      var app := new AgentApp(appId);
      WatchAs(app, ids);
    }

    method WatchAs(app: AgentApp, ids: seq<string>)
      requires Shape() && LiveBut(null) && app.id !in appIdToApp && app !in appIdToApp.Values && app.policyIds == []
      modifies this`idToApps, this`nodes, this`cells, this`appIdToApp, cells`next, app
      ensures Shape() && LiveBut(null) && fresh(cells - old(cells)) && appIdToApp == old(appIdToApp)[app.id := app]
      ensures var a := Accepted(ids);
        State() == old(State()).(index := Link(old(State()).index, a, app.id),
          apps := old(State()).apps[app.id := App(a, Active(a, idToPolicy, defaultPolicy).json)])
    {
      LinkFresh(app, ids);
      FileApp(app);
    }

    method LinkFresh(app: AgentApp, ids: seq<string>)
      requires Shape() && LiveBut(null) && app !in appIdToApp.Values && app.policyIds == []
      modifies this`idToApps, this`nodes, this`cells, cells`next, app`policyIds
      ensures Shape() && LiveBut(app) && fresh(cells - old(cells)) && app.policyIds == Accepted(ids)
      ensures State() == old(State()).(index := Link(old(State()).index, Accepted(ids), app.id))
    {
      LinkAll(app, ids);
      assert Apps() == old(Apps());
    }

    /** The end of the watch call: the application's policy is remembered and it enters the table. */
    method FileApp(app: AgentApp)
      requires Shape() && LiveBut(app) && app.id !in appIdToApp && app !in appIdToApp.Values
      modifies this`appIdToApp, app`agentPolicyJson
      ensures Shape() && LiveBut(null) && appIdToApp == old(appIdToApp)[app.id := app]
      ensures State() == old(State()).(apps :=
        old(Apps())[app.id := App(app.policyIds, Active(app.policyIds, idToPolicy, defaultPolicy).json)])
    {
      var policy := GetActivePolicy(app);
      Remember(app, policy.json);
      Enter(app);
    }

    method Remember(app: AgentApp, json: string)
      requires app !in appIdToApp.Values
      modifies app`agentPolicyJson
      ensures app.agentPolicyJson == json && State() == old(State())
    {
      app.agentPolicyJson := json;
      assert Apps() == old(Apps());
    }

    method Enter(app: AgentApp)
      requires Shape() && LiveBut(app) && app.id !in appIdToApp
      modifies this`appIdToApp
      ensures Shape() && LiveBut(null) && appIdToApp == old(appIdToApp)[app.id := app]
      ensures State() == old(State()).(apps := old(Apps())[app.id := app.View()])
    {
      assert forall id :: id in nodes ==> ListOk(id);
      OwnedMore(nodes, appIdToApp, app);
      appIdToApp := appIdToApp[app.id := app];
      assert Apps() == old(Apps())[app.id := app.View()];
    }

    /** The loop over the ids: accepted ones are remembered and indexed, also repeatedly. */
    method LinkAll(app: AgentApp, ids: seq<string>)
      requires Shape() && LiveBut(app) && app.policyIds == []
      modifies this`idToApps, this`nodes, this`cells, cells`next, app`policyIds
      ensures Shape() && LiveBut(app) && fresh(cells - old(cells))
      ensures app.policyIds == Accepted(ids)
      ensures IndexOf(nodes) == Link(old(IndexOf(nodes)), Accepted(ids), app.id)
    {
      var i := 0;
      assert ids[0..] == ids;
      while i < |ids|
        invariant 0 <= i <= |ids|
        invariant Shape() && LiveBut(app) && fresh(cells - old(cells))
        invariant app.policyIds + Accepted(ids[i..]) == Accepted(ids)
        invariant Link(IndexOf(nodes), Accepted(ids[i..]), app.id) == Link(old(IndexOf(nodes)), Accepted(ids), app.id)
      {
        LinkStep(IndexOf(nodes), app.policyIds, ids, i, app.id);
        LinkAccepted(ids[i], app);
        i := i + 1;
      }
    }

    method LinkAccepted(id: string, app: AgentApp)
      requires Shape() && LiveBut(app)
      modifies this`idToApps, this`nodes, this`cells, cells`next, app`policyIds
      ensures Shape() && LiveBut(app) && fresh(cells - old(cells))
      ensures app.policyIds == old(app.policyIds) + if ValidId(id) then [id] else []
      ensures IndexOf(nodes) ==
        if ValidId(id) then old(IndexOf(nodes))[id := Lookup(old(IndexOf(nodes)), id) + [app.id]] else old(IndexOf(nodes))
    {
      if ValidId(id) {
        LinkOne(id, app);
      }
    }

    method LinkOne(id: string, app: AgentApp)
      requires Shape() && LiveBut(app)
      modifies this`idToApps, this`nodes, this`cells, cells`next, app`policyIds
      ensures Shape() && LiveBut(app) && fresh(cells - old(cells))
      ensures app.policyIds == old(app.policyIds) + [id]
      ensures IndexOf(nodes) == old(IndexOf(nodes))[id := Lookup(old(IndexOf(nodes)), id) + [app.id]]
    {
      app.policyIds := app.policyIds + [id];
      ghost var before := nodes;
      assert id in before ==> ListOk(id);
      var n := AddApp(id, app);
      IndexGrows(before, nodes, id, n);
      OwnedWith(before, nodes, id, n, appIdToApp, app);
    }

    /** `stop_watching_app`: removal never changes a stored head, because the first node is the sentinel. */
    method StopWatchingApp(app: AgentApp)
      requires Valid() && Filed(app, appIdToApp)
      modifies this`nodes, this`appIdToApp, cells`next
      ensures Valid() && cells == old(cells) && idToApps == old(idToApps)
      ensures State() == Stop(old(State()), app.id) == Drop(old(State()), {app.id})
      ensures appIdToApp == old(appIdToApp) - {app.id}
    {
      StopDrops(State(), app.id);
      DropKeepsIndex(State(), {app.id});
      UnlinkAll(app);
      assert State() == old(State()).(index := Unlink(old(State()).index, app.policyIds, app.id));
      Unfile(app, Stop(old(State()), app.id));
    }

    method Unfile(app: AgentApp, ghost goal: State)
      requires Shape() && LiveBut(null) && Filed(app, appIdToApp)
      requires IndexOk(goal) && goal == State().(apps := State().apps - {app.id})
      modifies this`appIdToApp
      ensures Valid() && State() == goal && appIdToApp == old(appIdToApp) - {app.id}
    {
      assert forall id :: id in nodes ==> ListOk(id);
      NobodyLeft(nodes, appIdToApp, app, goal);
      appIdToApp := appIdToApp - {app.id};
      assert Apps() == old(Apps()) - {app.id};
    }

    /** The loop over the application's ids. */
    method UnlinkAll(app: AgentApp)
      requires Shape() && LiveBut(null) && Filed(app, appIdToApp)
      modifies this`nodes, cells`next
      ensures Shape() && LiveBut(null)
      ensures IndexOf(nodes) == Unlink(old(IndexOf(nodes)), app.policyIds, app.id)
    {
      var ids := app.policyIds;
      while ids != []
        invariant Shape() && LiveBut(null)
        invariant Unlink(IndexOf(nodes), ids, app.id) == Unlink(old(IndexOf(nodes)), app.policyIds, app.id)
        decreases |ids|
      {
        var id := ids[0];
        if id in idToApps {
          UnlinkOne(id, app);
        }
        ids := ids[1..];
      }
    }

    method UnlinkOne(id: string, app: AgentApp)
      requires Shape() && LiveBut(null) && Filed(app, appIdToApp) && id in idToApps
      modifies this`nodes, cells`next
      ensures Shape() && LiveBut(null)
      ensures IndexOf(nodes) == old(IndexOf(nodes))[id := RemoveFirst(old(IndexOf(nodes))[id], app.id)]
    {
      assert ListOk(id);
      RemoveBehind(nodes[id], app, appIdToApp);
      RemoveFrom(id, app);
      IndexShrinks(old(nodes), nodes, id, app.id);
      OwnedAfter(old(nodes), nodes, id, appIdToApp);
    }

    /** `g_slist_remove` on a stored list with the result ignored. */
    method RemoveFrom(id: string, app: AgentApp)
      requires Shape() && id in idToApps
      modifies this`nodes, cells`next
      ensures Shape() && nodes == old(nodes)[id := WithoutNode(old(nodes)[id], app)]
    {
      ghost var s := nodes[id];
      assert ListOk(id);
      KeepsSentinel(s, app);
      var _, r := Remove(idToApps[id], app, s);
      nodes := nodes[id := r];
      assert Homed(r, cells, id);
      assert ListOk(id);
      OthersKept(id);
    }

    /** One pass of `fill_apps_to_remove` over a list, behind its sentinel. */
    method FillFrom(id: string, agentOwner: string) returns (found: set<AgentApp>)
      requires Shape() && LiveBut(null) && id in idToApps
      ensures forall a :: a in found ==> Filed(a, appIdToApp) && HasPrefix(a.id, agentOwner) && a.id in IndexOf(nodes)[id]
      ensures forall key :: key in IndexOf(nodes)[id] && HasPrefix(key, agentOwner) ==>
        key in appIdToApp && appIdToApp[key] in found
    {
      found := {};
      ghost var s := nodes[id];
      assert ListOk(id) && Owned(s, appIdToApp, null);
      assert IndexOf(nodes)[id] == Ids(s[1..]);
      ghost var k := 1;
      var apps := idToApps[id].next;
      while apps != null
        invariant 1 <= k <= |s| && apps == if k < |s| then s[k] else null
        invariant forall a :: a in found ==> Filed(a, appIdToApp) && HasPrefix(a.id, agentOwner) && a.id in Ids(s[1..])
        invariant forall m :: 1 <= m < k && HasPrefix(s[m].app.id, agentOwner) ==> s[m].app in found
        decreases |s| - k
      {
        var app := apps.app;
        assert s[1..][k - 1] == s[k] && Ids(s[1..])[k - 1] == app.id;
        if HasPrefix(app.id, agentOwner) {
          found := found + {app};
        }
        apps := apps.next;
        k := k + 1;
      }
      forall key | key in Ids(s[1..]) && HasPrefix(key, agentOwner) ensures key in appIdToApp && appIdToApp[key] in found {
        var m :| 0 <= m < |s[1..]| && Ids(s[1..])[m] == key;
        assert s[1..][m] == s[m + 1];
        assert Filed(s[m + 1].app, appIdToApp);
      }
    }

    /** `fill_apps_to_remove`; the hash table may be walked in any order. */
    method FillAppsToRemove(agentOwner: string) returns (found: set<AgentApp>)
      requires Valid()
      ensures FiledUnder(found, appIdToApp, Victims(State(), agentOwner))
    {
      ghost var index := IndexOf(nodes);
      found := {};
      var todo := idToApps.Keys;
      while todo != {}
        invariant todo <= index.Keys && Collected(found, appIdToApp, index, todo, agentOwner)
        decreases |todo|
      {
        var id :| id in todo;
        var more := FillFrom(id, agentOwner);
        CollectMore(found, more, appIdToApp, index, todo, id, agentOwner);
        found := found + more;
        todo := todo - {id};
      }
      CollectedAll(found, appIdToApp, State(), agentOwner);
    }

    /** Of the applications `v` of the state `s`, the ones in `gone` are removed and `todo` holds the others. */
    ghost predicate Removing(s: State, v: set<string>, gone: set<string>, todo: set<AgentApp>)
      reads this, cells, appIdToApp.Values
    {
      Valid() && State() == Drop(s, gone) && gone <= v && FiledUnder(todo, appIdToApp, v - gone)
    }

    method RemoveOne(app: AgentApp, ghost s: State, ghost v: set<string>, ghost gone: set<string>, ghost todo: set<AgentApp>)
      requires Removing(s, v, gone, todo) && app in todo
      modifies this`nodes, this`appIdToApp, cells`next
      ensures Removing(s, v, gone + {app.id}, todo - {app}) && idToApps == old(idToApps) && cells == old(cells)
    {
      RemoveNext(todo, appIdToApp, v - gone, app);
      DropTwice(s, gone, {app.id});
      StopWatchingApp(app);
      assert v - gone - {app.id} == v - (gone + {app.id});
    }

    /** `pold_remove_agent_apps`. */
    method RemoveAgentApps(agentOwner: string)
      requires Valid()
      modifies this`nodes, this`appIdToApp, cells`next
      ensures Valid() && idToApps == old(idToApps)
      ensures State() == RemoveAgent(old(State()), agentOwner)
    {
      ghost var s, v := State(), Victims(State(), agentOwner);
      var todo := FillAppsToRemove(agentOwner);
      RemoveAll(todo, v);
    }

    method RemoveAll(found: set<AgentApp>, ghost v: set<string>)
      requires Valid() && FiledUnder(found, appIdToApp, v)
      modifies this`nodes, this`appIdToApp, cells`next
      ensures Valid() && idToApps == old(idToApps)
      ensures State() == Drop(old(State()), v)
    {
      var todo := found;
      ghost var s, gone: set<string> := State(), {};
      DropNone(s);
      while todo != {}
        invariant Removing(s, v, gone, todo) && idToApps == old(idToApps) && cells == old(cells)
        decreases |todo|
      {
        var app :| app in todo;
        RemoveOne(app, s, v, gone, todo);
        gone := gone + {app.id};
        todo := todo - {app};
      }
      FiledNone(appIdToApp, v, gone);
    }

    /** `mark_update_apps`. */
    method MarkUpdateApps()
      requires Valid()
      modifies this`updateApps
      ensures Valid() && State() == old(State()).(marked := Marked(old(State())))
      ensures FiledUnder(updateApps, appIdToApp, Marked(old(State())))
    {
      ghost var s := State();
      updateApps := OutdatedApps();
      MarkedIds(updateApps, appIdToApp, Marked(s));
      SameIndex(s, State());
    }

    /** The applications whose remembered policy is not the active one. */
    method OutdatedApps() returns (found: set<AgentApp>)
      requires TableOk(appIdToApp)
      ensures FiledUnder(found, appIdToApp, Marked(State()))
    {
      ghost var s := State();
      found := {};
      var todo := appIdToApp.Keys;
      while todo != {}
        invariant todo <= appIdToApp.Keys && FiledUnder(found, appIdToApp, Marked(s) - todo)
        decreases |todo|
      {
        var key :| key in todo;
        var app := appIdToApp[key];
        var policy := GetActivePolicy(app);
        FiledMore(found, appIdToApp, Marked(s), todo, key);
        MarkedIff(s, key, app);
        if app.agentPolicyJson != policy.json {
          found := found + {app};
        }
        todo := todo - {key};
      }
      assert Marked(s) - {} == Marked(s);
    }

    /** One successful step of the update loop. */
    method SendTo(app: AgentApp)
      requires Valid() && Filed(app, appIdToApp)
      modifies this`sent, this`told, app`agentPolicyJson
      ensures Valid() && State() == SendOne(old(State()), app.id)
    {
      ghost var s := State();
      var policy := GetActivePolicy(app);
      Record(app, policy.json);
      SameIndex(s, State());
    }

    method Record(app: AgentApp, json: string)
      requires Filed(app, appIdToApp) && TableOk(appIdToApp)
      modifies this`sent, this`told, app`agentPolicyJson
      ensures var s := old(State());
        State() == s.(apps := s.apps[app.id := s.apps[app.id].(json := json)],
          sent := s.sent + [Send(AgentOf(app.id), OwnerOf(app.id), json)], told := s.told[app.id := json])
    {
      sent := sent + [Send(AgentOf(app.id), OwnerOf(app.id), json)];
      told := told[app.id := json];
      app.agentPolicyJson := json;
      assert Apps() == old(Apps())[app.id := app.View()];
    }

    /** The marked applications `todo` are still to be updated, those in `done` are updated, in this order. */
    ghost predicate Updating(s: State, v: set<string>, done: seq<string>, todo: set<AgentApp>)
      reads this, cells, appIdToApp.Values
    {
      && Valid() && AllIn(done, s.apps.Keys) && State() == SendAll(s, done, |done|)
      && NoDup(done) && AllIn(done, v) && FiledUnder(todo, appIdToApp, v - ToSet(done))
    }

    method UpdateOne(app: AgentApp, ghost s: State, ghost v: set<string>, ghost done: seq<string>, ghost todo: set<AgentApp>)
      requires Updating(s, v, done, todo) && app in todo && v <= s.apps.Keys
      modifies this`sent, this`told, app`agentPolicyJson
      ensures Updating(s, v, done + [app.id], todo - {app})
    {
      UpdateNext(todo, appIdToApp, v, done, app);
      SendTo(app);
      SendAllMore(s, done, [app.id], |done| + 1);
    }

    /** `update_agent_policies`: stops at the first message that cannot be sent, here after `ok` messages. */
    method UpdateAgentPolicies(ok: nat, ghost v: set<string>) returns (error: bool, ghost l: seq<string>)
      requires Valid() && FiledUnder(updateApps, appIdToApp, v)
      modifies this`sent, this`told, updateApps`agentPolicyJson
      ensures Valid() && v <= old(State()).apps.Keys && NoDup(l) && ToSet(l) == v
      ensures AllIn(l, old(State()).apps.Keys) && State() == SendAll(old(State()), l, ok)
      ensures error <==> |l| > ok
    {
      ghost var s := State();
      var todo := updateApps;
      var sends := 0;
      l := [];
      error := false;
      assert v - ToSet([]) == v;
      while todo != {}
        invariant todo <= updateApps && sends == |l| <= ok && v <= s.apps.Keys
        invariant Updating(s, v, l, todo)
        decreases |todo|
      {
        var app :| app in todo;
        if sends == ok {
          error := true;
          l := WholeOrder(s, v, l, app, todo);
          return;
        }
        UpdateOne(app, s, v, l, todo);
        l := l + [app.id];
        sends := sends + 1;
        todo := todo - {app};
      }
      FiledNone(appIdToApp, v, ToSet(l));
      SendAllMore(s, l, [], ok);
      assert l + [] == l;
    }

    /** An order of all marked applications that starts with the ones updated. */
    lemma WholeOrder(s: State, v: set<string>, done: seq<string>, app: AgentApp, todo: set<AgentApp>) returns (l: seq<string>)
      requires Updating(s, v, done, todo) && app in todo && v <= s.apps.Keys
      ensures NoDup(l) && ToSet(l) == v && AllIn(l, s.apps.Keys) && |l| > |done|
      ensures SendAll(s, l, |done|) == SendAll(s, done, |done|)
    {
      var rest := SetToSeq(v - ToSet(done));
      l := done + rest;
      NoDupConcat(done, rest);
      assert app.id in rest;
      SendAllMore(s, done, rest, |done|);
    }

    /** The end of `update_policies_cb`: the new policies, and a round if they were loaded without an error. */
    method UpdatePolicies(policies: map<string, Policy>, loaded: bool, ok: nat) returns (error: bool, ghost l: seq<string>)
      requires Valid()
      modifies this`idToPolicy, this`updateApps, this`sent, this`told, appIdToApp.Values`agentPolicyJson
      ensures Valid()
      ensures var s := old(State()).(policies := policies);
        && (!loaded ==> error && State() == s)
        && (loaded ==> Walks(s, l) && State() == Round(s, l, ok) && (error <==> |l| > ok))
    {
      SetPolicies(policies);
      l := [];
      if !loaded {
        return true, [];
      }
      error, l := RunRound(ok);
    }

    method SetPolicies(policies: map<string, Policy>)
      requires Valid()
      modifies this`idToPolicy
      ensures Valid() && State() == old(State()).(policies := policies)
    {
      ghost var s := State();
      idToPolicy := policies;
      SameIndex(s, State());
    }

    /** One round: the applications whose policy changed are marked, then told. */
    method RunRound(ok: nat) returns (error: bool, ghost l: seq<string>)
      requires Valid()
      modifies this`updateApps, this`sent, this`told, appIdToApp.Values`agentPolicyJson
      ensures Valid() && Walks(old(State()), l) && State() == Round(old(State()), l, ok) && (error <==> |l| > ok)
    {
      ghost var s := State();
      MarkUpdateApps();
      error, l := UpdateAgentPolicies(ok, Marked(s));
      WalksAll(s, l);
    }
  }

  lemma MarkedIff(s: State, key: string, app: AgentApp)
    requires key in s.apps && s.apps[key] == app.View()
    ensures key in Marked(s) <==> app.agentPolicyJson != Active(app.policyIds, s.policies, s.fallback).json
  {
  }

  lemma WalksAll(s: State, l: seq<string>)
    requires NoDup(l) && ToSet(l) == Marked(s)
    ensures Walks(s, l)
  {
    assert forall x :: x in l <==> x in ToSet(l);
  }
}
