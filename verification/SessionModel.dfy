/** The connection scheduler of the ConnMan session policy plugin on values: scores, the sorted walk
    over the services, and what one run leads to. */
module SessionModel {
  import opened Lists

  /** Service states in the order of the enumeration. */
  datatype ServiceState = UNKNOWN | IDLE | ASSOCIATION | CONFIGURATION | READY | ONLINE | DISCONNECT | FAILURE

  datatype ServiceType = ETHERNET | GADGET | WIFI | BLUETOOTH | CELLULAR | OTHER_TYPE

  datatype Service = Service(kind: ServiceType, autoconnect: bool, favorite: bool)

  datatype Session = Session(owner: string, active: bool, bearers: seq<ServiceType>)

  /** A service as one run sees it; `id` is its place in the iteration over the service table. */
  datatype Info = Info(id: nat, service: Service, state: ServiceState, score: nat)

  const U32 := 0x1_0000_0000
  const HALF := 0x8000_0000

  predicate Up(s: ServiceState) { s == READY || s == ONLINE }

  /** `state >= READY` in the enumeration. */
  predicate AtLeastReady(s: ServiceState) { s == READY || s == ONLINE || s == DISCONNECT || s == FAILURE }

  predicate Failing(s: ServiceState) { s == DISCONNECT || s == FAILURE }

  // ---- scores ----

  function TypeWeight(k: ServiceType): nat {
    match k
    case ETHERNET => 5
    case GADGET => 4
    case WIFI => 3
    case BLUETOOTH => 2
    case CELLULAR => 1
    case OTHER_TYPE => 0
  }

  /** What one matching bearer of one session is worth. */
  function Weight(v: Service, s: ServiceState): nat {
    (if Up(s) then 20 else 0) + (if v.favorite then 6 else 0) + TypeWeight(v.kind)
  }

  function Count(bearers: seq<ServiceType>, k: ServiceType): nat {
    if bearers == [] then 0 else (if bearers[0] == k then 1 else 0) + Count(bearers[1..], k)
  }

  predicate Considered(p: Session, agent: Option<string>) { p.active && Some(p.owner) != agent }

  /** How often the service matches a bearer of an active session other than the agent's own. */
  function Matches(v: Service, sessions: seq<Session>, agent: Option<string>): nat {
    if sessions == [] then 0
    else
      var here := if Considered(sessions[0], agent) && v.autoconnect then Count(sessions[0].bearers, v.kind) else 0;
      here + Matches(v, sessions[1..], agent)
  }

  function RawScore(v: Service, s: ServiceState, sessions: seq<Session>, agent: Option<string>): nat {
    Matches(v, sessions, agent) * Weight(v, s)
  }

  /** The score in the unsigned 32-bit field. */
  function Score(v: Service, s: ServiceState, sessions: seq<Session>, agent: Option<string>): nat {
    RawScore(v, s, sessions, agent) % U32
  }

  // ---- sorting ----

  /** `sort_services`: the unsigned difference read as a signed number. */
  function Compare(a: nat, b: nat): int {
    var d := (b - a) % U32;
    if d < HALF then d else d - U32
  }

  /** The comparison orders two scores rightly exactly while they are less than half the range apart. */
  lemma CompareRight(a: nat, b: nat)
    requires a < U32 && b < U32
    ensures (Compare(a, b) < 0 <==> b < a) && (Compare(a, b) == 0 <==> a == b) <==> -HALF <= b - a < HALF
  {
    if b >= a { assert (b - a) % U32 == b - a; } else { assert (b - a) % U32 == b - a + U32; }
  }

  /** Stable insertion of an element that came before all of `l`. */
  function Insert(x: Info, l: seq<Info>): seq<Info> {
    if l == [] || Compare(x.score, l[0].score) <= 0 then [x] + l else [l[0]] + Insert(x, l[1..])
  }

  /** `g_list_sort` with `sort_services`, which is a stable sort. */
  function Sort(l: seq<Info>): seq<Info> {
    if l == [] then [] else Insert(l[0], Sort(l[1..]))
  }

  /** Higher score first; among equals, later in the table first, since the list is built by prepending. */
  predicate Before(a: Info, b: Info) { a.score > b.score || (a.score == b.score && a.id > b.id) }

  ghost predicate Sorted(l: seq<Info>) { forall i, j :: 0 <= i < j < |l| ==> Before(l[i], l[j]) }

  ghost predicate LatestFirst(l: seq<Info>) { forall i, j :: 0 <= i < j < |l| ==> l[i].id > l[j].id }

  predicate SmallScores(l: seq<Info>) { forall k :: 0 <= k < |l| ==> l[k].score < HALF }

  lemma {:induction false} InsertSorted(x: Info, l: seq<Info>)
    requires Sorted(l) && SmallScores(l) && x.score < HALF && forall k :: 0 <= k < |l| ==> x.id > l[k].id
    ensures Sorted(Insert(x, l)) && SmallScores(Insert(x, l))
    ensures forall y :: y in Insert(x, l) <==> y == x || y in l
    ensures |Insert(x, l)| == |l| + 1
  {
    if l != [] {
      CompareRight(x.score, l[0].score);
      if Compare(x.score, l[0].score) > 0 {
        InsertSorted(x, l[1..]);
        var r := Insert(x, l[1..]);
        forall j | 0 <= j < |r| ensures Before(l[0], r[j]) { assert r[j] in r; }
      } else {
        assert forall k :: 0 <= k < |l| ==> Before(x, l[k]);
      }
    }
  }

  lemma {:induction false} SortSorted(l: seq<Info>)
    requires LatestFirst(l) && SmallScores(l)
    ensures Sorted(Sort(l)) && SmallScores(Sort(l)) && |Sort(l)| == |l|
    ensures forall y :: y in Sort(l) <==> y in l
  {
    if l != [] {
      SortSorted(l[1..]);
      var r := Sort(l[1..]);
      forall k | 0 <= k < |r| ensures l[0].id > r[k].id {
        assert r[k] in r;
        var m :| 0 <= m < |l[1..]| && l[1..][m] == r[k];
        assert l[m + 1] == r[k];
      }
      InsertSorted(l[0], r);
      assert l == [l[0]] + l[1..];
    }
  }

  // ---- the walk over the sorted services ----

  datatype Orders = Orders(connect: seq<Info>, disconnect: seq<Info>)

  /** The loop of `run_session_connect`; `taken` is its `connect` flag. */
  function Walk(l: seq<Info>, taken: bool): Orders {
    if l == [] then Orders([], [])
    else
      var x := l[0];
      if !taken && x.score > 0 then
        var rest := Walk(l[1..], !Failing(x.state));
        if x.state == UNKNOWN || x.state == IDLE then rest.(connect := [x] + rest.connect) else rest
      else
        var rest := Walk(l[1..], taken);
        if AtLeastReady(x.state) then rest.(disconnect := [x] + rest.disconnect) else rest
  }

  /** A service that a run may keep: it has a positive score and is not failing. */
  predicate Eligible(x: Info) { x.score > 0 && !Failing(x.state) }

  ghost predicate Best(l: seq<Info>, c: Info) {
    c in l && Eligible(c) && forall x :: x in l && Eligible(x) && x != c ==> Before(c, x)
  }

  lemma {:induction false} WalkTaken(l: seq<Info>)
    ensures Walk(l, true).connect == []
    ensures forall x :: x in Walk(l, true).disconnect <==> x in l && AtLeastReady(x.state)
  {
    if l != [] { WalkTaken(l[1..]); }
  }

  /** On a sorted list the walk connects the best service if it is idle, connects nothing else, and
      asks for disconnection of what comes after the best or scores nothing. */
  lemma {:induction false} WalkSorted(l: seq<Info>)
    requires Sorted(l)
    ensures var r := Walk(l, false);
      && (forall c :: Best(l, c) ==> r.connect == if c.state == UNKNOWN || c.state == IDLE then [c] else [])
      && ((forall x :: x in l ==> !Eligible(x)) ==> r.connect == [])
      && (forall x :: x in r.disconnect <==> x in l && AtLeastReady(x.state) && (x.score == 0 || exists c :: Best(l, c) && Before(c, x)))
  {
    if l != [] {
      var x := l[0];
      assert forall y :: y in l <==> y == x || y in l[1..];
      assert forall k :: 0 <= k < |l[1..]| ==> Before(x, l[1..][k]);
      assert forall y :: y in l[1..] ==> Before(x, y);
      if Eligible(x) {
        WalkTaken(l[1..]);
        assert Best(l, x);
        forall c | Best(l, c) ensures c == x {
          assert c != x ==> Before(c, x);
        }
      } else {
        WalkSorted(l[1..]);
        BestOfRest(l);
        WalkSkips(l);
      }
    }
  }

  lemma WalkSkips(l: seq<Info>)
    requires l != [] && !Eligible(l[0]) && Sorted(l)
    ensures var r, rest := Walk(l, false), Walk(l[1..], false);
      r.connect == rest.connect
      && (r.disconnect == if l[0].score == 0 && AtLeastReady(l[0].state) then [l[0]] + rest.disconnect else rest.disconnect)
  {
  }

  lemma BestOfRest(l: seq<Info>)
    requires l != [] && !Eligible(l[0]) && Sorted(l)
    ensures forall c :: Best(l, c) <==> Best(l[1..], c)
    ensures forall c :: Best(l, c) ==> Before(l[0], c)
  {
    assert forall y :: y in l <==> y == l[0] || y in l[1..];
    assert forall k :: 0 <= k < |l[1..]| ==> Before(l[0], l[1..][k]);
    assert forall y :: y in l[1..] ==> Before(l[0], y);
  }

  // ---- one run over the service table ----

  datatype Slot = Slot(service: Service, state: ServiceState)

  /** What a run sees of the table: every service, in iteration order, with its fresh score. */
  function Infos(t: seq<Slot>, sessions: seq<Session>, agent: Option<string>): (r: seq<Info>)
    ensures |r| == |t|
    ensures forall k :: 0 <= k < |t| ==>
      r[k] == Info(k, t[k].service, t[k].state, Score(t[k].service, t[k].state, sessions, agent))
  {
    seq(|t|, k requires 0 <= k < |t| => Info(k, t[k].service, t[k].state, Score(t[k].service, t[k].state, sessions, agent)))
  }

  /** The orders that one `run_session_connect` gives. */
  function OneRun(t: seq<Slot>, sessions: seq<Session>, agent: Option<string>): Orders {
    Walk(Sort(Reverse(Infos(t, sessions, agent))), false)
  }

  const MAX_WEIGHT := 31

  /** No score can reach half the range of the 32-bit field, whatever state the service is in. */
  ghost predicate NoWrap(t: seq<Slot>, sessions: seq<Session>, agent: Option<string>) {
    forall k :: 0 <= k < |t| ==> Matches(t[k].service, sessions, agent) * MAX_WEIGHT < HALF
  }

  lemma ScoreExact(v: Service, s: ServiceState, sessions: seq<Session>, agent: Option<string>)
    requires Matches(v, sessions, agent) * MAX_WEIGHT < HALF
    ensures Score(v, s, sessions, agent) == Matches(v, sessions, agent) * Weight(v, s) < HALF
  {
    MulMono(Matches(v, sessions, agent), Weight(v, s), MAX_WEIGHT);
  }

  lemma MulMono(m: nat, a: nat, b: nat)
    requires a <= b
    ensures m * a <= m * b
  {
  }

  /** Being connected adds twenty for every match and nothing else about the state counts. */
  lemma ScoreByState(v: Service, s: ServiceState, u: ServiceState, sessions: seq<Session>, agent: Option<string>)
    requires Matches(v, sessions, agent) * MAX_WEIGHT < HALF
    ensures Up(s) == Up(u) ==> Score(v, s, sessions, agent) == Score(v, u, sessions, agent)
    ensures Up(s) && !Up(u) ==> Score(v, s, sessions, agent) == Score(v, u, sessions, agent) + 20 * Matches(v, sessions, agent)
    ensures Score(v, s, sessions, agent) > 0 ==> Matches(v, sessions, agent) > 0
  {
    ScoreExact(v, s, sessions, agent);
    ScoreExact(v, u, sessions, agent);
    var m := Matches(v, sessions, agent);
    assert Up(s) && !Up(u) ==> Weight(v, s) == Weight(v, u) + 20;
    assert m * (Weight(v, u) + 20) == m * Weight(v, u) + 20 * m;
  }

  lemma {:induction false} ReverseLatestFirst(l: seq<Info>)
    requires forall k :: 0 <= k < |l| ==> l[k].id >= l[0].id
    requires forall i, j :: 0 <= i < j < |l| ==> l[i].id < l[j].id
    ensures LatestFirst(Reverse(l))
  {
    if l != [] {
      var t := l[1..];
      ReverseLatestFirst(t);
      ReverseMembers(t);
      forall x | x in t ensures x.id > l[0].id {
        var m :| 0 <= m < |t| && t[m] == x;
        assert t[m] == l[m + 1];
      }
      forall k | 0 <= k < |Reverse(t)| ensures Reverse(t)[k].id > l[0].id { assert Reverse(t)[k] in Reverse(t); }
    }
  }

  lemma SortedInfos(t: seq<Slot>, sessions: seq<Session>, agent: Option<string>)
    requires NoWrap(t, sessions, agent)
    ensures var l := Sort(Reverse(Infos(t, sessions, agent)));
      Sorted(l) && forall x :: x in l <==> x in Infos(t, sessions, agent)
  {
    var l := Infos(t, sessions, agent);
    ReverseMembers(l);
    ReverseLatestFirst(l);
    forall k | 0 <= k < |Reverse(l)| ensures Reverse(l)[k].score < HALF {
      var x := Reverse(l)[k];
      assert x in Reverse(l);
      ScoreExact(x.service, x.state, sessions, agent);
    }
    SortSorted(Reverse(l));
  }

  ghost predicate BestOf(t: seq<Slot>, sessions: seq<Session>, agent: Option<string>, k: nat) {
    k < |t| && Best(Infos(t, sessions, agent), Infos(t, sessions, agent)[k])
  }

  predicate Idle(s: ServiceState) { s == UNKNOWN || s == IDLE }

  /** One run connects at most one service, and only the best one when it is idle: no eligible service
      has a higher score. It asks for disconnection of exactly the connected or failing services that
      come after the best one or score nothing. */
  lemma Optimality(t: seq<Slot>, sessions: seq<Session>, agent: Option<string>)
    requires NoWrap(t, sessions, agent)
    ensures var r, l := OneRun(t, sessions, agent), Infos(t, sessions, agent);
      && |r.connect| <= 1
      && (forall x :: x in r.connect <==> Best(l, x) && Idle(x.state))
      && (forall x :: x in r.disconnect <==>
            x in l && AtLeastReady(x.state) && (x.score == 0 || exists c :: Best(l, c) && Before(c, x)))
      && ((exists x :: x in l && Eligible(x)) ==> exists c :: Best(l, c))
  {
    var l := Infos(t, sessions, agent);
    var q := Sort(Reverse(l));
    SortedInfos(t, sessions, agent);
    SameBest(l, q);
    WalkBest(q);
  }

  lemma SameBest(l: seq<Info>, q: seq<Info>)
    requires forall x :: x in q <==> x in l
    ensures forall c :: Best(l, c) <==> Best(q, c)
  {
  }

  lemma WalkBest(q: seq<Info>)
    requires Sorted(q)
    ensures var r := Walk(q, false);
      && |r.connect| <= 1
      && (forall x :: x in r.connect <==> Best(q, x) && Idle(x.state))
      && (forall x :: x in r.disconnect <==>
            x in q && AtLeastReady(x.state) && (x.score == 0 || exists c :: Best(q, c) && Before(c, x)))
      && ((exists x :: x in q && Eligible(x)) ==> exists c :: Best(q, c))
  {
    WalkSorted(q);
    BestExists(q);
    forall x ensures x in Walk(q, false).connect <==> Best(q, x) && Idle(x.state) {
      if exists c :: Best(q, c) {
        var c :| Best(q, c);
        if x != c { OnlyOneBest(q, c, x); }
      } else {
        assert forall x :: x in q ==> !Eligible(x);
      }
    }
    assert (exists c :: Best(q, c)) || (forall x :: x in q ==> !Eligible(x));
  }

  /** Every service that is connected and is not the best one is told to disconnect. */
  lemma OthersDisconnect(t: seq<Slot>, sessions: seq<Session>, agent: Option<string>, k: nat)
    requires NoWrap(t, sessions, agent) && k < |t| && Up(t[k].state) && !BestOf(t, sessions, agent, k)
    ensures Infos(t, sessions, agent)[k] in OneRun(t, sessions, agent).disconnect
  {
    Optimality(t, sessions, agent);
    var x := Infos(t, sessions, agent)[k];
    assert x in Infos(t, sessions, agent);
    if x.score > 0 {
      assert Eligible(x);
      var c :| Best(Infos(t, sessions, agent), c);
      assert Before(c, x);
    }
  }

  lemma {:induction false} BestExists(l: seq<Info>)
    requires Sorted(l)
    ensures (exists x :: x in l && Eligible(x)) <==> exists c :: Best(l, c)
  {
    if l != [] {
      if Eligible(l[0]) {
        assert forall k :: 0 < k < |l| ==> Before(l[0], l[k]);
        assert Best(l, l[0]);
      } else {
        BestExists(l[1..]);
        BestOfRest(l);
        assert forall y :: y in l <==> y == l[0] || y in l[1..];
      }
    }
  }

  // ---- what a run leads to ----

  predicate Has(l: seq<Info>, k: nat) { exists x :: x in l && x.id == k }

  /** The connection succeeds, the disconnected services become idle, and nothing else happens. */
  function After(t: seq<Slot>, r: Orders): (u: seq<Slot>)
    ensures |u| == |t|
    ensures forall k :: 0 <= k < |t| ==> u[k].service == t[k].service
  {
    seq(|t|, k requires 0 <= k < |t| =>
      t[k].(state := if Has(r.connect, k) then READY else if Has(r.disconnect, k) then IDLE else t[k].state))
  }

  function Next(t: seq<Slot>, sessions: seq<Session>, agent: Option<string>): (u: seq<Slot>)
    ensures |u| == |t|
    ensures forall k :: 0 <= k < |t| ==> u[k].service == t[k].service
  {
    After(t, OneRun(t, sessions, agent))
  }

  /** How one service moves in a run, by its place relative to the best service. */
  lemma Moves(t: seq<Slot>, sessions: seq<Session>, agent: Option<string>, k: nat)
    requires NoWrap(t, sessions, agent) && k < |t|
    ensures var x, s := Infos(t, sessions, agent)[k], Next(t, sessions, agent)[k].state;
      && (BestOf(t, sessions, agent, k) ==> s == if Idle(x.state) then READY else x.state)
      && (!BestOf(t, sessions, agent, k) ==> s == x.state || (s == IDLE && AtLeastReady(x.state)))
      && (!BestOf(t, sessions, agent, k) && s != x.state && x.score > 0 ==>
            exists c :: Best(Infos(t, sessions, agent), c) && Before(c, x))
  {
    Optimality(t, sessions, agent);
    var l, r := Infos(t, sessions, agent), OneRun(t, sessions, agent);
    var x := l[k];
    assert x in l;
    assert forall y :: y in l && y.id == k ==> y == x;
    assert forall y :: y in r.connect || y in r.disconnect ==> y in l;
    assert Has(r.connect, k) <==> x in r.connect;
    assert Has(r.disconnect, k) <==> x in r.disconnect;
    if Best(l, x) && x in r.disconnect {
      var c :| Best(l, c) && Before(c, x);
      OnlyOneBest(l, x, c);
      assert false;
    }
  }

  /** The second run keeps the service that the first one chose, and issues no connection; if the
      service was idle it is now ahead of all others by score. */
  lemma FixedPoint(t: seq<Slot>, sessions: seq<Session>, agent: Option<string>, k: nat)
    requires NoWrap(t, sessions, agent) && BestOf(t, sessions, agent, k)
    ensures var u := Next(t, sessions, agent);
      && NoWrap(u, sessions, agent) && BestOf(u, sessions, agent, k) && !Idle(u[k].state)
      && OneRun(u, sessions, agent).connect == []
      && (Idle(t[k].state) ==> forall j :: 0 <= j < |u| && j != k && Eligible(Infos(u, sessions, agent)[j]) ==>
            Infos(u, sessions, agent)[k].score > Infos(u, sessions, agent)[j].score)
  {
    var u := Next(t, sessions, agent);
    assert NoWrap(u, sessions, agent);
    var l, m := Infos(t, sessions, agent), Infos(u, sessions, agent);
    ChosenRises(t, sessions, agent, k);
    forall j | 0 <= j < |u| && j != k && Eligible(m[j])
      ensures Before(m[k], m[j]) && (Idle(t[k].state) ==> m[k].score > m[j].score)
    {
      OthersFall(t, sessions, agent, k, j);
    }
    forall x | x in m && Eligible(x) && x != m[k] ensures Before(m[k], x) {}
    assert Best(m, m[k]);
    Optimality(u, sessions, agent);
    var r := OneRun(u, sessions, agent);
    forall x ensures x !in r.connect {
      if x in r.connect {
        OnlyOneBest(m, x, m[k]);
        assert false;
      }
    }
    EmptyByMembers(r.connect);
  }

  lemma EmptyByMembers(l: seq<Info>)
    ensures l == [] || exists x :: x in l
  {
    assert |l| > 0 ==> l[0] in l;
  }

  lemma ChosenRises(t: seq<Slot>, sessions: seq<Session>, agent: Option<string>, k: nat)
    requires NoWrap(t, sessions, agent) && BestOf(t, sessions, agent, k)
    ensures var l, m := Infos(t, sessions, agent), Infos(Next(t, sessions, agent), sessions, agent);
      Eligible(m[k]) && !Idle(m[k].state) && m[k].score >= l[k].score && (Idle(t[k].state) ==> m[k].score > l[k].score)
  {
    Moves(t, sessions, agent, k);
    ScoreByState(t[k].service, Next(t, sessions, agent)[k].state, t[k].state, sessions, agent);
    ScoreByState(t[k].service, t[k].state, t[k].state, sessions, agent);
  }

  lemma OthersFall(t: seq<Slot>, sessions: seq<Session>, agent: Option<string>, k: nat, j: nat)
    requires NoWrap(t, sessions, agent) && BestOf(t, sessions, agent, k) && j < |t| && j != k
    requires Eligible(Infos(Next(t, sessions, agent), sessions, agent)[j])
    ensures var l, m := Infos(t, sessions, agent), Infos(Next(t, sessions, agent), sessions, agent);
      Before(l[k], m[j])
  {
    var l, m := Infos(t, sessions, agent), Infos(Next(t, sessions, agent), sessions, agent);
    OnlyOneBest(l, l[k], l[j]);
    ScoreDrops(t, sessions, agent, j);
    assert l[j] in l;
    if l[j].state == m[j].state {
      assert Before(l[k], l[j]);
    } else {
      assert l[j].score > 0;
      Moves(t, sessions, agent, j);
      var c :| Best(l, c) && Before(c, l[j]);
      if c != l[k] { OnlyOneBest(l, l[k], c); }
    }
  }

  lemma ScoreDrops(t: seq<Slot>, sessions: seq<Session>, agent: Option<string>, j: nat)
    requires NoWrap(t, sessions, agent) && j < |t| && !BestOf(t, sessions, agent, j)
    ensures Infos(Next(t, sessions, agent), sessions, agent)[j].score <= Infos(t, sessions, agent)[j].score
  {
    Moves(t, sessions, agent, j);
    ScoreByState(t[j].service, t[j].state, Next(t, sessions, agent)[j].state, sessions, agent);
  }

  lemma OnlyOneBest(l: seq<Info>, a: Info, b: Info)
    requires Best(l, a) && a != b
    ensures !Best(l, b)
  {
    assert Best(l, b) ==> Before(b, a) && Before(a, b);
  }

  /** The table after `n` runs whose orders were all carried out. */
  function Later(t: seq<Slot>, sessions: seq<Session>, agent: Option<string>, n: nat): seq<Slot> {
    if n == 0 then t else Next(Later(t, sessions, agent, n - 1), sessions, agent)
  }

  /** With unchanged sessions the choice is stable for ever and only the first run connects. */
  lemma {:induction false} Settles(t: seq<Slot>, sessions: seq<Session>, agent: Option<string>, k: nat, n: nat)
    requires NoWrap(t, sessions, agent) && BestOf(t, sessions, agent, k)
    ensures var u := Later(t, sessions, agent, n);
      && NoWrap(u, sessions, agent) && BestOf(u, sessions, agent, k)
      && (n > 0 ==> OneRun(u, sessions, agent).connect == [])
  {
    if n > 0 {
      Settles(t, sessions, agent, k, n - 1);
      FixedPoint(Later(t, sessions, agent, n - 1), sessions, agent, k);
    }
  }

  /** When nothing is eligible, nothing is connected, now or in the next run. */
  lemma NothingToDo(t: seq<Slot>, sessions: seq<Session>, agent: Option<string>)
    requires NoWrap(t, sessions, agent) && forall k :: 0 <= k < |t| ==> !Eligible(Infos(t, sessions, agent)[k])
    ensures OneRun(t, sessions, agent).connect == []
    ensures forall k :: 0 <= k < |t| ==> !Eligible(Infos(Next(t, sessions, agent), sessions, agent)[k])
  {
    Optimality(t, sessions, agent);
    var l, m := Infos(t, sessions, agent), Infos(Next(t, sessions, agent), sessions, agent);
    EmptyByMembers(OneRun(t, sessions, agent).connect);
    forall k | 0 <= k < |t| ensures !Eligible(m[k]) {
      assert !Eligible(l[k]);
      Moves(t, sessions, agent, k);
      ScoreByState(t[k].service, t[k].state, m[k].state, sessions, agent);
    }
  }
}
