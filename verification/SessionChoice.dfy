/** What the session scheduler promises, on services and sessions themselves: what counts as a match, which
    of two services with the same matches is ahead, and which one is connected. */
module SessionChoice {
  import opened Lists
  import opened SessionModel

  // ---- matches ----

  /** The places where an active session other than the agent's own lists a bearer of this type. */
  function Places(kind: ServiceType, sessions: seq<Session>, agent: Option<string>): set<(nat, nat)> {
    set i: nat, j: nat | i < |sessions| && j < |sessions[i].bearers|
      && sessions[i].active && agent != Some(sessions[i].owner) && sessions[i].bearers[j] == kind :: (i, j)
  }

  /** How many of them count for the service: all if it connects by itself, else none. */
  function Hits(v: Service, sessions: seq<Session>, agent: Option<string>): nat {
    if v.autoconnect then |Places(v.kind, sessions, agent)| else 0
  }

  function Spots(bearers: seq<ServiceType>, kind: ServiceType, i: nat): set<(nat, nat)> {
    set j: nat | j < |bearers| && bearers[j] == kind :: (i, j)
  }

  lemma SpotsLast(a: seq<ServiceType>, b: ServiceType, kind: ServiceType, i: nat)
    ensures Spots(a + [b], kind, i) == Spots(a, kind, i) + if b == kind then {(i, |a|)} else {}
    ensures (i, |a|) !in Spots(a, kind, i)
  {
    var l := a + [b];
    forall x ensures x in Spots(l, kind, i) <==> x in Spots(a, kind, i) || (b == kind && x == (i, |a|)) {
      assert x.1 < |a| ==> l[x.1] == a[x.1];
    }
  }

  lemma {:induction false} CountSpots(bearers: seq<ServiceType>, kind: ServiceType, i: nat)
    ensures Count(bearers, kind) == |Spots(bearers, kind, i)|
    decreases |bearers|
  {
    if bearers != [] {
      var n := |bearers| - 1;
      assert bearers == bearers[..n] + [bearers[n]];
      CountLast(bearers[..n], bearers[n], kind);
      CountSpots(bearers[..n], kind, i);
      SpotsLast(bearers[..n], bearers[n], kind, i);
    }
  }

  lemma {:induction false} CountLast(a: seq<ServiceType>, b: ServiceType, kind: ServiceType)
    ensures Count(a + [b], kind) == Count(a, kind) + if b == kind then 1 else 0
  {
    if a == [] {
      assert a + [b] == [b] && [b][1..] == [];
    } else {
      assert (a + [b])[1..] == a[1..] + [b];
      CountLast(a[1..], b, kind);
    }
  }

  lemma {:induction false} MatchesLast(v: Service, l: seq<Session>, p: Session, agent: Option<string>)
    ensures Matches(v, l + [p], agent) == Matches(v, l, agent)
      + if p.active && agent != Some(p.owner) && v.autoconnect then Count(p.bearers, v.kind) else 0
  {
    if l == [] {
      assert l + [p] == [p] && Matches(v, [p][1..], agent) == 0;
    } else {
      assert (l + [p])[1..] == l[1..] + [p];
      MatchesLast(v, l[1..], p, agent);
    }
  }

  lemma PlacesLast(kind: ServiceType, l: seq<Session>, p: Session, agent: Option<string>)
    ensures var here := if p.active && agent != Some(p.owner) then Spots(p.bearers, kind, |l|) else {};
      Places(kind, l + [p], agent) == Places(kind, l, agent) + here && Places(kind, l, agent) !! here
  {
    var q := l + [p];
    var here := if p.active && agent != Some(p.owner) then Spots(p.bearers, kind, |l|) else {};
    forall x ensures x in Places(kind, q, agent) <==> x in Places(kind, l, agent) || x in here {
      if x.0 < |l| { assert q[x.0] == l[x.0]; }
    }
  }

  /** The nested loops count these places. */
  lemma {:induction false} MatchesAreHits(v: Service, sessions: seq<Session>, agent: Option<string>)
    ensures Matches(v, sessions, agent) == Hits(v, sessions, agent)
    decreases |sessions|
  {
    if sessions == [] {
      assert Places(v.kind, sessions, agent) == {};
    } else {
      var n := |sessions| - 1;
      var l, p := sessions[..n], sessions[n];
      assert sessions == l + [p];
      MatchesLast(v, l, p, agent);
      MatchesAreHits(v, l, agent);
      CountSpots(p.bearers, v.kind, n);
      PlacesLast(v.kind, l, p, agent);
    }
  }

  // ---- which of two services is ahead ----

  /** The bearers, most wanted first. */
  const KINDS := [ETHERNET, GADGET, WIFI, BLUETOOTH, CELLULAR, OTHER_TYPE]

  predicate Connected(s: ServiceState) { s in [READY, ONLINE] }

  predicate Waiting(s: ServiceState) { s in [UNKNOWN, IDLE] }

  predicate Broken(s: ServiceState) { s in [DISCONNECT, FAILURE] }

  /** Being connected comes first, then being a favorite, then the bearer. */
  ghost predicate AheadOf(a: Slot, b: Slot) {
    if Connected(a.state) != Connected(b.state) then Connected(a.state)
    else if a.service.favorite != b.service.favorite then a.service.favorite
    else exists i, j :: 0 <= i < j < |KINDS| && KINDS[i] == a.service.kind && KINDS[j] == b.service.kind
  }

  /** Fewer than 2^31 points are possible. */
  predicate Counts(v: Service, sessions: seq<Session>, agent: Option<string>) { Hits(v, sessions, agent) * 31 < 0x8000_0000 }

  lemma HeavierWeight(a: Slot, b: Slot)
    requires AheadOf(a, b)
    ensures Weight(a.service, a.state) > Weight(b.service, b.state)
  {
    if Connected(a.state) == Connected(b.state) && a.service.favorite == b.service.favorite {
      var i, j :| 0 <= i < j < |KINDS| && KINDS[i] == a.service.kind && KINDS[j] == b.service.kind;
    }
  }

  lemma MulLess(m: nat, a: nat, b: nat)
    requires m > 0 && a > b
    ensures m * a > m * b
  {
    assert m * a == m * b + m * (a - b);
  }

  /** With the same positive number of matches the service ahead scores more. */
  lemma AheadScores(a: Slot, b: Slot, sessions: seq<Session>, agent: Option<string>)
    requires AheadOf(a, b) && Hits(a.service, sessions, agent) == Hits(b.service, sessions, agent) > 0
    requires Counts(a.service, sessions, agent)
    ensures Score(a.service, a.state, sessions, agent) > Score(b.service, b.state, sessions, agent)
  {
    MatchesAreHits(a.service, sessions, agent);
    MatchesAreHits(b.service, sessions, agent);
    ScoreExact(a.service, a.state, sessions, agent);
    ScoreExact(b.service, b.state, sessions, agent);
    HeavierWeight(a, b);
    MulLess(Hits(a.service, sessions, agent), Weight(a.service, a.state), Weight(b.service, b.state));
  }

  // ---- the orders ----

  ghost predicate AllCount(t: seq<Slot>, sessions: seq<Session>, agent: Option<string>) {
    forall k :: 0 <= k < |t| ==> Counts(t[k].service, sessions, agent)
  }

  lemma NothingWraps(t: seq<Slot>, sessions: seq<Session>, agent: Option<string>)
    requires AllCount(t, sessions, agent)
    ensures NoWrap(t, sessions, agent)
  {
    forall k | 0 <= k < |t| ensures SessionModel.Matches(t[k].service, sessions, agent) * MAX_WEIGHT < HALF {
      assert Counts(t[k].service, sessions, agent);
      MatchesAreHits(t[k].service, sessions, agent);
    }
  }

  /** No service is connected while one with the same matches is ahead of it that is not broken. */
  lemma NeverBehind(t: seq<Slot>, sessions: seq<Session>, agent: Option<string>, i: nat, k: nat)
    requires AllCount(t, sessions, agent) && i < |t| && k < |t| && AheadOf(t[i], t[k]) && !Broken(t[i].state)
    requires Hits(t[i].service, sessions, agent) == Hits(t[k].service, sessions, agent)
    ensures forall x :: x in OneRun(t, sessions, agent).connect ==> x.id != k
  {
    NothingWraps(t, sessions, agent);
    Optimality(t, sessions, agent);
    BehindIsNotBest(t, sessions, agent, i, k);
    forall x | x in OneRun(t, sessions, agent).connect ensures x == Infos(t, sessions, agent)[x.id] {}
  }

  lemma BehindIsNotBest(t: seq<Slot>, sessions: seq<Session>, agent: Option<string>, i: nat, k: nat)
    requires AllCount(t, sessions, agent) && i < |t| && k < |t| && AheadOf(t[i], t[k]) && !Broken(t[i].state)
    requires Hits(t[i].service, sessions, agent) == Hits(t[k].service, sessions, agent)
    ensures !Best(Infos(t, sessions, agent), Infos(t, sessions, agent)[k])
  {
    var l := Infos(t, sessions, agent);
    MatchesAreHits(t[k].service, sessions, agent);
    ScoreExact(t[k].service, t[k].state, sessions, agent);
    if Hits(t[k].service, sessions, agent) > 0 {
      AheadScores(t[i], t[k], sessions, agent);
      assert l[i] in l && Eligible(l[i]) && !Before(l[k], l[i]);
    }
  }

  /** The service has matches and is ahead of every other service, or the other has none or is broken. */
  ghost predicate Leads(t: seq<Slot>, sessions: seq<Session>, agent: Option<string>, i: nat)
    requires i < |t|
  {
    && Hits(t[i].service, sessions, agent) > 0
    && (Connected(t[i].state) || t[i].service.favorite || t[i].service.kind != OTHER_TYPE)
    && forall k :: 0 <= k < |t| && k != i ==>
      || Hits(t[k].service, sessions, agent) == 0 || Broken(t[k].state)
      || (AheadOf(t[i], t[k]) && Hits(t[k].service, sessions, agent) == Hits(t[i].service, sessions, agent))
  }

  lemma LeaderIsBest(t: seq<Slot>, sessions: seq<Session>, agent: Option<string>, i: nat)
    requires AllCount(t, sessions, agent) && i < |t| && Leads(t, sessions, agent, i) && !Broken(t[i].state)
    ensures Best(Infos(t, sessions, agent), Infos(t, sessions, agent)[i])
  {
    var l := Infos(t, sessions, agent);
    MatchesAreHits(t[i].service, sessions, agent);
    ScoreExact(t[i].service, t[i].state, sessions, agent);
    MulLess(Hits(t[i].service, sessions, agent), Weight(t[i].service, t[i].state), 0);
    forall x | x in l && Eligible(x) && x != l[i] ensures Before(l[i], x) {
      var k := x.id;
      assert x == l[k] && k != i;
      MatchesAreHits(t[k].service, sessions, agent);
      ScoreExact(t[k].service, t[k].state, sessions, agent);
      AheadScores(t[i], t[k], sessions, agent);
    }
  }

  /** A leading service that waits is connected, and only it; one that is under way or connected already
      keeps all others from being connected. */
  lemma LeaderConnects(t: seq<Slot>, sessions: seq<Session>, agent: Option<string>, i: nat)
    requires AllCount(t, sessions, agent) && i < |t| && Leads(t, sessions, agent, i) && !Broken(t[i].state)
    ensures var r := OneRun(t, sessions, agent);
      if Waiting(t[i].state) then |r.connect| == 1 && r.connect[0].id == i else r.connect == []
  {
    var l, r := Infos(t, sessions, agent), OneRun(t, sessions, agent);
    NothingWraps(t, sessions, agent);
    Optimality(t, sessions, agent);
    LeaderIsBest(t, sessions, agent, i);
    if Waiting(t[i].state) {
      assert l[i] in r.connect;
    }
    if r.connect != [] {
      assert r.connect[0] in r.connect;
      if r.connect[0] != l[i] { OnlyOneBest(l, l[i], r.connect[0]); }
    }
  }

  /** Of two waiting services with the same matches the one ahead is connected, wherever it stands. */
  lemma OfTwo(a: Slot, b: Slot, sessions: seq<Session>, agent: Option<string>)
    requires Waiting(a.state) && Waiting(b.state) && AheadOf(a, b) && AllCount([a, b], sessions, agent)
    requires Hits(a.service, sessions, agent) == Hits(b.service, sessions, agent) > 0
    ensures var r := OneRun([a, b], sessions, agent); |r.connect| == 1 && r.connect[0].id == 0
    ensures var r := OneRun([b, a], sessions, agent); |r.connect| == 1 && r.connect[0].id == 1
  {
    assert AllCount([b, a], sessions, agent) by {
      assert Counts([a, b][0].service, sessions, agent) && Counts([a, b][1].service, sessions, agent);
    }
    LeaderConnects([a, b], sessions, agent, 0);
    LeaderConnects([b, a], sessions, agent, 1);
  }

  /** A service without a match is never connected, and is told to disconnect if it is connected or broken. */
  lemma WithoutMatch(t: seq<Slot>, sessions: seq<Session>, agent: Option<string>, k: nat)
    requires AllCount(t, sessions, agent) && k < |t| && Hits(t[k].service, sessions, agent) == 0
    ensures var r := OneRun(t, sessions, agent);
      && (forall x :: x in r.connect ==> x.id != k)
      && ((exists x :: x in r.disconnect && x.id == k) <==> Connected(t[k].state) || Broken(t[k].state))
  {
    NothingWraps(t, sessions, agent);
    Optimality(t, sessions, agent);
    MatchesAreHits(t[k].service, sessions, agent);
    ScoreExact(t[k].service, t[k].state, sessions, agent);
    var l := Infos(t, sessions, agent);
    assert l[k] in l && l[k].score == 0;
    assert forall x :: x in l && x.id == k ==> x == l[k];
  }

  /** A service behind the leader is told to disconnect exactly if it is connected or broken. */
  lemma BehindDisconnects(t: seq<Slot>, sessions: seq<Session>, agent: Option<string>, i: nat, k: nat)
    requires AllCount(t, sessions, agent) && i < |t| && Leads(t, sessions, agent, i) && !Broken(t[i].state)
    requires k < |t| && k != i && AheadOf(t[i], t[k]) && Hits(t[k].service, sessions, agent) == Hits(t[i].service, sessions, agent)
    ensures (exists x :: x in OneRun(t, sessions, agent).disconnect && x.id == k) <==> Connected(t[k].state) || Broken(t[k].state)
  {
    NothingWraps(t, sessions, agent);
    Optimality(t, sessions, agent);
    LeaderIsBest(t, sessions, agent, i);
    AheadScores(t[i], t[k], sessions, agent);
    var l := Infos(t, sessions, agent);
    assert l[k] in l && Before(l[i], l[k]);
    assert forall x :: x in l && x.id == k ==> x == l[k];
  }

  /** The points of a match: twenty for being connected, six for a favorite, and five for the first bearer
      down to none for the last. */
  lemma ScoreIs(v: Service, s: ServiceState, sessions: seq<Session>, agent: Option<string>, i: nat)
    requires i < |KINDS| && KINDS[i] == v.kind
    ensures Score(v, s, sessions, agent)
      == Hits(v, sessions, agent) * ((if Connected(s) then 20 else 0) + (if v.favorite then 6 else 0) + (5 - i)) % 0x1_0000_0000
  {
    MatchesAreHits(v, sessions, agent);
  }
}
