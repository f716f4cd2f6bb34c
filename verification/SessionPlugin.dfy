/** The session policy plugin's service table and its scheduler, updated in place. */
module SessionPlugin {
  import opened Lists
  import opened SessionModel

  /** `struct service_info`; `place` is where the iteration over the service table meets it. */
  class ServiceInfo {
    const service: Service
    const place: nat
    var state: ServiceState
    var score: nat

    constructor (service: Service, place: nat)
      ensures this.service == service && this.place == place && state == UNKNOWN && score == 0
    {
      this.service := service;
      this.place := place;
      state := UNKNOWN;
      score := 0;
    }

    function View(): Info
      reads this
    {
      Info(place, service, state, score)
    }
  }

  function Views(l: seq<ServiceInfo>): (r: seq<Info>)
    reads l
    ensures |r| == |l| && forall k :: 0 <= k < |l| ==> r[k] == l[k].View()
  {
    seq(|l|, k requires 0 <= k < |l| reads l => l[k].View())
  }

  lemma {:induction false} ReverseAt<T>(s: seq<T>)
    ensures |Reverse(s)| == |s| && forall k :: 0 <= k < |s| ==> Reverse(s)[k] == s[|s| - 1 - k]
  {
    if s != [] {
      ReverseAt(s[1..]);
    }
  }

  lemma {:induction false} MatchesSnoc(v: Service, s: seq<Session>, p: Session, agent: Option<string>)
    ensures Matches(v, s + [p], agent)
      == Matches(v, s, agent) + if Considered(p, agent) && v.autoconnect then Count(p.bearers, v.kind) else 0
  {
    if s == [] {
      assert s + [p] == [p];
    } else {
      assert (s + [p])[1..] == s[1..] + [p];
      MatchesSnoc(v, s[1..], p, agent);
    }
  }

  lemma {:induction false} CountSnoc(b: seq<ServiceType>, x: ServiceType, k: ServiceType)
    ensures Count(b + [x], k) == Count(b, k) + if x == k then 1 else 0
  {
    if b == [] {
      assert b + [x] == [x];
    } else {
      assert (b + [x])[1..] == b[1..] + [x];
      CountSnoc(b[1..], x, k);
    }
  }

  lemma ViewsSplice(l: seq<ServiceInfo>, i: nat, x: ServiceInfo)
    requires i <= |l|
    ensures Views(l[..i] + [x] + l[i..]) == Views(l)[..i] + [x.View()] + Views(l)[i..]
  {
  }

  lemma {:induction false} InsertAt(y: Info, v: seq<Info>, i: nat)
    requires i <= |v| && forall j :: 0 <= j < i ==> Compare(y.score, v[j].score) > 0
    requires i == |v| || Compare(y.score, v[i].score) <= 0
    ensures Insert(y, v) == v[..i] + [y] + v[i..]
  {
    if i > 0 {
      InsertAt(y, v[1..], i - 1);
      assert v[..i] == [v[0]] + v[1..][..i - 1];
    }
  }

  /** One more match on the 32-bit field. */
  lemma AddMore(base: nat, m: nat, w: nat)
    ensures ((base + m * w) % U32 + w) % U32 == (base + (m + 1) * w) % U32
  {
    assert (m + 1) * w == m * w + w;
    ModAdd(base + m * w, w);
  }

  lemma ModAdd(a: nat, b: nat)
    ensures (a % U32 + b) % U32 == (a + b) % U32
  {
    var q, r := a / U32, a % U32;
    assert a + b == q * U32 + (r + b);
    ModShift(q, r + b);
  }

  lemma {:induction false} ModShift(q: nat, x: nat)
    ensures (q * U32 + x) % U32 == x % U32
  {
    if q > 0 {
      ModShift(q - 1, x);
      assert q * U32 + x == ((q - 1) * U32 + x) + U32;
    }
  }

  class Plugin {
    /** Values of the session table, in iteration order. */
    var sessionHash: seq<Session>
    /** Values of the service table, in iteration order. */
    var serviceHash: seq<ServiceInfo>
    var agentOwner: Option<string>
    var timeoutArmed: bool
    /** Orders handed to ConnMan so far. */
    var connects: seq<Info>
    var disconnects: seq<Info>

    constructor (agentOwner: Option<string>)
      ensures Valid() && sessionHash == [] && serviceHash == [] && this.agentOwner == agentOwner
      ensures !timeoutArmed && connects == [] && disconnects == []
    {
      sessionHash, serviceHash := [], [];
      this.agentOwner := agentOwner;
      timeoutArmed := false;
      connects, disconnects := [], [];
    }

    ghost predicate Valid()
      reads this, serviceHash
    {
      forall k :: 0 <= k < |serviceHash| ==> serviceHash[k].place == k
    }

    function Table(): (t: seq<Slot>)
      reads this, serviceHash
      ensures |t| == |serviceHash|
    {
      seq(|serviceHash|, k requires 0 <= k < |serviceHash| reads this, serviceHash =>
        Slot(serviceHash[k].service, serviceHash[k].state))
    }

    /** `calc_service_score`: adds the weight of every match to the service's 32-bit score. */
    method CalcServiceScore(info: ServiceInfo)
      requires info.score < U32
      modifies info`score
      ensures info.score == (old(info.score) + RawScore(info.service, info.state, sessionHash, agentOwner)) % U32
    {
      ghost var base := info.score;
      ghost var w := Weight(info.service, info.state);
      ghost var v := info.service;
      var i := 0;
      while i < |sessionHash|
        invariant i <= |sessionHash|
        invariant info.score == (base + Matches(v, sessionHash[..i], agentOwner) * w) % U32
      {
        var policy := sessionHash[i];
        MatchesSnoc(v, sessionHash[..i], policy, agentOwner);
        assert sessionHash[..i + 1] == sessionHash[..i] + [policy];
        i := i + 1;
        if !policy.active { continue; }
        if agentOwner == Some(policy.owner) { continue; }
        AddBearers(info, policy.bearers, base, Matches(v, sessionHash[..i - 1], agentOwner));
      }
      assert sessionHash[..i] == sessionHash;
    }

    /** The inner loop: one session's bearers, after `before` matches. */
    method AddBearers(info: ServiceInfo, bearers: seq<ServiceType>, ghost base: nat, ghost before: nat)
      requires info.score == (base + before * Weight(info.service, info.state)) % U32
      modifies info`score
      ensures info.score == (base + (before + if info.service.autoconnect then Count(bearers, info.service.kind) else 0)
        * Weight(info.service, info.state)) % U32
    {
      ghost var v := info.service;
      ghost var w := Weight(v, info.state);
      ghost var m := before;
      var j := 0;
      while j < |bearers|
        invariant 0 <= j <= |bearers|
        invariant m == before + if v.autoconnect then Count(bearers[..j], v.kind) else 0
        invariant info.score == (base + m * w) % U32
      {
        var kind := bearers[j];
        CountSnoc(bearers[..j], kind, v.kind);
        assert bearers[..j + 1] == bearers[..j] + [kind];
        j := j + 1;
        if kind != info.service.kind { continue; }
        if !info.service.autoconnect { continue; }
        AddMore(base, m, w);
        AddWeights(info, kind);
        m := m + 1;
      }
      assert bearers[..j] == bearers;
    }

    /** The three increments of one match. */
    method AddWeights(info: ServiceInfo, kind: ServiceType)
      requires kind == info.service.kind && info.score < U32
      modifies info`score
      ensures info.score == (old(info.score) + Weight(info.service, info.state)) % U32
    {
      ghost var base := info.score;
      ghost var sum := 0;
      if info.state == READY || info.state == ONLINE {
        info.score := (info.score + 20) % U32;
        sum := 20;
      }
      if info.service.favorite {
        ModAdd(base + sum, 6);
        info.score := (info.score + 6) % U32;
        sum := sum + 6;
      }
      ModAdd(base + sum, TypeWeight(kind));
      AddTypeWeight(info, kind);
    }

    method AddTypeWeight(info: ServiceInfo, kind: ServiceType)
      requires info.score < U32
      modifies info`score
      ensures info.score == (old(info.score) + TypeWeight(kind)) % U32
    {
      match kind {
        case ETHERNET => info.score := (info.score + 5) % U32;
        case GADGET => info.score := (info.score + 4) % U32;
        case WIFI => info.score := (info.score + 3) % U32;
        case BLUETOOTH => info.score := (info.score + 2) % U32;
        case CELLULAR => info.score := (info.score + 1) % U32;
        case OTHER_TYPE =>
      }
    }

    /** `g_list_sort` with `sort_services`, by stable insertion. */
    method SortServices(l: seq<ServiceInfo>) returns (r: seq<ServiceInfo>)
      ensures Views(r) == Sort(Views(l))
    {
      ghost var v := Views(l);
      r := [];
      var i := |l|;
      assert v[i..] == [];
      while i > 0
        invariant 0 <= i <= |l|
        invariant Views(r) == Sort(v[i..])
      {
        i := i - 1;
        assert v[i..][1..] == v[i + 1..];
        r := InsertService(l[i], r);
      }
      assert v[0..] == v;
    }

    method InsertService(x: ServiceInfo, l: seq<ServiceInfo>) returns (r: seq<ServiceInfo>)
      ensures Views(r) == Insert(x.View(), Views(l))
    {
      var i := 0;
      while i < |l| && Compare(x.score, l[i].score) > 0
        invariant 0 <= i <= |l|
        invariant forall j :: 0 <= j < i ==> Compare(x.score, l[j].score) > 0
      {
        i := i + 1;
      }
      InsertAt(x.View(), Views(l), i);
      ViewsSplice(l, i, x);
      r := l[..i] + [x] + l[i..];
    }

    /** `run_session_connect`: every score is recomputed, and the orders given are those of the model's run. */
    method RunSessionConnect() returns (again: bool)
      requires Valid()
      modifies this`timeoutArmed, this`connects, this`disconnects, serviceHash`score
      ensures Valid() && !again && !timeoutArmed
      ensures Table() == old(Table())
      ensures Views(serviceHash) == Infos(Table(), sessionHash, agentOwner)
      ensures var o := OneRun(Table(), sessionHash, agentOwner);
        connects == old(connects) + o.connect && disconnects == old(disconnects) + o.disconnect
    {
      timeoutArmed := false;
      var services := Rescore();
      services := SortServices(services);
      Order(services);
      again := false;
    }

    /** The first loop: fresh scores for all services, collected by prepending. */
    method Rescore() returns (services: seq<ServiceInfo>)
      requires Valid()
      modifies serviceHash`score
      ensures Valid() && Table() == old(Table())
      ensures Views(serviceHash) == Infos(Table(), sessionHash, agentOwner)
      ensures Views(services) == Reverse(Infos(Table(), sessionHash, agentOwner))
    {
      ghost var t := Table();
      ghost var l := Infos(t, sessionHash, agentOwner);
      services := [];
      var i := 0;
      while i < |serviceHash|
        invariant 0 <= i <= |serviceHash|
        invariant |services| == i && forall k :: 0 <= k < i ==> services[k] == serviceHash[i - 1 - k]
        invariant forall k :: 0 <= k < i ==> serviceHash[k].score == l[k].score
      {
        var info := serviceHash[i];
        info.score := 0;
        CalcServiceScore(info);
        services := [info] + services;
        i := i + 1;
      }
      assert Table() == t;
      ReverseAt(l);
    }

    /** The second loop: at most one connection, disconnection of the rest. */
    method Order(services: seq<ServiceInfo>)
      modifies this`connects, this`disconnects
      ensures var o := Walk(old(Views(services)), false);
        connects == old(connects) + o.connect && disconnects == old(disconnects) + o.disconnect
    {
      ghost var v := Views(services);
      ghost var o := Walk(v, false);
      assert v[0..] == v;
      var connect := false;
      var i := 0;
      while i < |services|
        invariant 0 <= i <= |services|
        invariant connects + Walk(v[i..], connect).connect == old(connects) + o.connect
        invariant disconnects + Walk(v[i..], connect).disconnect == old(disconnects) + o.disconnect
      {
        var info := services[i];
        assert v[i..][1..] == v[i + 1..];
        assert v[i] == info.View();
        if !connect && info.score != 0 {
          match info.state {
            case UNKNOWN | IDLE =>
              connects := connects + [info.View()];
              connect := true;
            case ASSOCIATION | CONFIGURATION | READY | ONLINE =>
              connect := true;
            case DISCONNECT | FAILURE =>
          }
        } else if AtLeastReady(info.state) {
          disconnects := disconnects + [info.View()];
        }
        i := i + 1;
      }
    }

    /** `policy_pold_autoconnect`: arms the timer unless it already is, and never connects by itself. */
    method Autoconnect(session: bool) returns (r: bool)
      modifies this`timeoutArmed
      ensures !r && timeoutArmed == (old(timeoutArmed) || session)
    {
      if session && !timeoutArmed {
        timeoutArmed := true;
      }
      r := false;
    }
  }
}
