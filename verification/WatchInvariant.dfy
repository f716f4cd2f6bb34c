/** What every call of the watch registry keeps, and what it changes. */
module WatchInvariant {
  import opened Lists
  import opened WatchModel

  // ---- one listener changes ----

  ghost predicate SameTarget(x: Listener, y: Listener) {
    BusRule(y.rule) == BusRule(x.rule) && y.rule.name == x.rule.name && y.handler == x.handler
  }

  /** Callbacks of `y` are those of `x`, or newer than `old`. */
  ghost predicate OldOrNew(x: Listener, y: Listener, before: nat) {
    forall c :: c in All(y) ==> c in All(x) || c.id > before
  }

  /** The state with one listener rewritten and ids counted up to `n`. */
  function Rewritten(s: State, d: nat, y: Listener, n: nat): State { s.(at := s.at[d := y], counter := n) }

  lemma RewriteApart(s: State, d: nat, y: Listener, n: nat, doomed: set<nat>)
    requires Core(s, doomed) && d in s.at && SameTarget(s.at[d], y) && OldOrNew(s.at[d], y, s.counter)
    requires s.counter <= n && y.nameWatch == s.at[d].nameWatch
    ensures forall e :: e in s.at && e != d ==> Apart(y, s.at[e]) && Apart(s.at[e], y)
    ensures forall e :: e in s.at ==> NameOk(s.at[e], y)
    ensures forall e :: e in s.at && e != d ==> NameOk(y, s.at[e])
    ensures NameOk(y, y)
  {
    var x := s.at[d];
    forall e | e in s.at && e != d ensures Apart(y, s.at[e]) && Apart(s.at[e], y) {
      assert Apart(x, s.at[e]) && ListenerOk(s.at[e], s.counter, e in doomed);
    }
    forall e | e in s.at ensures NameOk(s.at[e], y) {
      assert NameOk(s.at[e], x) && ListenerOk(s.at[e], s.counter, e in doomed);
    }
    forall e | e in s.at && e != d ensures NameOk(y, s.at[e]) { assert NameOk(x, s.at[e]); }
    assert NameOk(x, y);
  }

  lemma RewriteCore(s: State, d: nat, y: Listener, n: nat, doomed: set<nat>, more: set<nat>)
    requires Core(s, doomed) && d in s.at && SameTarget(s.at[d], y) && OldOrNew(s.at[d], y, s.counter)
    requires s.counter <= n < U32 && y.nameWatch == s.at[d].nameWatch && ListenerOk(y, n, d in more)
    requires forall e :: e in doomed && e != d ==> e in more
    ensures Core(Rewritten(s, d, y, n), more)
  {
    RewriteApart(s, d, y, n, doomed);
    var t := Rewritten(s, d, y, n);
    assert forall e :: e in t.at <==> e in s.at;
    assert AllOk(t.at, n, more) by {
      forall e | e in t.at ensures 1 <= e <= n && ListenerOk(t.at[e], n, e in more) {
        assert ListenerOk(s.at[e], s.counter, e in doomed);
      }
    }
    assert AllApart(t.at);
    assert AllNamed(t.at);
  }

  lemma {:induction false} SameRules(l: seq<nat>, a: map<nat, Listener>, b: map<nat, Listener>)
    requires forall d :: d in l ==> (d in a <==> d in b) && (d in a ==> BusRule(a[d].rule) == BusRule(b[d].rule))
    ensures BusRules(l, a) == BusRules(l, b)
  {
    if l != [] {
      SameRules(l[1..], a, b);
    }
  }

  lemma SameBooks(s: State, t: State)
    requires FilterOk(s) && RulesOk(s)
    requires t.order == s.order && t.filters == s.filters && t.rules == s.rules && t.at.Keys == s.at.Keys
    requires forall d :: d in s.at ==> BusRule(t.at[d].rule) == BusRule(s.at[d].rule) && t.at[d].rule.conn == s.at[d].rule.conn
    ensures FilterOk(t) && RulesOk(t)
  {
    SameRules(s.order, s.at, t.at);
    forall c ensures Listens(t, c) <==> Listens(s, c) {
      if Listens(s, c) { var d :| d in s.at && s.at[d].rule.conn == c; assert d in t.at; }
    }
  }

  lemma RewriteInv(s: State, d: nat, y: Listener, n: nat, doomed: set<nat>, more: set<nat>)
    requires Inv(s, doomed) && d in s.at && SameTarget(s.at[d], y) && OldOrNew(s.at[d], y, s.counter)
    requires s.counter <= n < U32 && y.nameWatch == s.at[d].nameWatch && ListenerOk(y, n, d in more)
    requires forall e :: e in doomed && e != d ==> e in more
    ensures Inv(Rewritten(s, d, y, n), more)
  {
    RewriteCore(s, d, y, n, doomed, more);
    SameBooks(s, Rewritten(s, d, y, n));
  }

  // ---- adding ----

  lemma PutOk(x: Listener, c: Callback, n: nat, doomed: bool)
    requires ListenerOk(x, n, doomed) && c.id == n + 1
    ensures ListenerOk(Put(x, c), n + 1, doomed) && OldOrNew(x, Put(x, c), n)
    ensures forall e :: e in All(Put(x, c)) <==> e in All(x) || e == c
  {
    var y := Put(x, c);
    if !x.lock {
      assert All(x) == x.callbacks && All(y) == x.callbacks + [c];
    } else {
      assert All(y) == All(x) + [c];
    }
    forall i, j | 0 <= i < j < |All(y)| ensures All(y)[i].id != All(y)[j].id {
      assert All(y)[i] in All(x);
      if j < |All(x)| { assert All(y)[j] == All(x)[j] && All(y)[i] == All(x)[i]; }
    }
  }

  lemma JoinInv(s: State, d: nat, c: Callback, doomed: set<nat>)
    requires Inv(s, doomed) && d in s.at && c.id == s.counter + 1 < U32
    ensures Inv(Rewritten(s, d, Put(s.at[d], c), c.id), doomed)
  {
    PutOk(s.at[d], c, s.counter, d in doomed);
    RewriteInv(s, d, Put(s.at[d], c), c.id, doomed, doomed);
  }

  function NewListener(rule: Rule, handler: Handler, c: Callback): Listener { Listener(rule, handler, [c], [], 0, false) }

  function Appended(s: State, x: Listener, n: nat): State {
    WithFilter(s, x.rule.conn).(counter := n, order := s.order + [n], at := s.at[n := x], rules := s.rules + multiset{BusRule(x.rule)})
  }

  lemma AppendCore(s: State, rule: Rule, handler: Handler, c: Callback, doomed: set<nat>)
    requires Core(s, doomed) && c.id == s.counter + 1 < U32 && Fits(rule, handler)
    ensures Core(Appended(s, NewListener(rule, handler, c), c.id), doomed)
  {
    var x, n := NewListener(rule, handler, c), c.id;
    assert All(x) == [c];
    assert n !in s.at && n !in s.order;
    AppendShape(s, n, s.at[n := x]);
    AppendApart(s, x, n, doomed);
  }

  lemma AppendShape(s: State, n: nat, at: map<nat, Listener>)
    requires Shape(s) && n !in s.order && at.Keys == s.at.Keys + {n}
    ensures NoDup(s.order + [n]) && forall d :: d in s.order + [n] <==> d in at
  {
  }

  lemma AppendApart(s: State, x: Listener, n: nat, doomed: set<nat>)
    requires Core(s, doomed) && n == s.counter + 1 && |x.callbacks| == 1 && x.callbacks[0].id == n
    requires x.processed == [] && x.nameWatch == 0 && All(x) == x.callbacks && Fits(x.rule, x.handler)
    ensures var at := s.at[n := x]; AllOk(at, n, doomed) && AllApart(at) && AllNamed(at)
  {
    var at := s.at[n := x];
    assert forall c :: c in All(x) ==> c.id == n;
    forall d | d in s.at ensures ListenerOk(s.at[d], n, d in doomed) && Apart(s.at[d], x) && Apart(x, s.at[d]) && NameOk(s.at[d], x) {
      assert ListenerOk(s.at[d], s.counter, d in doomed);
    }
    forall d, e | d in at && e in at && d != e ensures Apart(at[d], at[e]) {
      if d != n && e != n { assert Apart(s.at[d], s.at[e]); }
    }
    forall d, e | d in at && e in at ensures NameOk(at[d], at[e]) {
      if d != n && e != n { assert NameOk(s.at[d], s.at[e]); }
    }
  }

  lemma {:induction false} RulesSnoc(l: seq<nat>, at: map<nat, Listener>, d: nat)
    requires d in at
    ensures BusRules(l + [d], at) == BusRules(l, at) + multiset{BusRule(at[d].rule)}
  {
    if l == [] {
      assert l + [d] == [d];
    } else {
      assert (l + [d])[1..] == l[1..] + [d];
      RulesSnoc(l[1..], at, d);
    }
  }

  lemma AppendBooks(s: State, x: Listener, n: nat)
    requires FilterOk(s) && RulesOk(s) && n !in s.at && n !in s.order
    ensures FilterOk(Appended(s, x, n)) && RulesOk(Appended(s, x, n))
  {
    var t := Appended(s, x, n);
    RulesSnoc(s.order, t.at, n);
    SameRules(s.order, s.at, t.at);
    AppendListens(s, t, x, n);
    forall c ensures t.filters[c] == if Listens(t, c) then 1 else 0 { assert s.filters[c] == if Listens(s, c) then 1 else 0; }
  }

  lemma AppendListens(s: State, t: State, x: Listener, n: nat)
    requires n !in s.at && t.at == s.at[n := x]
    ensures forall c :: Listens(t, c) <==> Listens(s, c) || c == x.rule.conn
  {
    assert n in t.at && t.at[n].rule.conn == x.rule.conn;
    forall c ensures Listens(t, c) <==> Listens(s, c) || c == x.rule.conn {
      if Listens(s, c) { var d :| d in s.at && s.at[d].rule.conn == c; assert d in t.at && t.at[d] == s.at[d]; }
    }
  }

  /** One plain addition keeps the invariant. */
  lemma AddPlainInv(s: State, rule: Rule, handler: Handler, func: Func, doomed: set<nat>)
    requires Inv(s, doomed) && s.counter + 1 < U32 && Fits(rule, handler)
    ensures Inv(AddPlain(s, rule, handler, func), doomed) && AddPlain(s, rule, handler, func).counter == s.counter + 1
  {
    FindMatchIn(s, s.order, rule);
    var c := Callback(NextId(s), func);
    match FindMatch(s, s.order, rule)
    case Some(d) => JoinInv(s, d, c, doomed);
    case None =>
      AppendCore(s, rule, handler, c, doomed);
      AppendBooks(s, NewListener(rule, handler, c), c.id);
  }

  /** The callback `c` joined the listener `d`, perhaps a new one; everything else stays. */
  ghost predicate Joined(a: map<nat, Listener>, b: map<nat, Listener>, d: nat, c: Callback, rule: Rule, handler: Handler) {
    && d in b && b[d].rule == rule && b[d].handler == handler
    && a.Keys <= b.Keys <= a.Keys + {d}
    && (forall e :: e in a && e != d ==> b[e] == a[e])
    && (d in a ==> b[d] == Put(a[d], c)) && (d !in a ==> b[d] == NewListener(rule, handler, c))
  }

  lemma AddPlainNew(s: State, rule: Rule, handler: Handler, func: Func, doomed: set<nat>)
    requires AllOk(s.at, s.counter, doomed) && s.counter + 1 < U32 && Fits(rule, handler)
    ensures Joined(s.at, AddPlain(s, rule, handler, func).at, Slot(s, rule), Callback(NextId(s), func), rule, handler)
  {
    FindMatchIn(s, s.order, rule);
    var d, c := Slot(s, rule), Callback(NextId(s), func);
    if FindMatch(s, s.order, rule).Some? {
      assert ListenerOk(s.at[d], s.counter, d in doomed);
      assert AddPlain(s, rule, handler, func).at == s.at[d := Put(s.at[d], c)];
    } else {
      assert d !in s.at;
      assert AddPlain(s, rule, handler, func).at == s.at[d := NewListener(rule, handler, c)];
    }
  }

  lemma PutMembers(x: Listener, c: Callback)
    ensures forall e :: e in All(Put(x, c)) <==> e in All(x) || e == c
  {
  }

  function NameOn(s: State, d: nat, id: nat): State
    requires d in s.at
  {
    s.(at := s.at[d := s.at[d].(nameWatch := id)])
  }

  /** The internal watch is a silent callback of an owner-change listener. */
  ghost predicate Internal(at: map<nat, Listener>, id: nat) {
    forall e, c :: e in at && c in All(at[e]) && c.id == id ==>
      at[e].rule.name.None? && at[e].handler == ServiceFilter && c.func == SILENT
  }

  lemma NameOnInv(s: State, d: nat, id: nat, doomed: set<nat>)
    requires Inv(s, doomed) && d in s.at && s.at[d].rule.name.Some? && id <= s.counter && Internal(s.at, id)
    ensures Inv(NameOn(s, d, id), doomed)
  {
    var t := NameOn(s, d, id);
    SameLists(s.at, t.at, d, s.counter, doomed);
    assert AllNamed(t.at) by {
      forall e, f | e in t.at && f in t.at ensures NameOk(t.at[e], t.at[f]) {
        if e != d { assert NameOk(s.at[e], s.at[f]); }
      }
    }
    SameBooks(s, t);
  }

  /** Only the name watch of one listener differs. */
  lemma SameLists(a: map<nat, Listener>, b: map<nat, Listener>, d: nat, n: nat, doomed: set<nat>)
    requires AllOk(a, n, doomed) && AllApart(a) && d in a && d in b && b == a[d := a[d].(nameWatch := b[d].nameWatch)]
    requires b[d].nameWatch <= n && a[d].rule.name.Some?
    ensures AllOk(b, n, doomed) && AllApart(b)
    ensures forall e :: e in b ==> e in a && All(b[e]) == All(a[e])
  {
    forall e | e in b ensures e in a && All(b[e]) == All(a[e]) && ListenerOk(b[e], n, e in doomed) {
      assert ListenerOk(a[e], n, e in doomed);
      assert e != d ==> b[e] == a[e];
    }
    forall e, f | e in b && f in b && e != f ensures Apart(b[e], b[f]) { assert Apart(a[e], a[f]); }
  }

  lemma JoinedInternal(a: map<nat, Listener>, b: map<nat, Listener>, n: nat, doomed: set<nat>, d: nat, c: Callback, rule: Rule)
    requires AllOk(a, n, doomed) && Joined(a, b, d, c, rule, ServiceFilter) && c.id == n + 1 && c.func == SILENT && rule.name.None?
    ensures Internal(b, c.id)
  {
    forall e, f | e in b && f in All(b[e]) && f.id == c.id
      ensures b[e].rule.name.None? && b[e].handler == ServiceFilter && f.func == SILENT
    {
      if e in a {
        assert ListenerOk(a[e], n, e in doomed);
        PutMembers(a[e], c);
      }
    }
  }

  lemma WatchNameInv(s: State, d: nat, doomed: set<nat>)
    requires Inv(s, doomed) && s.counter + 1 < U32 && d in s.at
    ensures Inv(WatchName(s, d), doomed) && s.counter <= WatchName(s, d).counter <= s.counter + 1
  {
    var x := s.at[d];
    if x.rule.name.Some? && x.nameWatch == 0 {
      var rule := ServiceRule(x.rule.conn, x.rule.name.value);
      var t := AddPlain(s, rule, ServiceFilter, SILENT);
      AddPlainInv(s, rule, ServiceFilter, SILENT, doomed);
      AddPlainNew(s, rule, ServiceFilter, SILENT, doomed);
      JoinedInternal(s.at, t.at, s.counter, doomed, Slot(s, rule), Callback(NextId(s), SILENT), rule);
      assert d != Slot(s, rule);
      NameOnInv(t, d, NextId(s), doomed);
    }
  }

  lemma RequestFits(q: Request)
    ensures Fits(RuleOf(q), HandlerOf(q))
  {
    assert "PropertiesChanged"[0] != "NameOwnerChanged"[0];
  }

  /** Every addition keeps the registry in order. */
  lemma AddInv(s: State, q: Request, doomed: set<nat>)
    requires Inv(s, doomed) && s.counter + 2 < U32
    ensures Inv(Add(s, q), doomed) && s.counter < Add(s, q).counter <= s.counter + 2
  {
    RequestFits(q);
    AddPlainInv(s, RuleOf(q), HandlerOf(q), FuncOf(q), doomed);
    WatchNameInv(AddPlain(s, RuleOf(q), HandlerOf(q), FuncOf(q)), Slot(s, RuleOf(q)), doomed);
  }

  // ---- removing ----

  lemma {:induction false} RemoveIdConcat(a: seq<Callback>, b: seq<Callback>, id: nat)
    requires Distinct(a + b)
    ensures RemoveId(a, id) + RemoveId(b, id) == RemoveId(a + b, id)
  {
    if a == [] {
      assert a + b == b;
    } else {
      assert (a + b)[1..] == a[1..] + b && (a + b)[0] == a[0];
      if a[0].id == id {
        assert forall k :: 0 <= k < |b| ==> b[k] == (a + b)[|a| + k];
        RemoveIdAbsent(b, id);
      } else {
        assert forall i, j :: 0 <= i < j < |a[1..] + b| ==> (a[1..] + b)[i] == (a + b)[i + 1] && (a[1..] + b)[j] == (a + b)[j + 1];
        RemoveIdConcat(a[1..], b, id);
      }
    }
  }

  lemma {:induction false} RemoveIdAbsent(l: seq<Callback>, id: nat)
    requires forall k :: 0 <= k < |l| ==> l[k].id != id
    ensures RemoveId(l, id) == l
  {
    if l != [] {
      RemoveIdAbsent(l[1..], id);
    }
  }

  lemma {:induction false} RemoveIdMembers(l: seq<Callback>, id: nat)
    requires Distinct(l)
    ensures forall c :: c in RemoveId(l, id) <==> c in l && c.id != id
  {
    if l != [] {
      assert l == [l[0]] + l[1..];
      assert forall c :: c in l[1..] ==> c.id != l[0].id;
      if l[0].id != id {
        RemoveIdMembers(l[1..], id);
        assert RemoveId(l, id) == [l[0]] + RemoveId(l[1..], id);
      }
    }
  }

  lemma {:induction false} RemoveIdDistinct(l: seq<Callback>, id: nat)
    requires Distinct(l)
    ensures Distinct(RemoveId(l, id))
  {
    if l != [] && l[0].id != id {
      var r := RemoveId(l[1..], id);
      RemoveIdDistinct(l[1..], id);
      RemoveIdMembers(l[1..], id);
      forall j | 0 <= j < |r| ensures r[j].id != l[0].id { assert r[j] in r; }
    }
  }

  /** A callback leaves its listener, which may become empty. */
  lemma WithoutIdOk(x: Listener, id: nat, n: nat)
    requires ListenerOk(x, n, true)
    ensures ListenerOk(WithoutId(x, id), n, true)
    ensures forall c :: c in All(WithoutId(x, id)) <==> c in All(x) && c.id != id
  {
    RemoveIdConcat(x.callbacks, x.processed, id);
    RemoveIdMembers(All(x), id);
    RemoveIdDistinct(All(x), id);
  }

  lemma {:induction false} RulesMinus(l: seq<nat>, at: map<nat, Listener>, d: nat)
    requires d in l && d in at && NoDup(l)
    ensures BusRules(RemoveFirst(l, d), at - {d}) == BusRules(l, at) - multiset{BusRule(at[d].rule)}
  {
    if l[0] == d {
      assert d !in l[1..];
      SameRules(l[1..], at, at - {d});
    } else {
      RulesMinus(l[1..], at, d);
      RulesHave(l[1..], at, d);
      assert RemoveFirst(l, d)[1..] == RemoveFirst(l[1..], d);
    }
  }

  lemma {:induction false} RulesHave(l: seq<nat>, at: map<nat, Listener>, d: nat)
    requires d in l && d in at
    ensures BusRule(at[d].rule) in BusRules(l, at)
  {
    if l[0] != d {
      RulesHave(l[1..], at, d);
    }
  }

  lemma UnlistCore(s: State, d: nat, doomed: set<nat>)
    requires Core(s, doomed) && d in s.at
    ensures Core(Unlist(s, d), doomed - {d})
  {
    RemoveFirstNoDup(s.order, d);
    var t := Unlist(s, d);
    assert forall e :: e in t.at ==> e in s.at && t.at[e] == s.at[e];
    assert AllOk(t.at, t.counter, doomed - {d}) by {
      forall e | e in t.at ensures 1 <= e <= t.counter && ListenerOk(t.at[e], t.counter, e in doomed - {d}) {
        assert ListenerOk(s.at[e], s.counter, e in doomed);
      }
    }
  }

  lemma UnlistListens(s: State, t: State, d: nat)
    requires d in s.at && t.at == s.at - {d}
    ensures Listens(s, s.at[d].rule.conn) && forall c :: c != s.at[d].rule.conn ==> (Listens(t, c) <==> Listens(s, c))
  {
    forall c | c != s.at[d].rule.conn ensures Listens(t, c) <==> Listens(s, c) {
      if Listens(s, c) {
        var e :| e in s.at && s.at[e].rule.conn == c;
        assert e in t.at;
      }
    }
  }

  lemma UnlistFilter(s: State, d: nat)
    requires FilterOk(s) && d in s.at
    ensures FilterOk(Unlist(s, d))
  {
    var t := Unlist(s, d);
    UnlistListens(s, t, d);
    forall c ensures t.filters[c] == if Listens(t, c) then 1 else 0 { assert s.filters[c] == if Listens(s, c) then 1 else 0; }
  }

  lemma UnlistBooks(s: State, d: nat)
    requires Shape(s) && FilterOk(s) && RulesOk(s) && d in s.at
    ensures FilterOk(Unlist(s, d)) && RulesOk(Unlist(s, d))
  {
    UnlistFilter(s, d);
    RulesMinus(s.order, s.at, d);
  }

  lemma RemovedInv(s: State, d: nat, id: nat, doomed: set<nat>)
    requires Inv(s, doomed) && d in s.at
    ensures Inv(Rewritten(s, d, WithoutId(s.at[d], id), s.counter), doomed + {d})
    ensures var y := WithoutId(s.at[d], id);
      y.callbacks != [] || y.lock ==> Inv(Rewritten(s, d, y, s.counter), doomed)
  {
    var x, y := s.at[d], WithoutId(s.at[d], id);
    assert ListenerOk(x, s.counter, true) by { assert ListenerOk(x, s.counter, d in doomed); }
    WithoutIdOk(x, id, s.counter);
    RewriteInv(s, d, y, s.counter, doomed, doomed + {d});
    if y.callbacks != [] || y.lock {
      RewriteInv(s, d, y, s.counter, doomed, doomed);
    }
  }

  lemma UnlistInv(s: State, d: nat, doomed: set<nat>)
    requires Inv(s, doomed + {d}) && d in s.at
    ensures Inv(Unlist(s, d), doomed)
  {
    UnlistCore(s, d, doomed + {d});
    UnlistBooks(s, d);
    assert AllOk(Unlist(s, d).at, s.counter, doomed) by {
      forall e | e in Unlist(s, d).at ensures ListenerOk(Unlist(s, d).at[e], s.counter, e in doomed) {
        assert ListenerOk(Unlist(s, d).at[e], s.counter, e in doomed + {d} - {d});
      }
    }
  }

  /** Every removal keeps the registry in order, through all cascades. */
  lemma {:induction false} RemoveCallbackInv(s: State, d: nat, id: nat, doomed: set<nat>)
    requires Inv(s, doomed) && d in s.at
    ensures Inv(RemoveCallback(s, d, id), doomed) && RemoveCallback(s, d, id).counter == s.counter
    decreases |s.order|, 0
  {
    RemovedInv(s, d, id, doomed);
    var y := WithoutId(s.at[d], id);
    if y.callbacks == [] && !y.lock {
      var t := s.(at := s.at[d := y]);
      assert t == Rewritten(s, d, y, s.counter);
      UnlistInv(t, d, doomed);
      RemoveFirstShorter(s.order, d);
      RemoveWatchInv(Unlist(t, d), y.nameWatch, doomed);
    }
  }

  lemma {:induction false} RemoveWatchInv(s: State, id: nat, doomed: set<nat>)
    requires Inv(s, doomed)
    ensures Inv(RemoveWatch(s, id), doomed) && RemoveWatch(s, id).counter == s.counter
    decreases |s.order|, 1
  {
    HolderIn(s, s.order, id);
    if id != 0 && Holder(s, s.order, id).Some? {
      RemoveCallbackInv(s, Holder(s, s.order, id).value, id, doomed);
    }
  }
}
