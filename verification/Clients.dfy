/** Clients follow the stream: a subscriber never knows more interfaces than were announced, and
    from its first GetManagedObjects reply on it knows exactly those. */
module Clients {
  import opened Lists
  import opened Paths
  import opened DBusValues
  import opened ObjectModel
  import opened ObjectTree
  import opened Observers
  import opened Published
  import opened ServerInvariant
  import opened ServerApi

  function Visible(names: set<string>): set<string> { set n | n in names && !Builtin(n) }

  /** A signal or a message without bearing on the tree. */
  predicate Plain(m: Msg) { m.Added? || m.Removed? || m.Changed? || m.Other? }

  predicate AllPlain(ms: seq<Msg>) { forall k :: 0 <= k < |ms| ==> Plain(ms[k]) }

  /** A client that knows `v` where `t` has been announced; only names in `base` may be missing. */
  ghost predicate Tracks(v: PathView, t: PathView, base: set<string>) {
    v.Keys <= Visible(t.Keys) <= v.Keys + base
  }

  lemma HearTracks(v: PathView, t: PathView, base: set<string>, p: Path, m: Msg)
    requires Tracks(v, t, base)
    ensures Tracks(Hear(true, v, p, m), Hear(false, t, p, m), base)
  {
    match m
    case Added(q, es) => AddedTracks(v, t, base, es);
    case Removed(q, names) =>
      FewerTracked(v.Keys, t.Keys, base, ToSet(names));
      assert (v - ToSet(names)).Keys == v.Keys - ToSet(names) && (t - ToSet(names)).Keys == t.Keys - ToSet(names);
    case Changed(q, i, c, gone) =>
      SameKeys(v, p, m);
      SameKeys(t, p, m);
    case _ =>
  }

  lemma SameKeys(v: PathView, p: Path, m: Msg)
    requires m.Changed?
    ensures Hear(true, v, p, m).Keys == v.Keys && Hear(false, v, p, m).Keys == v.Keys
  {
  }

  lemma AddedTracks(v: PathView, t: PathView, base: set<string>, es: seq<IfaceEntry>)
    requires Tracks(v, t, base)
    ensures Tracks(HearIfaces(true, v, es), HearIfaces(false, t, es), base)
  {
    HearIfacesKeys(true, v, es);
    HearIfacesKeys(false, t, es);
    var names := ToSet(EntryNames(es));
    assert HearIfaces(true, v, es).Keys == v.Keys + Visible(names);
    assert HearIfaces(false, t, es).Keys == t.Keys + names;
    MoreTracked(v.Keys, t.Keys, base, names);
  }

  lemma MoreTracked(v: set<string>, t: set<string>, base: set<string>, names: set<string>)
    requires v <= Visible(t) <= v + base
    ensures v + Visible(names) <= Visible(t + names) <= v + Visible(names) + base
  {
    forall n ensures n in v + Visible(names) ==> n in Visible(t + names) { assert n in v ==> n in Visible(t); }
    forall n ensures n in Visible(t + names) ==> n in v + Visible(names) + base { assert n in Visible(t) ==> n in v + base; }
  }

  lemma FewerTracked(v: set<string>, t: set<string>, base: set<string>, names: set<string>)
    requires v <= Visible(t) <= v + base
    ensures v - names <= Visible(t - names) <= v - names + base
  {
    forall n ensures n in v - names ==> n in Visible(t - names) { assert n in v ==> n in Visible(t); }
    forall n ensures n in Visible(t - names) ==> n in v - names + base { assert n in Visible(t) ==> n in v + base; }
  }

  lemma {:induction false} HearAllTracks(v: PathView, t: PathView, base: set<string>, p: Path, ms: seq<Msg>)
    requires Tracks(v, t, base)
    ensures Tracks(HearAll(true, v, p, ms), HearAll(false, t, p, ms), base)
  {
    if ms != [] {
      var n := |ms| - 1;
      HearAllTracks(v, t, base, p, ms[..n]);
      HearTracks(HearAll(true, v, p, ms[..n]), HearAll(false, t, p, ms[..n]), base, p, ms[n]);
    }
  }

  /** A subscribed client hears plain messages as any observer does. */
  lemma {:induction false} ClientPlain(out: seq<Msg>, ms: seq<Msg>, c: nat, p: Path)
    requires AllPlain(ms)
    ensures var before := Client(out, c, p); var after := Client(out + ms, c, p);
      && after.on == before.on && after.synced == before.synced
      && after.view == if before.on then HearAll(true, before.view, p, ms) else before.view
  {
    if ms == [] {
      assert out + ms == out;
    } else {
      var n := |ms| - 1;
      assert (out + ms)[..|out + ms| - 1] == out + ms[..n];
      assert Plain(ms[n]);
      ClientPlain(out, ms[..n], c, p);
    }
  }

  lemma ClientLast(out: seq<Msg>, m: Msg, c: nat, p: Path)
    ensures Client(out + [m], c, p) == ClientHear(Client(out, c, p), c, p, m)
  {
    assert (out + [m])[..|out + [m]| - 1] == out;
  }

  /** Every subscriber's set of interfaces, on every path. */
  ghost predicate ClientOk(out: seq<Msg>, c: nat, p: Path) {
    var cv := Client(out, c, p);
    cv.on ==> Tracks(cv.view, Told(out, p), if cv.synced then {} else Visible(Told(out, p).Keys))
  }

  ghost predicate InStep(out: seq<Msg>) { forall c: nat, p: Path :: ClientOk(out, c, p) }

  lemma PlainKeepsStep(out: seq<Msg>, ms: seq<Msg>)
    requires InStep(out) && AllPlain(ms)
    ensures InStep(out + ms)
  {
    forall c: nat, p: Path ensures ClientOk(out + ms, c, p) {
      assert ClientOk(out, c, p);
      ClientPlain(out, ms, c, p);
      HearAllConcat(false, map[], p, out, ms);
      var cv := Client(out, c, p);
      if cv.on {
        HearAllTracks(cv.view, Told(out, p), if cv.synced then {} else Visible(Told(out, p).Keys), p, ms);
      }
    }
  }

  lemma SubscribeKeepsStep(out: seq<Msg>, d: nat)
    requires InStep(out)
    ensures InStep(out + [Subscribed(d)])
  {
    forall c: nat, p: Path ensures ClientOk(out + [Subscribed(d)], c, p) {
      assert ClientOk(out, c, p);
      ClientLast(out, Subscribed(d), c, p);
      ToldSilent(out, [Subscribed(d)], p);
    }
  }

  // ---- the stream only grows ----

  ghost predicate Grows(s: State, s': State) {
    s.out <= s'.out && AllPlain(s'.out[|s.out|..])
  }

  lemma GrowsBy(s: State, s': State, ms: seq<Msg>)
    requires s'.out == s.out + ms && AllPlain(ms)
    ensures Grows(s, s')
  {
    assert s'.out[|s.out|..] == ms;
  }

  lemma GrowsTrans(a: State, b: State, c: State)
    requires Grows(a, b) && Grows(b, c)
    ensures Grows(a, c)
  {
    var x, y := b.out[|a.out|..], c.out[|b.out|..];
    assert c.out == a.out + (x + y);
    GrowsBy(a, c, x + y);
  }

  lemma GrowsKeepsStep(s: State, s': State)
    requires InStep(s.out) && Grows(s, s')
    ensures InStep(s'.out)
  {
    assert s'.out == s.out + s'.out[|s.out|..];
    PlainKeepsStep(s.out, s'.out[|s.out|..]);
  }

  /** Everything sent concerns the tree below `p` at `p` itself. */
  ghost predicate GrowsAt(s: State, s': State, p: Path) {
    s.out <= s'.out && forall k :: |s.out| <= k < |s'.out| ==> About(s'.out[k], p)
  }

  lemma GrowsAtBy(s: State, s': State, p: Path, ms: seq<Msg>)
    requires s'.out == s.out + ms && forall k :: 0 <= k < |ms| ==> About(ms[k], p)
    ensures GrowsAt(s, s', p)
  {
  }

  lemma GrowsAtTrans(a: State, b: State, c: State, p: Path)
    requires GrowsAt(a, b, p) && GrowsAt(b, c, p)
    ensures GrowsAt(a, c, p)
  {
    assert forall k :: 0 <= k < |b.out| ==> c.out[k] == b.out[k];
  }

  lemma GrowsAtGrows(s: State, s': State, p: Path)
    requires GrowsAt(s, s', p)
    ensures Grows(s, s')
  {
    var ms := s'.out[|s.out|..];
    assert forall k :: 0 <= k < |ms| ==> ms[k] == s'.out[|s.out| + k];
  }

  lemma GrowsAtTold(s: State, s': State, p: Path, q: Path)
    requires GrowsAt(s, s', p) && q != p
    ensures Told(s'.out, q) == Told(s.out, q)
  {
    var ms := s'.out[|s.out|..];
    assert s'.out == s.out + ms;
    assert forall k :: 0 <= k < |ms| ==> ms[k] == s'.out[|s.out| + k];
    ToldSilent(s.out, ms, q);
  }

  lemma ProcessGrows(s: State, p: Path)
    requires p in s.reg
    ensures GrowsAt(s, ProcessChanges(s, p), p)
  {
    AllChangedAbout(p, s.reg[p].ifaces);
    GrowsAtBy(s, ProcessChanges(s, p), p, Processed(s.reg[p], p, Quiet(s, p), s.enabled).1);
  }

  lemma {:induction false} FlushListGrows(s: State, dirty: seq<Path>)
    ensures Grows(s, FlushList(s, dirty))
    decreases dirty
  {
    if dirty == [] {
      GrowsBy(s, s, []);
    } else if dirty[0] in s.reg {
      var s1 := ProcessChanges(s, dirty[0]);
      ProcessGrows(s, dirty[0]);
      GrowsAtGrows(s, s1, dirty[0]);
      FlushListGrows(s1, dirty[1..]);
      GrowsTrans(s, s1, FlushList(s1, dirty[1..]));
    } else {
      FlushListGrows(s, dirty[1..]);
    }
  }

  lemma RemoveGrows(s: State, p: Path, name: string)
    requires p in s.reg
    ensures GrowsAt(s, RemoveInterface(s, p, name).0, p)
  {
    var o := s.reg[p];
    if Has(o.ifaces, name) {
      RemoveInterfaceEffect(s, p, name);
      GrowsAtBy(s, RemoveInterface(s, p, name).0, p, ChangedMsgs(p, o.ifaces[Index(o.ifaces, name)]));
    } else {
      GrowsAtBy(s, s, p, []);
    }
  }

  lemma LeaveGrows(s: State, p: Path)
    requires p in s.reg
    ensures GrowsAt(s, Leave(s, p), p)
  {
    var s1 := s.(reg := Invalidate(s.reg, p).0);
    var up := s1.reg[p].parent;
    var s2 := if up.Some? && up.value in s1.reg
              then s1.(reg := s1.reg[up.value := s1.reg[up.value].(children := RemoveFirst(s1.reg[up.value].children, p))])
              else s1;
    if s2.reg[p].queued { ProcessGrows(s2, p); } else { GrowsAtBy(s, s2, p, []); }
  }

  lemma PathUnrefGrows(s: State, p: Path)
    ensures GrowsAt(s, PathUnref(s, p), p)
  {
    GrowsAtBy(s, s, p, []);
    if p in s.reg && s.reg[p].refcount <= 1 {
      DismantleGrows(s.(reg := s.reg[p := s.reg[p].(refcount := s.reg[p].refcount - 1)]), p);
    }
  }

  lemma DismantleGrows(s: State, p: Path)
    requires p in s.reg
    ensures GrowsAt(s, Dismantle(s, p), p)
  {
    var s1 := RemoveInterface(s, p, INTROSPECTABLE).0;
    var s2 := RemoveInterface(s1, p, PROPERTIES).0;
    RemoveGrows(s, p, INTROSPECTABLE);
    RemoveGrows(s1, p, PROPERTIES);
    LeaveGrows(s2, p);
    GrowsAtTrans(s, s1, s2, p);
    GrowsAtTrans(s, s2, Leave(s2, p), p);
  }

  /** Taking a reference and adding interfaces send nothing. */
  lemma PathRefQuiet(s: State, p: Path)
    ensures PathRef(s, p).out == s.out
  {
  }

  lemma GrownQuiet(s: State, p: Path, name: string, t: Table, data: map<string, DValue>)
    requires p in s.reg
    ensures Grown(s, p, name, t, data).out == s.out
  {
  }

  lemma RegisterGrows(s: State, p: Path, name: string, t: Table, data: map<string, DValue>)
    ensures GrowsAt(s, Register(s, p, name, t, data).0, p)
  {
    var s1 := PathRef(s, p);
    PathRefQuiet(s, p);
    GrowsAtBy(s, s1, p, []);
    if Register(s, p, name, t, data).1 {
      GrownQuiet(s1, p, name, t, data);
      GrowsAtBy(s, Register(s, p, name, t, data).0, p, []);
    } else {
      PathUnrefGrows(s1, p);
      GrowsAtTrans(s, s1, PathUnref(s1, p), p);
    }
  }

  lemma UnregisterGrows(s: State, p: Path, name: string)
    ensures GrowsAt(s, Unregister(s, p, name).0, p)
  {
    GrowsAtBy(s, s, p, []);
    if p in s.reg && RemoveInterface(s, p, name).1 {
      var s1 := RemoveInterface(s, p, name).0;
      var s2 := s1.(reg := s1.reg[p := s1.reg[p].(introspect := None)]);
      RemoveGrows(s, p, name);
      PathUnrefGrows(s2, p);
      GrowsAtBy(s1, s2, p, []);
      GrowsAtTrans(s, s1, s2, p);
      GrowsAtTrans(s, s2, PathUnref(s2, p), p);
    }
  }

  // ---- the reply to GetManagedObjects ----

  lemma {:induction false} PublishedNames(ifaces: seq<Iface>, added: seq<string>, enabled: bool)
    ensures ToSet(EntryNames(PublishedEntries(ifaces, added, enabled))) == NameSet(ifaces) - ToSet(added)
  {
    if ifaces != [] {
      PublishedNames(ifaces[1..], added, enabled);
      var es, rest := PublishedEntries(ifaces, added, enabled), PublishedEntries(ifaces[1..], added, enabled);
      NameSetPrepend(ifaces);
      if ifaces[0].name in added {
        assert es == rest;
      } else {
        assert es == [EntryOf(ifaces[0], enabled)] + rest;
        assert EntryNames(es) == [ifaces[0].name] + EntryNames(rest);
      }
      forall n ensures n in EntryNames(es) <==> n in NameSet(ifaces) && n !in added {
        assert n in EntryNames(rest) <==> n in ToSet(EntryNames(rest));
      }
    }
  }

  lemma NameSetPrepend(ifaces: seq<Iface>)
    requires ifaces != []
    ensures NameSet(ifaces) == {ifaces[0].name} + NameSet(ifaces[1..])
  {
    forall n ensures n in NameSet(ifaces) <==> n == ifaces[0].name || n in NameSet(ifaces[1..]) {
      if n in NameSet(ifaces) && n != ifaces[0].name { assert ifaces[1..][Index(ifaces, n) - 1].name == n; }
    }
  }

  predicate DistinctPaths(objs: seq<ObjEntry>) {
    forall i, j :: 0 <= i < j < |objs| ==> objs[i].path != objs[j].path
  }

  lemma {:induction false} LearnAbsent(v: PathView, p: Path, objs: seq<ObjEntry>)
    requires forall k :: 0 <= k < |objs| ==> objs[k].path != p
    ensures LearnObjects(v, p, objs) == v
    decreases objs
  {
    if objs != [] {
      assert objs[0].path != p;
      LearnAbsent(v, p, objs[1..]);
    }
  }

  /** A path listed once is learnt from its one entry. */
  lemma {:induction false} LearnOnce(v: PathView, p: Path, objs: seq<ObjEntry>, k: nat)
    requires DistinctPaths(objs) && k < |objs| && objs[k].path == p
    ensures LearnObjects(v, p, objs) == HearIfaces(true, v, objs[k].ifaces)
    decreases objs
  {
    if k == 0 {
      assert forall j :: 0 <= j < |objs[1..]| ==> objs[1..][j] == objs[j + 1];
      LearnAbsent(HearIfaces(true, v, objs[0].ifaces), p, objs[1..]);
    } else {
      assert objs[0].path != p;
      LearnOnce(v, p, objs[1..], k - 1);
    }
  }

  function Reply(s: State): seq<ObjEntry>
    requires ROOT in s.reg
  {
    WalkEntries(s, ROOT, s.reg[ROOT].children)
  }

  /** The reply lists every registered path below the root exactly once, with its published interfaces. */
  lemma ReplyLists(s: State, p: Path) returns (k: nat)
    requires Inv(s)
    ensures DistinctPaths(Reply(s))
    ensures p in s.reg && p != ROOT ==>
      k < |Reply(s)| && Reply(s)[k] == ObjEntry(p, PublishedEntries(s.reg[p].ifaces, s.reg[p].added, s.enabled))
    ensures p !in s.reg || p == ROOT ==> forall j :: 0 <= j < |Reply(s)| ==> Reply(s)[j].path != p
  {
    WalkVisitsOnce(s.reg, ROOT);
    WalkRegistered(s.reg, ROOT, s.reg[ROOT].children);
    var w := Walk(s.reg, ROOT, s.reg[ROOT].children);
    NotOwnAncestor(ROOT);
    assert forall j :: 0 <= j < |w| ==> w[j] in w;
    k := 0;
    if p in s.reg && p != ROOT {
      assert PathOk(s, p);
      RootAboveAll(p);
      k :| 0 <= k < |w| && w[k] == p;
    }
  }

  /** What a client that was tracking learns from the reply: with the flush behind it, it now knows
      exactly the announced interfaces, although the reply itself left the queued ones out. */
  lemma ReplySyncs(s: State, v: PathView, p: Path)
    requires Good(s)
    requires Tracks(v, Told(Flush(s).out, p), Visible(Told(s.out, p).Keys))
    ensures Tracks(LearnObjects(v, p, Reply(s)), Told(Flush(s).out, p), {})
  {
    FlushKeeps(s);
    var s1 := Flush(s);
    assert PathOk(s, p) && PathOk(s1, p);
    var k := ReplyLists(s, p);
    if p in s.reg && p != ROOT {
      LearnOnce(v, p, Reply(s), k);
      FlushedTold(s1.reg[p], Told(s1.out, p));
      EntriesSync(s.reg[p], v, Told(s.out, p), Told(s1.out, p), s.enabled);
    } else {
      LearnAbsent(v, p, Reply(s));
    }
  }

  lemma FlushedTold(o: Obj, told: PathView)
    requires Consistent(o, told) && !HasWork(o)
    ensures told.Keys == NameSet(o.ifaces)
  {
  }

  lemma EntriesSync(o: Obj, v: PathView, before: PathView, after: PathView, enabled: bool)
    requires Consistent(o, before) && after.Keys == NameSet(o.ifaces)
    requires Tracks(v, after, Visible(before.Keys))
    ensures Tracks(HearIfaces(true, v, PublishedEntries(o.ifaces, o.added, enabled)), after, {})
  {
    var es := PublishedEntries(o.ifaces, o.added, enabled);
    HearIfacesKeys(true, v, es);
    PublishedNames(o.ifaces, o.added, enabled);
    assert (set n | n in EntryNames(es) && !(true && Builtin(n))) == Visible(ToSet(EntryNames(es)));
    SyncedKeys(v.Keys, NameSet(o.ifaces), ToSet(o.added), ToSet(o.removed));
  }

  lemma SyncedKeys(v: set<string>, names: set<string>, added: set<string>, removed: set<string>)
    requires added <= names && removed !! names
    requires v <= Visible(names) <= v + Visible(names - added + removed)
    ensures v + Visible(names - added) == Visible(names)
  {
  }

  lemma GetObjectsKeepsStep(s: State, d: nat)
    requires Good(s) && InStep(s.out)
    ensures InStep(GetObjects(s, d).out)
  {
    FlushListGrows(s, s.pending);
    var s1 := Flush(s);
    GrowsKeepsStep(s, s1);
    var m := ManagedObjects(d, Reply(s));
    assert GetObjects(s, d).out == s1.out + [m];
    forall c: nat, p: Path ensures ClientOk(s1.out + [m], c, p) {
      ReplyKeepsClient(s, d, c, p);
    }
  }

  lemma ReplyKeepsClient(s: State, d: nat, c: nat, p: Path)
    requires Good(s) && ClientOk(s.out, c, p) && ClientOk(Flush(s).out, c, p)
    ensures ClientOk(Flush(s).out + [ManagedObjects(d, Reply(s))], c, p)
  {
    var s1 := Flush(s);
    var m := ManagedObjects(d, Reply(s));
    ClientLast(s1.out, m, c, p);
    ToldSilent(s1.out, [m], p);
    if c == d && Client(s1.out, c, p).on {
      FlushListGrows(s, s.pending);
      var ms := s1.out[|s.out|..];
      assert s1.out == s.out + ms;
      ClientPlain(s.out, ms, c, p);
      HearAllConcat(false, map[], p, s.out, ms);
      var v := Client(s.out, c, p).view;
      HearAllTracks(v, Told(s.out, p), Visible(Told(s.out, p).Keys), p, ms);
      ReplySyncs(s, Client(s1.out, c, p).view, p);
    }
  }
}
