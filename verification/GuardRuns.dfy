/** Runs in which one call does not meet its guard: what a synced client holds once the queue is flushed. */
module GuardRuns {
  import opened Lists
  import opened Paths
  import opened DBusValues
  import opened ObjectModel
  import opened ObjectTree
  import opened Observers
  import opened Published
  import opened PropertyValues
  import opened ServerInvariant
  import opened ServerCalls
  import opened ServerApi
  import opened Clients
  import opened ValueInvariant
  import opened ValueCalls
  import opened Guards
  import opened Runs

  // ---- one object through a flush ----

  /** A flush processes each object of the dirty list once. */
  lemma {:induction false} FlushListAt(s: State, dirty: seq<Path>, p: Path)
    requires NoDup(dirty) && p in s.reg && s.root == Some(ROOT) && p != ROOT
    ensures var s' := FlushList(s, dirty);
      var r := if p in dirty then Processed(s.reg[p], p, false, s.enabled) else (s.reg[p], []);
      p in s'.reg && s'.reg[p] == r.0 && Told(s'.out, p) == HearAll(false, Told(s.out, p), p, r.1)
    decreases dirty
  {
    if dirty != [] {
      var q, t := dirty[0], if dirty[0] in s.reg then ProcessChanges(s, dirty[0]) else s;
      assert dirty == [q] + dirty[1..];
      FlushOne(s, t, q, p);
      FlushListAt(t, dirty[1..], p);
    }
  }

  lemma FlushOne(s: State, t: State, q: Path, p: Path)
    requires p in s.reg && s.root == Some(ROOT) && p != ROOT && t == if q in s.reg then ProcessChanges(s, q) else s
    ensures t.root == s.root && t.enabled == s.enabled && p in t.reg
    ensures var r := if p == q then Processed(s.reg[p], p, false, s.enabled) else (s.reg[p], []);
      t.reg[p] == r.0 && Told(t.out, p) == HearAll(false, Told(s.out, p), p, r.1)
  {
    if q in s.reg {
      ProcessChangesLocal(s, q);
      var ms := Processed(s.reg[q], q, Quiet(s, q), s.enabled).1;
      if p == q { HearAllConcat(false, map[], p, s.out, ms); } else { ToldSilent(s.out, ms, p); }
    }
  }

  // ---- a name registered again while its withdrawal waits ----

  /** The object has its added interfaces, `removed` waits on it, and it is on the dirty list. */
  ghost predicate Withdrawing(s: State, p: Path, removed: seq<string>) {
    && Queue(s) && p in s.reg && s.reg[p].parent.Some? && s.reg[p].removed == removed
    && forall n :: n in s.reg[p].added ==> Has(s.reg[p].ifaces, n)
  }

  ghost predicate SameFrame(s: State, s': State) { s'.root == s.root && s'.enabled == s.enabled && s'.out == s.out }

  /** A successful registration on a path that is there keeps what waits to be withdrawn. */
  lemma RegisterOver(s: State, p: Path, name: string, t: Table, data: map<string, DValue>)
    requires Inv(s) && p in s.reg && p != ROOT && ObjectModel.Register(s, p, name, t, data).1
    ensures var s' := ObjectModel.Register(s, p, name, t, data).0;
      && Withdrawing(s', p, s.reg[p].removed) && SameFrame(s, s') && s'.reg[p].queued
      && NameSet(s'.reg[p].ifaces) >= {name}
  {
    var s1 := PathRef(s, p);
    PathRefOld(s, p);
    HasParent(s, p);
    assert PathOk(s1, p);
    AddedHere(s1.reg[p], Told(s1.out, p));
    GrownOver(s1, p, name, t, data);
    CacheOver(Grown(s1, p, name, t, data), p, s.reg[p].removed);
  }

  lemma CacheOver(s: State, p: Path, removed: seq<string>)
    requires Withdrawing(s, p, removed)
    ensures Withdrawing(s.(reg := s.reg[p := s.reg[p].(introspect := None)]), p, removed)
  {
  }

  lemma GrownOver(s: State, p: Path, name: string, t: Table, data: map<string, DValue>)
    requires p in s.reg && Withdrawing(s, p, s.reg[p].removed)
    ensures var s' := Grown(s, p, name, t, data);
      && Withdrawing(s', p, s.reg[p].removed) && SameFrame(s, s') && s'.reg[p].queued
      && NameSet(s'.reg[p].ifaces) >= {name}
  {
    AddOver(s, p, NewIface(name, t, data));
    var s2 := AddInterface(s, p, NewIface(name, t, data));
    if t.props.Some? && !Has(s2.reg[p].ifaces, PROPERTIES) { AddOver(s2, p, NewIface(PROPERTIES, PROPERTIES_TABLE, map[])); }
  }

  lemma AddedHere(o: Obj, told: PathView)
    requires Consistent(o, told)
    ensures forall n :: n in o.added ==> Has(o.ifaces, n)
  {
    forall n | n in o.added ensures Has(o.ifaces, n) { assert n in ToSet(o.added); }
  }

  lemma AddOver(s: State, p: Path, i: Iface)
    requires p in s.reg && Withdrawing(s, p, s.reg[p].removed)
    ensures var s' := AddInterface(s, p, i);
      && Withdrawing(s', p, s.reg[p].removed) && SameFrame(s, s') && s'.reg[p].queued
      && NameSet(s'.reg[p].ifaces) == NameSet(s.reg[p].ifaces) + {i.name}
  {
    AddInterfaceEffect(s, p, i);
    NameSetAppend(s.reg[p].ifaces, i);
    QueueAfterAdd(s, AddInterface(s, p, i), p);
    assert s.out + [] == s.out;
    var o := AddInterface(s, p, i).reg[p];
    forall n | n in o.added ensures Has(o.ifaces, n) { assert n == i.name || n in s.reg[p].added; assert n in NameSet(o.ifaces); }
  }

  /** Observers miss the live interface: its announcement goes out before its withdrawal. */
  lemma ReAddLoses(s: State, p: Path, name: string, t: Table, data: map<string, DValue>)
    requires Inv(s) && p in s.reg && p != ROOT && !Builtin(name) && ObjectModel.Register(s, p, name, t, data).1
    requires name in s.reg[p].removed
    ensures var s' := ObjectModel.Register(s, p, name, t, data).0; name in LiveNames(s', p) && name !in Told(Flush(s').out, p)
  {
    var s' := ObjectModel.Register(s, p, name, t, data).0;
    RegisterOver(s, p, name, t, data);
    assert p in s'.pending;
    FlushListAt(s', s'.pending, p);
    ToldAfterProcessing(s'.reg[p], p, Told(s'.out, p), s'.enabled);
    assert name in ToSet(s'.reg[p].removed);
  }

  /** What a registration on a surviving path leaves a synced client with: once the queue is flushed the
      client holds the live interfaces exactly if the name was not waiting to be withdrawn. */
  lemma ReAddCoherentIff(enabled: bool, acts: seq<Action>, p: Path, name: string, t: Table, data: map<string, DValue>, c: nat)
    requires Disciplined(enabled, acts) && p in Run(enabled, acts).reg && p != ROOT && !Builtin(name)
    requires ObjectModel.Register(Run(enabled, acts), p, name, t, data).1
    ensures var s' := Run(enabled, acts + [Action.Register(p, name, t, data)]); var cv := Client(Flush(s').out, c, p);
      cv.on && cv.synced ==> (cv.view.Keys == LiveNames(s', p) <==> name !in Run(enabled, acts).reg[p].removed)
  {
    var s, more := Run(enabled, acts), acts + [Action.Register(p, name, t, data)];
    RunGood(enabled, acts);
    assert PathOk(s, p);
    assert more[..|more| - 1] == acts;
    if name in s.reg[p].removed {
      RunInStep(enabled, acts);
      ReAddLoses(s, p, name, t, data);
      StepGrows(s, Action.Register(p, name, t, data));
      GrowsKeepsStep(s, Run(enabled, more));
      FlushedTracks(Run(enabled, more), c, p);
    } else {
      SetCoherence(enabled, more, c, p);
    }
  }

  lemma FlushedTracks(s: State, c: nat, p: Path)
    requires InStep(s.out)
    ensures var cv := Client(Flush(s).out, c, p); cv.on && cv.synced ==> cv.view.Keys == Visible(Told(Flush(s).out, p).Keys)
  {
    FlushListGrows(s, s.pending);
    GrowsKeepsStep(s, Flush(s));
    assert ClientOk(Flush(s).out, c, p);
  }

  // ---- a sibling removed while a change waits ----

  lemma AddedElsewhere(o: Obj, p: Path, told: PathView, name: string, enabled: bool)
    requires name !in o.added && forall n :: n in o.added ==> Has(o.ifaces, n)
    ensures var r := EmitAdded(o, p, false, enabled);
      Known(HearAll(false, told, p, r.1), name) == Known(told, name) && r.0.removed == o.removed && r.0.propFlag == o.propFlag
  {
    EntriesOfAll(o.ifaces, o.added, enabled);
    if o.added != [] {
      OneMessage(false, told, p, EmitAdded(o, p, false, enabled).1[0]);
      HearIfacesOther(false, told, EntriesOf(o.ifaces, o.added, enabled), name);
    }
  }

  lemma RemovedElsewhere(o: Obj, p: Path, told: PathView, name: string)
    requires name !in o.removed
    ensures Known(HearAll(false, told, p, EmitRemoved(o, p, false).1), name) == Known(told, name)
  {
    if o.removed != [] { OneMessage(false, told, p, Removed(p, o.removed)); }
  }

  /** Without the flag `process_changes` says nothing about an interface that is neither added nor removed. */
  lemma NothingAbout(o: Obj, p: Path, told: PathView, name: string, enabled: bool)
    requires !o.propFlag && name !in o.added && name !in o.removed && forall n :: n in o.added ==> Has(o.ifaces, n)
    ensures Known(HearAll(false, told, p, Processed(o, p, false, enabled).1), name) == Known(told, name)
  {
    var r := EmitAdded(o.(queued := false), p, false, enabled);
    AddedElsewhere(o.(queued := false), p, told, name, enabled);
    RemovedElsewhere(r.0, p, HearAll(false, told, p, r.1), name);
    HearAllConcat(false, told, p, r.1, EmitRemoved(r.0, p, false).1);
    assert r.1 + [] == r.1;
  }

  /** An interface goes while others of its object stay, and the queue is flushed. */
  lemma RemovalTells(s: State, p: Path, n: string, name: string)
    requires Good(s) && p in s.reg && p != ROOT && Has(s.reg[p].ifaces, n) && s.reg[p].refcount > 1
    requires name != n && Has(s.reg[p].ifaces, name) && name !in s.reg[p].added
    ensures Known(Told(Flush(ObjectModel.Unregister(s, p, n).0).out, p), name) == Known(Told(s.out, p), name)
  {
    AfterRemoval(s, p, n);
    assert PathOk(s, p);
    StaysNamed(s.reg[p], Told(s.out, p), n, name);
    FlushTells(ObjectModel.Unregister(s, p, n).0, p, name);
    LastWords(s.out, p, s.reg[p].ifaces[Index(s.reg[p].ifaces, n)], name);
  }

  lemma FlushTells(s: State, p: Path, name: string)
    requires p in s.reg && s.root == Some(ROOT) && p != ROOT && NoDup(s.pending)
    requires var o := s.reg[p];
      !o.propFlag && name !in o.added && name !in o.removed && forall n :: n in o.added ==> Has(o.ifaces, n)
    ensures Known(Told(Flush(s).out, p), name) == Known(Told(s.out, p), name)
  {
    FlushListAt(s, s.pending, p);
    NothingAbout(s.reg[p], p, Told(s.out, p), name, s.enabled);
  }

  /** The last changes of one interface do not concern another. */
  lemma LastWords(out: seq<Msg>, p: Path, i: Iface, name: string)
    requires i.name != name
    ensures Known(Told(out + ChangedMsgs(p, i), p), name) == Known(Told(out, p), name)
  {
    var ms := ChangedMsgs(p, i);
    HearAllConcat(false, map[], p, out, ms);
    if i.pending != [] { OneMessage(false, Told(out, p), p, ms[0]); }
  }

  lemma StaysNamed(o: Obj, told: PathView, n: string, name: string)
    requires Consistent(o, told) && Has(o.ifaces, n) && name != n && Has(o.ifaces, name) && name !in o.added
    ensures name !in WithoutInterface(o, n).removed && name !in WithoutInterface(o, n).added
    ensures forall m :: m in WithoutInterface(o, n).added ==> Has(WithoutInterface(o, n).ifaces, m)
  {
    assert name in NameSet(o.ifaces);
    RemoveFirstNoDup(o.added, n);
    NameSetDrop(o.ifaces, Index(o.ifaces, n));
    forall m | m in WithoutInterface(o, n).added ensures Has(WithoutInterface(o, n).ifaces, m) {
      assert m in ToSet(o.added) && m != n;
      assert m in NameSet(WithoutInterface(o, n).ifaces);
    }
  }

  /** The state between the removal and the flush. */
  lemma AfterRemoval(s: State, p: Path, n: string)
    requires Good(s) && p in s.reg && p != ROOT && Has(s.reg[p].ifaces, n) && s.reg[p].refcount > 1
    ensures var s', o, w := ObjectModel.Unregister(s, p, n).0, s.reg[p], WithoutInterface(s.reg[p], n);
      && p in s'.reg && s'.root == s.root && s'.enabled == s.enabled && NoDup(s'.pending)
      && s'.reg[p].ifaces == w.ifaces && s'.reg[p].added == w.added && s'.reg[p].removed == w.removed && !s'.reg[p].propFlag
      && s'.out == s.out + ChangedMsgs(p, o.ifaces[Index(o.ifaces, n)])
  {
    RemoveInterfaceEffect(s, p, n);
    RemoveInterfaceKeeps(s, p, n);
    HasParent(s, p);
  }

  /** The values queued for an interface are those that were announced anyway. */
  ghost predicate QueuedInVain(i: Iface, t: PropTable, enabled: bool) {
    forall q :: Waiting(i, q) ==> Agrees(i, t, q, enabled)
  }

  lemma VainIsLive(p: Path, i: Iface, t: PropTable, enabled: bool)
    requires Fresh(p, i, t, {}, enabled)
    ensures LiveTable(i, t, enabled) <==> QueuedInVain(i, t, enabled)
  {
    if QueuedInVain(i, t, enabled) {
      forall q ensures Look(t, q) == Now(i, q, enabled) { assert Agrees(i, t, q, enabled) || Waiting(i, q); }
    }
    if LiveTable(i, t, enabled) {
      forall q ensures Agrees(i, t, q, enabled) {}
    }
  }

  /** What the removal of an interface leaves a synced client with, when every change has been reported:
      once the queue is flushed the table of another announced interface is the live one exactly if no
      change of its was waiting, or only changes to values announced before. */
  lemma SiblingTableIff(enabled: bool, acts: seq<Action>, p: Path, n: string, k: nat, c: nat)
    requires Disciplined(enabled, acts) && Careful(enabled, acts) && Runs.Open(acts) == {}
    requires p in Run(enabled, acts).reg && p != ROOT
    requires var o := Run(enabled, acts).reg[p];
      && MayUnregister(Run(enabled, acts), p, n) && Has(o.ifaces, n) && o.refcount > 1
      && k < |o.ifaces| && o.ifaces[k].name != n && o.ifaces[k].name !in o.added && !Builtin(o.ifaces[k].name)
    ensures var s' := Run(enabled, acts + [Action.Unregister(p, n)]);
      var s, cv := Run(enabled, acts), Client(Flush(s').out, c, p);
      var i := s.reg[p].ifaces[k];
      cv.on && cv.synced ==>
        && i.name in cv.view
        && (LiveTable(i, cv.view[i.name], s.enabled) <==> QueuedInVain(i, Known(Told(s.out, p), i.name), s.enabled))
  {
    var s, more := Run(enabled, acts), acts + [Action.Unregister(p, n)];
    assert more[..|more| - 1] == acts;
    var s', i := Run(enabled, more), s.reg[p].ifaces[k];
    RunGood(enabled, acts);
    RunGood(enabled, more);
    RunValues(enabled, acts);
    RemovalExact(s, s', p, n, c);
    SetCoherence(enabled, more, c, p);
    AfterRemoval(s, p, n);
    DistinctAt(s, p);
    NameThere(s, s', p, n, k);
    assert IfaceOk(p, s.reg[p], k, Told(s.out, p), {}, s.enabled);
    RemovalTells(s, p, n, i.name);
    VainIsLive(p, i, Known(Told(s.out, p), i.name), s.enabled);
  }

  lemma RemovalExact(s: State, s': State, p: Path, n: string, c: nat)
    requires Good(s) && Exact(s.out) && s' == ObjectModel.Unregister(s, p, n).0 && Good(s') && p != ROOT
    ensures ClientExact(Flush(s').out, c, p)
  {
    UnregisterGrows(s, p, n);
    GrowsAtGrows(s, s', p);
    GrowsKeepsExact(s, s');
    FlushListGrows(s', s'.pending);
    FlushKeeps(s');
    GrowsKeepsExact(s', Flush(s'));
  }

  /** Another interface is still there, and live, after the removal. */
  lemma NameThere(s: State, s': State, p: Path, n: string, k: nat)
    requires p in s.reg && p != ROOT && Has(s.reg[p].ifaces, n) && DistinctNames(s.reg[p].ifaces) && k < |s.reg[p].ifaces|
    requires p in s'.reg && s'.reg[p].ifaces == WithoutInterface(s.reg[p], n).ifaces
    requires s.reg[p].ifaces[k].name != n && !Builtin(s.reg[p].ifaces[k].name)
    ensures s.reg[p].ifaces[k].name in LiveNames(s', p) && Has(s.reg[p].ifaces, s.reg[p].ifaces[k].name)
  {
    NameStays(s.reg[p].ifaces, s'.reg[p].ifaces, n, k);
    LiveHas(s', p, s.reg[p].ifaces[k].name);
  }

  lemma NameStays(ifaces: seq<Iface>, rest: seq<Iface>, n: string, k: nat)
    requires DistinctNames(ifaces) && Has(ifaces, n) && k < |ifaces| && ifaces[k].name != n
    requires rest == ifaces[..Index(ifaces, n)] + ifaces[Index(ifaces, n) + 1..]
    ensures ifaces[k].name in NameSet(rest) && Has(ifaces, ifaces[k].name)
  {
    NameStaysAt(ifaces, Index(ifaces, n), k);
  }

  lemma NameStaysAt(ifaces: seq<Iface>, j: nat, k: nat)
    requires DistinctNames(ifaces) && j < |ifaces| && k < |ifaces| && ifaces[k].name != ifaces[j].name
    ensures ifaces[k].name in NameSet(ifaces[..j] + ifaces[j + 1..]) && Has(ifaces, ifaces[k].name)
  {
    IndexOfEach(ifaces, k);
    assert ifaces[k].name in NameSet(ifaces);
    NameSetDrop(ifaces, j);
  }

  lemma LiveHas(s: State, p: Path, name: string)
    requires p in s.reg && p != ROOT && name in NameSet(s.reg[p].ifaces) && !Builtin(name)
    ensures name in LiveNames(s, p)
  {
  }
}
