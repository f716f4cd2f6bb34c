/** Whole runs of the object server with its clients: the main theorems about gdbus/object.c and
    gdbus/client.c. */
module Runs {
  import opened Lists
  import opened Paths
  import opened DBusValues
  import opened ObjectModel
  import opened ObjectTree
  import opened Observers
  import opened Published
  import opened PropertyValues
  import opened ServerInvariant
  import opened ServerCalls
  import opened ServerApi
  import opened Clients
  import opened ValueInvariant
  import opened ValueCalls
  import opened IntrospectionCache

  /** What can happen on the connection: calls of the user, the idle callback of an object, any
      ordinary message being sent, and what clients ask for. */
  datatype Action =
    | Register(path: Path, name: string, table: Table, data: map<string, DValue>)
    | Unregister(path: Path, name: string)
    | Report(path: Path, name: string, prop: string)
    | Change(path: Path, name: string, prop: string, value: Option<DValue>)
    | Idle(path: Path)
    | SendMessage
    | Subscribe(client: nat)
    | GetManagedObjects(client: nat)
    | GetIntrospection(path: Path)

  function Step(s: State, a: Action): State {
    match a
    case Register(p, n, t, d) => ObjectModel.Register(s, p, n, t, d).0
    case Unregister(p, n) => ObjectModel.Unregister(s, p, n).0
    case Report(p, n, q) => EmitPropertyChanged(s, p, n, q)
    case Change(p, n, q, v) => SetValue(s, p, n, q, v)
    case Idle(p) => if p in s.reg && s.reg[p].queued then ProcessChanges(s, p) else s
    case SendMessage => Send(s, Other)
    case Subscribe(c) => s.(out := s.out + [Subscribed(c)])
    case GetManagedObjects(c) => GetObjects(s, c)
    case GetIntrospection(p) => Introspect(s, p)
  }

  /** The state after a run that starts with the object manager attached at the root. */
  function Run(enabled: bool, acts: seq<Action>): State {
    if acts == [] then Attached(enabled) else Step(Run(enabled, acts[..|acts| - 1]), acts[|acts| - 1])
  }

  /** Values changed and not reported since, over a run. */
  function Open(acts: seq<Action>): Unreported {
    if acts == [] then {}
    else OpenStep(Open(acts[..|acts| - 1]), acts[|acts| - 1])
  }

  function OpenStep(open: Unreported, a: Action): Unreported {
    match a
    case Change(p, n, q, _) => open + {(p, n, q)}
    case Report(p, n, q) => open - {(p, n, q)}
    case _ => open
  }

  ghost predicate Allowed(s: State, a: Action) {
    match a
    case Register(p, n, _, _) => MayRegister(s, p, n)
    case Unregister(p, n) => MayUnregister(s, p, n)
    case _ => true
  }

  /** Every registration and release of the run meets its guard. */
  ghost predicate Disciplined(enabled: bool, acts: seq<Action>) {
    acts == [] || (Disciplined(enabled, acts[..|acts| - 1]) && Allowed(Run(enabled, acts[..|acts| - 1]), acts[|acts| - 1]))
  }

  /** The further guards the property values need. */
  ghost predicate ValuesAllowed(s: State, open: Unreported, a: Action) {
    match a
    case Register(_, _, t, _) => DistinctProps(t.Props())
    case Unregister(p, n) => p in s.reg && p != ROOT ==> SiblingsIdle(s.reg[p].ifaces, n)
    case GetManagedObjects(_) => open == {}
    case _ => true
  }

  ghost predicate Careful(enabled: bool, acts: seq<Action>) {
    acts == [] || (
      var before := acts[..|acts| - 1];
      Careful(enabled, before) && ValuesAllowed(Run(enabled, before), Open(before), acts[|acts| - 1]))
  }

  // ---- every run keeps the invariants ----

  lemma StepGood(s: State, a: Action)
    requires Good(s) && Allowed(s, a)
    ensures Good(Step(s, a))
  {
    match a
    case Register(p, n, t, d) => RegisterKeeps(s, p, n, t, d);
    case Unregister(p, n) => UnregisterKeeps(s, p, n);
    case Report(p, n, q) => EmitKeeps(s, p, n, q);
    case Change(p, n, q, v) => SetValueKeeps(s, p, n, q, v);
    case Idle(p) => if p in s.reg && s.reg[p].queued { ProcessGood(s, p); }
    case SendMessage => SendGood(s, Other);
    case Subscribe(c) => AppendOther(s, Subscribed(c));
    case GetManagedObjects(c) => GetObjectsGood(s, c);
    case GetIntrospection(p) => IntrospectGood(s, p);
  }

  lemma {:induction false} RunGood(enabled: bool, acts: seq<Action>)
    requires Disciplined(enabled, acts)
    ensures Good(Run(enabled, acts))
  {
    if acts == [] {
      AttachedGood(enabled);
    } else {
      RunGood(enabled, acts[..|acts| - 1]);
      StepGood(Run(enabled, acts[..|acts| - 1]), acts[|acts| - 1]);
    }
  }

  /** Calls that are not addressed to a client only append signals and ordinary messages. */
  lemma StepGrows(s: State, a: Action)
    requires !a.Subscribe? && !a.GetManagedObjects?
    ensures Grows(s, Step(s, a))
  {
    match a
    case Register(p, n, t, d) => RegisterGrows(s, p, n, t, d); GrowsAtGrows(s, Step(s, a), p);
    case Unregister(p, n) => UnregisterGrows(s, p, n); GrowsAtGrows(s, Step(s, a), p);
    case Report(p, n, q) => GrowsBy(s, Step(s, a), []);
    case Change(p, n, q, v) => GrowsBy(s, Step(s, a), []);
    case Idle(p) =>
      GrowsBy(s, s, []);
      if p in s.reg && s.reg[p].queued { ProcessGrows(s, p); GrowsAtGrows(s, Step(s, a), p); }
    case SendMessage => SendGrows(s);
    case GetIntrospection(p) =>
      GrowsBy(s, s, []);
      if p in s.reg {
        var o := s.reg[p];
        var text := if o.introspect == None then Some(CurrentDoc(s, p)) else o.introspect;
        var s1 := s.(reg := s.reg[p := o.(introspect := text)]);
        GrowsBy(s, s1, []);
        SendGrows(s1);
        GrowsTrans(s, s1, Step(s, a));
      }
  }

  lemma SendGrows(s: State)
    ensures Grows(s, Send(s, Other))
  {
    FlushListGrows(s, s.pending);
    GrowsBy(Flush(s), Send(s, Other), [Other]);
    GrowsTrans(s, Flush(s), Send(s, Other));
  }

  lemma StepInStep(s: State, a: Action)
    requires Good(s) && InStep(s.out)
    ensures InStep(Step(s, a).out)
  {
    if a.Subscribe? || a.GetManagedObjects? {
      AskedInStep(s, a);
    } else {
      StepGrows(s, a);
      GrowsKeepsStep(s, Step(s, a));
    }
  }

  lemma AskedInStep(s: State, a: Action)
    requires Good(s) && InStep(s.out) && (a.Subscribe? || a.GetManagedObjects?)
    ensures InStep(Step(s, a).out)
  {
    AskedOut(s, a);
    if a.Subscribe? {
      SubscribeKeepsStep(s.out, a.client);
      SameInStep(s.out + [Subscribed(a.client)], Step(s, a).out);
    } else {
      GetObjectsKeepsStep(s, a.client);
      SameInStep(GetObjects(s, a.client).out, Step(s, a).out);
    }
  }

  lemma AskedOut(s: State, a: Action)
    ensures a.Subscribe? ==> Step(s, a).out == s.out + [Subscribed(a.client)]
    ensures a.GetManagedObjects? ==> Step(s, a).out == GetObjects(s, a.client).out
  {
  }

  lemma SameInStep(a: seq<Msg>, b: seq<Msg>)
    requires InStep(a) && a == b
    ensures InStep(b)
  {
  }

  lemma {:induction false} RunInStep(enabled: bool, acts: seq<Action>)
    requires Disciplined(enabled, acts)
    ensures InStep(Run(enabled, acts).out)
  {
    if acts == [] {
      AttachedGood(enabled);
      NobodySubscribed();
    } else {
      RunInStep(enabled, acts[..|acts| - 1]);
      RunGood(enabled, acts[..|acts| - 1]);
      StepInStep(Run(enabled, acts[..|acts| - 1]), acts[|acts| - 1]);
    }
  }

  lemma NobodySubscribed()
    ensures InStep([]) && Exact([])
  {
  }

  lemma StepValues(s: State, a: Action, open: Unreported)
    requires Good(s) && Allowed(s, a) && Values(s, open) && ValuesAllowed(s, open, a)
    ensures Values(Step(s, a), OpenStep(open, a))
  {
    match a
    case Register(p, n, t, d) => RegisterValues(s, p, n, t, d, open);
    case Unregister(p, n) => UnregisterValues(s, p, n, open);
    case Report(p, n, q) => EmitValues(s, p, n, q, open);
    case Change(p, n, q, v) => SetValues(s, p, n, q, v, open);
    case Idle(p) => if p in s.reg && s.reg[p].queued { ProcessValues(s, p, open); }
    case SendMessage => SendValues(s, Other, open);
    case Subscribe(c) => AppendValues(s, Subscribed(c), open);
    case GetManagedObjects(c) =>
      SendValues(s, ManagedObjects(c, Reply(s)), open);
    case GetIntrospection(p) => IntrospectValues(s, p, open);
  }

  lemma {:induction false} RunValues(enabled: bool, acts: seq<Action>)
    requires Disciplined(enabled, acts) && Careful(enabled, acts)
    ensures Values(Run(enabled, acts), Open(acts)) && Exact(Run(enabled, acts).out)
  {
    if acts == [] {
      AttachedOnlyRoot(enabled);
    } else {
      var before := acts[..|acts| - 1];
      var s, a := Run(enabled, before), acts[|acts| - 1];
      RunValues(enabled, before);
      RunGood(enabled, before);
      RunGood(enabled, acts);
      StepValues(s, a, Open(before));
      if a.Subscribe? { SubscribeKeepsExact(s.out, a.client); }
      else if a.GetManagedObjects? { GetObjectsKeepsExact(s, a.client, Open(before)); }
      else { StepGrows(s, a); GrowsKeepsExact(s, Step(s, a)); }
    }
  }

  lemma AttachedOnlyRoot(enabled: bool)
    ensures Attached(enabled).reg.Keys == {ROOT} && Attached(enabled).out == []
  {
    AttachedGood(enabled);
  }

  // ---- main results ----

  /** Lifetime: in every disciplined run the reference count of a registered path is the number of its
      user interfaces (at the root, the attached manager counted among them), it is positive, and
      interface names are distinct. */
  lemma Lifetime(enabled: bool, acts: seq<Action>, p: Path)
    requires Disciplined(enabled, acts) && p in Run(enabled, acts).reg
    ensures var o := Run(enabled, acts).reg[p];
      o.refcount == UserCount(o.ifaces) && o.refcount > 0 && DistinctNames(o.ifaces)
  {
    RunGood(enabled, acts);
    assert PathOk(Run(enabled, acts), p);
  }

  /** The tree: every disciplined run keeps every link at the nearest registered strict ancestor. */
  lemma RunTree(enabled: bool, acts: seq<Action>)
    requires Disciplined(enabled, acts)
    ensures Tree(Run(enabled, acts).reg)
    ensures ROOT in Run(enabled, acts).reg
    ensures var reg := Run(enabled, acts).reg; var w := Walk(reg, ROOT, reg[ROOT].children);
      NoDup(w) && forall q :: q in w <==> q in reg && q != ROOT
  {
    RunGood(enabled, acts);
    var s := Run(enabled, acts);
    WalkVisitsOnce(s.reg, ROOT);
    NotOwnAncestor(ROOT);
    forall q | q in s.reg && q != ROOT ensures IsAncestor(ROOT, q) {
      assert PathOk(s, q);
      RootAboveAll(q);
    }
  }

  /** The published set: what observers have been told of an object is its current interfaces minus
      those waiting in `added`, plus those waiting in `removed`; an object with such work is on the
      dirty list, which holds exactly the objects with an idle callback; a flush empties that work. */
  lemma PublishedSet(enabled: bool, acts: seq<Action>, p: Path)
    requires Disciplined(enabled, acts) && p in Run(enabled, acts).reg && p != ROOT
    ensures var s := Run(enabled, acts); var o := s.reg[p];
      && Told(s.out, p).Keys == NameSet(o.ifaces) - ToSet(o.added) + ToSet(o.removed)
      && (HasWork(o) ==> p in s.pending)
      && (p in s.pending <==> o.queued)
    ensures var s' := Flush(Run(enabled, acts));
      && p in s'.reg && s'.pending == []
      && !HasWork(s'.reg[p]) && Told(s'.out, p).Keys == NameSet(s'.reg[p].ifaces)
  {
    var s := Run(enabled, acts);
    RunGood(enabled, acts);
    FlushKeeps(s);
    assert PathOk(s, p) && PathOk(Flush(s), p);
    FlushedTold(Flush(s).reg[p], Told(Flush(s).out, p));
  }

  // ---- the grammar of the stream ----

  /** Progress of one interface through the stream: unknown or announced, or an error. */
  datatype Phase = Unknown | Announced | Violation

  function Next(ph: Phase, p: Path, n: string, m: Msg): Phase {
    match m
    case Added(q, es) =>
      if q == p && n in EntryNames(es) then (if ph == Unknown then Announced else Violation) else ph
    case Changed(q, i, _, _) => if q == p && i == n && ph != Announced then Violation else ph
    case Removed(q, names) =>
      if q == p && n in names then (if ph == Announced then Unknown else Violation) else ph
    case _ => ph
  }

  function PhaseOf(out: seq<Msg>, p: Path, n: string): Phase {
    if out == [] then Unknown else Next(PhaseOf(out[..|out| - 1], p, n), p, n, out[|out| - 1])
  }

  /** A safe stream takes each interface through announced, changed any number of times, withdrawn. */
  lemma {:induction false} SafePhase(out: seq<Msg>, p: Path, n: string)
    requires Safe(map[], p, out)
    ensures PhaseOf(out, p, n) == if n in Told(out, p) then Announced else Unknown
  {
    if out != [] {
      var before, m := out[..|out| - 1], out[|out| - 1];
      SafePhase(before, p, n);
      if m.Added? && m.path == p { HearIfacesKeys(false, Told(before, p), m.ifaces); }
    }
  }

  /** Stream safety: in every disciplined run, for each interface of each path below the root, the
      stream is a prefix of Added, PropertiesChanged*, Removed over and over. */
  lemma StreamSafety(enabled: bool, acts: seq<Action>, p: Path, n: string)
    requires Disciplined(enabled, acts) && p != ROOT
    ensures PhaseOf(Run(enabled, acts).out, p, n) != Violation
    ensures PhaseOf(Run(enabled, acts).out, p, n) == Announced <==> n in Told(Run(enabled, acts).out, p)
  {
    RunGood(enabled, acts);
    assert PathOk(Run(enabled, acts), p);
    SafePhase(Run(enabled, acts).out, p, n);
  }

  predicate Mentions(m: Msg, p: Path, n: string) {
    match m
    case Added(q, es) => q == p && n in EntryNames(es)
    case Removed(q, names) => q == p && n in names
    case Changed(q, i, _, _) => q == p && i == n
    case _ => false
  }

  predicate NeverMentions(ms: seq<Msg>, p: Path, n: string) { forall k :: 0 <= k < |ms| ==> !Mentions(ms[k], p, n) }

  /** The object does not know the name. */
  predicate Unheard(o: Obj, n: string) { !Has(o.ifaces, n) && n !in o.added && n !in o.removed }

  lemma {:induction false} EntriesNamed(ifaces: seq<Iface>, names: seq<string>, enabled: bool)
    ensures forall k :: 0 <= k < |EntriesOf(ifaces, names, enabled)| ==> EntriesOf(ifaces, names, enabled)[k].name in names
  {
    if names != [] {
      EntriesNamed(ifaces, names[1..], enabled);
      assert names == [names[0]] + names[1..];
    }
  }

  lemma {:induction false} ChangesNamed(p: Path, ifaces: seq<Iface>, n: string)
    requires forall k :: 0 <= k < |ifaces| ==> ifaces[k].name != n
    ensures NeverMentions(AllChangedMsgs(p, ifaces), p, n)
  {
    if ifaces != [] {
      ChangesNamed(p, ifaces[1..], n);
    }
  }

  lemma ProcessedUnheard(o: Obj, p: Path, n: string, quiet: bool, enabled: bool)
    requires Unheard(o, n)
    ensures var r := Processed(o, p, quiet, enabled); Unheard(r.0, n) && NeverMentions(r.1, p, n)
  {
    var r := EmitAdded(o.(queued := false), p, quiet, enabled);
    AddedUnheard(o.(queued := false), p, n, quiet, enabled);
    ChangesUnheard(r.0, p, n);
    RemovedUnheard(EmitChanges(r.0, p).0, p, n, quiet);
  }

  lemma AddedUnheard(o: Obj, p: Path, n: string, quiet: bool, enabled: bool)
    requires Unheard(o, n)
    ensures var r := EmitAdded(o, p, quiet, enabled); Unheard(r.0, n) && NeverMentions(r.1, p, n)
  {
    EntriesNamed(o.ifaces, o.added, enabled);
  }

  lemma ChangesUnheard(o: Obj, p: Path, n: string)
    requires Unheard(o, n)
    ensures var r := EmitChanges(o, p); Unheard(r.0, n) && NeverMentions(r.1, p, n)
  {
    NotAmong(o.ifaces, n);
    ChangesNamed(p, o.ifaces, n);
    SameNames(o.ifaces, EmitChanges(o, p).0.ifaces);
  }

  lemma NotAmong(ifaces: seq<Iface>, n: string)
    requires !Has(ifaces, n)
    ensures forall k :: 0 <= k < |ifaces| ==> ifaces[k].name != n
  {
  }

  lemma RemovedUnheard(o: Obj, p: Path, n: string, quiet: bool)
    requires Unheard(o, n)
    ensures var r := EmitRemoved(o, p, quiet); Unheard(r.0, n) && NeverMentions(r.1, p, n)
  {
  }

  /** Messages about other paths do not mention a name of this one. */
  lemma SilentNames(ms: seq<Msg>, p: Path, n: string)
    requires Silent(ms, p)
    ensures NeverMentions(ms, p, n)
  {
  }

  lemma {:induction false} FlushUnheard(s: State, dirty: seq<Path>, p: Path, n: string)
    requires p in s.reg && Unheard(s.reg[p], n)
    ensures var s' := FlushList(s, dirty); s.out <= s'.out && NeverMentions(s'.out[|s.out|..], p, n)
    decreases dirty
  {
    if dirty != [] {
      var q := dirty[0];
      if q in s.reg {
        var t, ms := ProcessChanges(s, q), Processed(s.reg[q], q, Quiet(s, q), s.enabled).1;
        ProcessChangesLocal(s, q);
        if q == p { ProcessedUnheard(s.reg[p], p, n, Quiet(s, p), s.enabled); } else { SilentNames(ms, p, n); }
        FlushUnheard(t, dirty[1..], p, n);
        OutJoin(s.out, ms, FlushList(t, dirty[1..]).out, p, n);
      } else {
        FlushUnheard(s, dirty[1..], p, n);
      }
    }
  }

  lemma OutJoin(out: seq<Msg>, ms: seq<Msg>, all: seq<Msg>, p: Path, n: string)
    requires NeverMentions(ms, p, n) && out + ms <= all && NeverMentions(all[|out + ms|..], p, n)
    ensures out <= all && NeverMentions(all[|out|..], p, n)
  {
    assert all[|out|..] == ms + all[|out + ms|..];
  }

  /** An interface removed while its announcement still waits produces no signal about itself: not when it
      is removed, and not in the next flush, for it is on neither list. */
  lemma AddThenRemoveSilent(enabled: bool, acts: seq<Action>, p: Path, name: string)
    requires Disciplined(enabled, acts) && p in Run(enabled, acts).reg
    requires Has(Run(enabled, acts).reg[p].ifaces, name) && name in Run(enabled, acts).reg[p].added
    ensures var s := Run(enabled, acts);
      var s' := RemoveInterface(s, p, name).0;
      && s'.out == s.out && Unheard(s'.reg[p], name)
      && s.out <= Flush(s').out && NeverMentions(Flush(s').out[|s.out|..], p, name)
  {
    var s := Run(enabled, acts);
    RunGood(enabled, acts);
    assert PathOk(s, p);
    assert p != ROOT;
    HasParent(s, p);
    RemoveKeeps(s.reg[p], p, Told(s.out, p), name);
    RemoveInterfaceEffect(s, p, name);
    Forgotten(s.reg[p], Told(s.out, p), name);
    FlushUnheard(RemoveInterface(s, p, name).0, RemoveInterface(s, p, name).0.pending, p, name);
  }

  lemma Forgotten(o: Obj, told: PathView, name: string)
    requires Consistent(o, told) && Has(o.ifaces, name) && name in o.added
    ensures Unheard(WithoutInterface(o, name), name)
  {
    NameSetDrop(o.ifaces, Index(o.ifaces, name));
    RemoveFirstNoDup(o.added, name);
    assert name in NameSet(o.ifaces) && name !in ToSet(o.removed);
    assert name !in NameSet(WithoutInterface(o, name).ifaces);
  }

  // ---- end-to-end coherence ----

  /** The live interfaces a client should have proxies for. */
  function LiveNames(s: State, p: Path): set<string> {
    if p in s.reg && p != ROOT then Visible(NameSet(s.reg[p].ifaces)) else {}
  }

  /** Set coherence: in every disciplined run a client that subscribed and whose GetManagedObjects was
      answered since holds, once the queue is flushed and the stream consumed, exactly one proxy per
      live interface below the root, minus the two built-in ones. */
  lemma SetCoherence(enabled: bool, acts: seq<Action>, c: nat, p: Path)
    requires Disciplined(enabled, acts)
    ensures var s := Run(enabled, acts); var cv := Client(Flush(s).out, c, p);
      cv.on && cv.synced ==> cv.view.Keys == LiveNames(s, p)
  {
    RunGood(enabled, acts);
    RunInStep(enabled, acts);
    FlushedClient(Run(enabled, acts), c, p);
  }

  lemma FlushedClient(s: State, c: nat, p: Path)
    requires Good(s) && InStep(s.out)
    ensures var cv := Client(Flush(s).out, c, p); cv.on && cv.synced ==> cv.view.Keys == LiveNames(s, p)
  {
    FlushListGrows(s, s.pending);
    GrowsKeepsStep(s, Flush(s));
    assert ClientOk(Flush(s).out, c, p);
    FlushedLive(s, p);
  }

  lemma FlushedLive(s: State, p: Path)
    requires Good(s)
    ensures Visible(Told(Flush(s).out, p).Keys) == LiveNames(s, p)
  {
    FlushedNames(s, p);
    assert Visible({}) == {};
  }

  lemma FlushedNames(s: State, p: Path)
    requires Good(s)
    ensures Told(Flush(s).out, p).Keys == if p in s.reg && p != ROOT then NameSet(s.reg[p].ifaces) else {}
  {
    FlushKeeps(s);
    assert PathOk(Flush(s), p);
    if p in s.reg && p != ROOT { FlushedTold(Flush(s).reg[p], Told(Flush(s).out, p)); }
  }

  /** The table a client should hold for one interface: its readable, visible, existing properties
      with the values the getters return now. */
  ghost predicate LiveTable(i: Iface, t: PropTable, enabled: bool) {
    forall q :: Look(t, q) == Now(i, q, enabled)
  }

  /** Value coherence: if moreover no interface is removed while a sibling waits and every change is
      reported before objects are asked for, then with nothing left unreported each proxy's table is
      exactly the live one. */
  lemma ValueCoherence(enabled: bool, acts: seq<Action>, c: nat, p: Path, k: nat)
    requires Disciplined(enabled, acts) && Careful(enabled, acts) && Open(acts) == {}
    requires p in Run(enabled, acts).reg && p != ROOT && k < |Run(enabled, acts).reg[p].ifaces|
    ensures var s := Run(enabled, acts); var i := s.reg[p].ifaces[k]; var cv := Client(Flush(s).out, c, p);
      cv.on && cv.synced && !Builtin(i.name) ==> i.name in cv.view && LiveTable(i, cv.view[i.name], s.enabled)
  {
    var s := Run(enabled, acts);
    RunGood(enabled, acts);
    RunValues(enabled, acts);
    SetCoherence(enabled, acts, c, p);
    FlushListGood(s, s.pending);
    FlushListGrows(s, s.pending);
    GrowsKeepsExact(s, Flush(s));
    assert ClientExact(Flush(s).out, c, p);
    FlushKeeps(s);
    FlushListValues(s, s.pending, {});
    FlushListContents(s, s.pending);
    SettledCurrent(Flush(s), p, {});
    IndexOfEachLive(s, p, k);
    SettledTable(s.reg[p], Flush(s).reg[p], Told(Flush(s).out, p), k, s.enabled);
  }

  lemma SettledTable(o: Obj, o1: Obj, told: PathView, k: nat, enabled: bool)
    requires SameContents(o, o1) && AllCurrent(o1, told, enabled) && k < |o.ifaces|
    ensures o.ifaces[k].name in told && LiveTable(o.ifaces[k], told[o.ifaces[k].name], enabled)
  {
    var i, i1 := o.ifaces[k], o1.ifaces[k];
    forall q ensures Look(told[i.name], q) == Now(i, q, enabled) {
      assert Agrees(i1, Known(told, i1.name), q, enabled);
    }
  }

  lemma IndexOfEachLive(s: State, p: Path, k: nat)
    requires Good(s) && p in s.reg && k < |s.reg[p].ifaces|
    ensures s.reg[p].ifaces[k].name in NameSet(s.reg[p].ifaces)
  {
    assert PathOk(s, p);
    IndexOfEach(s.reg[p].ifaces, k);
  }

  /** Introspection coherence: in every disciplined run a cached text, if there is one, is what would
      be generated now; only the root may still carry the placeholder it was attached with, and only as
      long as nothing else is registered. */
  lemma {:induction false} IntrospectionCoherence(enabled: bool, acts: seq<Action>)
    requires Disciplined(enabled, acts)
    ensures Caches(Run(enabled, acts))
  {
    if acts == [] {
      AttachedCaches(enabled);
    } else {
      IntrospectionCoherence(enabled, acts[..|acts| - 1]);
      RunGood(enabled, acts[..|acts| - 1]);
      StepCaches(Run(enabled, acts[..|acts| - 1]), acts[|acts| - 1]);
    }
  }

  lemma StepCaches(s: State, a: Action)
    requires Good(s) && Caches(s) && Allowed(s, a)
    ensures Caches(Step(s, a))
  {
    match a
    case Register(p, n, t, d) => RegisterCaches(s, p, n, t, d);
    case Unregister(p, n) => UnregisterCaches(s, p, n);
    case Report(p, n, q) => EmitCaches(s, p, n, q);
    case Change(p, n, q, v) => SetCaches(s, p, n, q, v);
    case Idle(p) => if p in s.reg && s.reg[p].queued { ProcessCaches(s, p); }
    case SendMessage => SendCaches(s, Other);
    case Subscribe(c) => AppendCaches(s, Subscribed(c));
    case GetManagedObjects(c) => SendCaches(s, ManagedObjects(c, Reply(s)));
    case GetIntrospection(p) => IntrospectCaches(s, p);
  }
}
