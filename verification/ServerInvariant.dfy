/** The invariant of the whole object server, and each internal operation keeping it. */
module ServerInvariant {
  import opened Lists
  import opened Paths
  import opened ObjectModel
  import opened ObjectTree
  import opened Observers
  import opened Published

  /** The dirty list holds exactly the objects with a pending idle callback, each once. */
  ghost predicate Queue(s: State) {
    NoDup(s.pending) && forall p :: p in s.pending <==> p in s.reg && s.reg[p].queued
  }

  predicate HasWork(o: Obj) { o.added != [] || o.removed != [] }

  /** What is known about one path: the announced interfaces of a registered path below the root,
      nothing for any other path. */
  ghost predicate PathOk(s: State, p: Path) {
    if p in s.reg && p != ROOT then
      && Absolute(p)
      && Consistent(s.reg[p], Told(s.out, p))
      && Safe(map[], p, s.out)
      && (HasWork(s.reg[p]) ==> s.reg[p].queued)
    else
      && Told(s.out, p) == map[]
      && (p in s.reg ==> !HasWork(s.reg[p]) && DistinctNames(s.reg[p].ifaces))
      && (p != ROOT ==> Safe(map[], p, s.out))
  }

  ghost predicate Inv(s: State) {
    && s.root == Some(ROOT) && ROOT in s.reg
    && Tree(s.reg)
    && Queue(s)
    && forall p :: PathOk(s, p)
  }

  lemma HasParent(s: State, p: Path)
    requires Inv(s) && p in s.reg
    ensures s.reg[p].parent.Some? <==> p != ROOT
  {
    assert PathOk(s, p);
    NearestIsLowest(s.reg.Keys, p);
    if p == ROOT { RootHasNoAncestor(ROOT); } else { RootAboveAll(p); }
  }

  // ---- steps that concern one path ----

  /** From `s` to `s'` only the object at `p` changes, not its links, and only signals about `p` are sent. */
  ghost predicate LocalStep(s: State, s': State, p: Path, ms: seq<Msg>) {
    && p in s.reg
    && s'.reg.Keys == s.reg.Keys
    && (forall q :: q in s.reg && q != p ==> s'.reg[q] == s.reg[q])
    && s'.reg[p].parent == s.reg[p].parent && s'.reg[p].children == s.reg[p].children
    && s'.out == s.out + ms
    && (forall q :: q != p ==> Silent(ms, q))
    && s'.root == s.root && s'.enabled == s.enabled
  }

  lemma ToldSilent(out: seq<Msg>, ms: seq<Msg>, q: Path)
    requires Silent(ms, q)
    ensures Told(out + ms, q) == Told(out, q)
    ensures Safe(map[], q, out + ms) <==> Safe(map[], q, out)
  {
    HearAllConcat(false, map[], q, out, ms);
    HearSilent(false, Told(out, q), q, ms);
    SafeConcat(map[], q, out, ms);
    SafeSilent(Told(out, q), q, ms);
  }

  lemma LocalKeeps(s: State, s': State, p: Path, ms: seq<Msg>)
    requires Inv(s) && LocalStep(s, s', p, ms) && Queue(s') && PathOk(s', p)
    ensures Inv(s')
  {
    forall q ensures PathOk(s', q) {
      if q != p { PathOkElsewhere(s, s', p, ms, q); }
    }
    SameLinks(s.reg, s'.reg);
  }

  lemma PathOkElsewhere(s: State, s': State, p: Path, ms: seq<Msg>, q: Path)
    requires PathOk(s, q) && LocalStep(s, s', p, ms) && q != p
    ensures PathOk(s', q)
  {
    ToldSilent(s.out, ms, q);
  }

  lemma SameLinks(reg: map<Path, Obj>, reg': map<Path, Obj>)
    requires Tree(reg) && reg'.Keys == reg.Keys
    requires forall q :: q in reg ==> reg'[q].parent == reg[q].parent && reg'[q].children == reg[q].children
    ensures Tree(reg')
  {
  }

  /** The same for a path below the root whose object stays consistent with what is announced. */
  lemma LocalConsistent(s: State, s': State, p: Path, ms: seq<Msg>)
    requires Inv(s) && LocalStep(s, s', p, ms) && Queue(s') && p != ROOT
    requires Safe(Told(s.out, p), p, ms)
    requires Consistent(s'.reg[p], HearAll(false, Told(s.out, p), p, ms))
    requires HasWork(s'.reg[p]) ==> s'.reg[p].queued
    ensures Inv(s')
  {
    assert PathOk(s, p);
    HearAllConcat(false, map[], p, s.out, ms);
    SafeConcat(map[], p, s.out, ms);
    LocalKeeps(s, s', p, ms);
  }

  lemma QueueAfterAdd(s: State, s': State, p: Path)
    requires Queue(s) && p in s.reg && s'.reg.Keys == s.reg.Keys
    requires forall q :: q in s.reg && q != p ==> s'.reg[q].queued == s.reg[q].queued
    requires s'.reg[p].queued && s'.pending == if s.reg[p].queued then s.pending else s.pending + [p]
    ensures Queue(s')
  {
    if !s.reg[p].queued { NoDupConcat(s.pending, [p]); }
  }

  // ---- add_interface ----

  lemma AddInterfaceEffect(s: State, p: Path, i: Iface)
    requires p in s.reg
    ensures var s' := AddInterface(s, p, i);
      && LocalStep(s, s', p, [])
      && (s.reg[p].parent.Some? ==>
          s'.reg[p] == WithInterface(s.reg[p], i).(queued := true)
          && s'.pending == if s.reg[p].queued then s.pending else s.pending + [p])
      && (s.reg[p].parent.None? ==> s'.reg[p] == s.reg[p].(ifaces := s.reg[p].ifaces + [i]) && s'.pending == s.pending)
  {
    assert s.out + [] == s.out;
  }

  lemma AddInterfaceKeeps(s: State, p: Path, i: Iface)
    requires Inv(s) && p in s.reg && i.pending == []
    requires !Has(s.reg[p].ifaces, i.name) && i.name !in s.reg[p].removed
    ensures Inv(AddInterface(s, p, i))
  {
    var s' := AddInterface(s, p, i);
    AddInterfaceEffect(s, p, i);
    HasParent(s, p);
    assert PathOk(s, p);
    if p != ROOT {
      QueueAfterAdd(s, s', p);
      AddKeeps(s.reg[p], Told(s.out, p), i);
      LocalConsistent(s, s', p, []);
    } else {
      AppendDistinct(s.reg[p].ifaces, i);
      LocalKeeps(s, s', p, []);
    }
  }

  lemma AppendDistinct(ifaces: seq<Iface>, i: Iface)
    requires DistinctNames(ifaces) && !Has(ifaces, i.name)
    ensures DistinctNames(ifaces + [i])
  {
  }

  // ---- remove_interface ----

  lemma RemoveInterfaceEffect(s: State, p: Path, name: string)
    requires p in s.reg && Has(s.reg[p].ifaces, name)
    ensures var (s', ok) := RemoveInterface(s, p, name);
      var o := s.reg[p]; var k := Index(o.ifaces, name);
      && ok && LocalStep(s, s', p, ChangedMsgs(p, o.ifaces[k]))
      && s'.reg[p].ifaces == o.ifaces[..k] + o.ifaces[k + 1..]
      && s'.reg[p].refcount == o.refcount
      && (o.parent.Some? && name !in o.added ==>
          s'.reg[p] == WithoutInterface(o, name).(queued := true)
          && s'.pending == if s.reg[p].queued then s.pending else s.pending + [p])
      && (o.parent.Some? && name in o.added ==> s'.reg[p] == WithoutInterface(o, name) && s'.pending == s.pending)
      && (o.parent.None? && name !in o.added ==>
          s'.pending == s.pending
          && s'.reg[p] == o.(propFlag := false, ifaces := o.ifaces[..k] + o.ifaces[k + 1..]))
  {
  }

  lemma RemoveInterfaceKeeps(s: State, p: Path, name: string)
    requires Inv(s) && p in s.reg
    ensures Inv(RemoveInterface(s, p, name).0)
  {
    if Has(s.reg[p].ifaces, name) {
      if p == ROOT { RemoveAtRoot(s, name); } else { RemoveBelowRoot(s, p, name); }
    }
  }

  lemma RemoveBelowRoot(s: State, p: Path, name: string)
    requires Inv(s) && p in s.reg && p != ROOT && Has(s.reg[p].ifaces, name)
    ensures Inv(RemoveInterface(s, p, name).0)
  {
    var s' := RemoveInterface(s, p, name).0;
    RemoveInterfaceEffect(s, p, name);
    HasParent(s, p);
    assert PathOk(s, p);
    RemoveKeeps(s.reg[p], p, Told(s.out, p), name);
    if name !in s.reg[p].added { QueueAfterAdd(s, s', p); }
    LocalConsistent(s, s', p, ChangedMsgs(p, s.reg[p].ifaces[Index(s.reg[p].ifaces, name)]));
  }

  lemma RemoveAtRoot(s: State, name: string)
    requires Inv(s) && Has(s.reg[ROOT].ifaces, name)
    ensures Inv(RemoveInterface(s, ROOT, name).0)
  {
    var s' := RemoveInterface(s, ROOT, name).0;
    RemoveInterfaceEffect(s, ROOT, name);
    HasParent(s, ROOT);
    assert PathOk(s, ROOT);
    var k := Index(s.reg[ROOT].ifaces, name);
    var ms := ChangedMsgs(ROOT, s.reg[ROOT].ifaces[k]);
    RootKnowsNothing(s.out, ms);
    NameSetDrop(s.reg[ROOT].ifaces, k);
    LocalKeeps(s, s', ROOT, ms);
  }

  /** Property changes of the root's own interfaces teach observers of the tree nothing. */
  lemma {:induction false} RootKnowsNothing(out: seq<Msg>, ms: seq<Msg>)
    requires Told(out, ROOT) == map[] && forall k :: 0 <= k < |ms| ==> ms[k].Changed?
    ensures Told(out + ms, ROOT) == map[]
  {
    HearAllConcat(false, map[], ROOT, out, ms);
    NothingFromChanges(ms);
  }

  lemma {:induction false} NothingFromChanges(ms: seq<Msg>)
    requires forall k :: 0 <= k < |ms| ==> ms[k].Changed?
    ensures HearAll(false, map[], ROOT, ms) == map[]
  {
    if ms != [] { NothingFromChanges(ms[..|ms| - 1]); }
  }

  // ---- process_changes and flush ----

  lemma {:induction false} AllChangedAbout(p: Path, ifaces: seq<Iface>)
    ensures forall k :: 0 <= k < |AllChangedMsgs(p, ifaces)| ==>
      AllChangedMsgs(p, ifaces)[k].Changed? && AllChangedMsgs(p, ifaces)[k].path == p
  {
    if ifaces != [] { AllChangedAbout(p, ifaces[1..]); }
  }

  lemma ProcessChangesLocal(s: State, p: Path)
    requires p in s.reg
    ensures LocalStep(s, ProcessChanges(s, p), p, Processed(s.reg[p], p, Quiet(s, p), s.enabled).1)
  {
    AllChangedAbout(p, s.reg[p].ifaces);
  }

  lemma ProcessChangesKeeps(s: State, p: Path)
    requires Inv(s) && p in s.reg
    ensures var s' := ProcessChanges(s, p);
      Inv(s') && !HasWork(s'.reg[p]) && !s'.reg[p].queued && NameSet(s'.reg[p].ifaces) == NameSet(s.reg[p].ifaces)
  {
    if p == ROOT { ProcessRoot(s); } else { ProcessBelowRoot(s, p); }
  }

  lemma QueueAfterProcess(s: State, s': State, p: Path)
    requires Queue(s) && p in s.reg && s'.reg.Keys == s.reg.Keys && s'.pending == RemoveFirst(s.pending, p)
    requires forall q :: q in s.reg && q != p ==> s'.reg[q].queued == s.reg[q].queued
    requires !s'.reg[p].queued
    ensures Queue(s')
  {
    RemoveFirstNoDup(s.pending, p);
  }

  lemma ProcessBelowRoot(s: State, p: Path)
    requires Inv(s) && p in s.reg && p != ROOT
    ensures var s' := ProcessChanges(s, p);
      Inv(s') && !HasWork(s'.reg[p]) && !s'.reg[p].queued && NameSet(s'.reg[p].ifaces) == NameSet(s.reg[p].ifaces)
  {
    var s' := ProcessChanges(s, p);
    ProcessChangesLocal(s, p);
    assert PathOk(s, p);
    ProcessedKeeps(s.reg[p], p, Told(s.out, p), s.enabled);
    QueueAfterProcess(s, s', p);
    LocalConsistent(s, s', p, Processed(s.reg[p], p, false, s.enabled).1);
  }

  lemma ProcessRoot(s: State)
    requires Inv(s)
    ensures var s' := ProcessChanges(s, ROOT);
      Inv(s') && !HasWork(s'.reg[ROOT]) && !s'.reg[ROOT].queued && NameSet(s'.reg[ROOT].ifaces) == NameSet(s.reg[ROOT].ifaces)
  {
    var s' := ProcessChanges(s, ROOT);
    ProcessChangesLocal(s, ROOT);
    assert PathOk(s, ROOT);
    QueueAfterProcess(s, s', ROOT);
    var ms := Processed(s.reg[ROOT], ROOT, true, s.enabled).1;
    AllChangedAbout(ROOT, s.reg[ROOT].ifaces);
    RootKnowsNothing(s.out, ms);
    SameNames(s.reg[ROOT].ifaces, ClearPending(s.reg[ROOT].ifaces));
    LocalKeeps(s, s', ROOT, ms);
  }

  /** A flush keeps the invariant, leaves no deferred work and changes no object's interface names. */
  lemma {:induction false} FlushListKeeps(s: State, dirty: seq<Path>)
    requires Inv(s)
    ensures var s' := FlushList(s, dirty);
      && Inv(s') && s'.reg.Keys == s.reg.Keys && s'.enabled == s.enabled
      && (forall p :: p in s.reg ==> NameSet(s'.reg[p].ifaces) == NameSet(s.reg[p].ifaces))
      && (forall p :: p in s'.pending ==> p in s.pending && p !in dirty)
    decreases dirty
  {
    if dirty != [] {
      if dirty[0] in s.reg {
        ProcessChangesKeeps(s, dirty[0]);
        ProcessChangesLocal(s, dirty[0]);
        RemoveFirstNoDup(s.pending, dirty[0]);
        FlushListKeeps(ProcessChanges(s, dirty[0]), dirty[1..]);
      } else {
        FlushListKeeps(s, dirty[1..]);
      }
    }
  }

  lemma FlushKeeps(s: State)
    requires Inv(s)
    ensures Inv(Flush(s)) && Flush(s).pending == [] && Flush(s).reg.Keys == s.reg.Keys
    ensures forall p :: p in s.reg ==> !HasWork(Flush(s).reg[p]) && NameSet(Flush(s).reg[p].ifaces) == NameSet(s.reg[p].ifaces)
  {
    FlushListKeeps(s, s.pending);
    var s' := Flush(s);
    EmptyOrNot(s'.pending);
    forall p | p in s.reg && HasWork(s'.reg[p]) ensures false { WorkIsQueued(s', p); }
  }

  lemma EmptyOrNot(l: seq<Path>)
    ensures l == [] || exists p :: p in l
  {
    if l != [] { assert l[0] in l; }
  }

  lemma WorkIsQueued(s: State, p: Path)
    requires Inv(s) && p in s.reg && HasWork(s.reg[p])
    ensures s.reg[p].queued && p in s.pending
  {
    assert PathOk(s, p);
  }

  /** A message that is not a signal of the tree changes nothing observers know. */
  lemma AppendOther(s: State, m: Msg)
    requires Inv(s) && (m.Other? || m.ManagedObjects? || m.Subscribed?)
    ensures Inv(s.(out := s.out + [m]))
  {
    forall p ensures PathOk(s.(out := s.out + [m]), p) {
      assert PathOk(s, p);
      ToldSilent(s.out, [m], p);
    }
  }
}
