/** What listeners make of the outgoing stream: the reference observer that hears everything from
    the start, and the clients of gdbus/client.c that subscribe and ask for the managed objects. */
module Observers {
  import opened Lists
  import opened Paths
  import opened DBusValues
  import opened ObjectModel

  type PropTable = map<string, DValue>

  /** The interfaces known on one path, with their properties. */
  type PathView = map<string, PropTable>

  /** `update_properties`: entries overwrite, nothing is deleted. */
  function Learn(t: PropTable, es: seq<Entry>): PropTable
    decreases es
  {
    if es == [] then t else Learn(t[es[0].key := es[0].value], es[1..])
  }

  function Known(v: PathView, name: string): PropTable { if name in v then v[name] else map[] }

  /** `parse_properties`; `skip` skips the two built-in interfaces as the client does. */
  function HearIface(skip: bool, v: PathView, e: IfaceEntry): PathView {
    if skip && Builtin(e.name) then v else v[e.name := Learn(Known(v, e.name), e.props)]
  }

  /** `parse_interfaces`. */
  function HearIfaces(skip: bool, v: PathView, es: seq<IfaceEntry>): PathView
    decreases es
  {
    if es == [] then v else HearIfaces(skip, HearIface(skip, v, es[0]), es[1..])
  }

  /** One signal, as seen by an observer of path `p`. */
  function Hear(skip: bool, v: PathView, p: Path, m: Msg): PathView {
    match m
    case Added(q, es) => if q == p then HearIfaces(skip, v, es) else v
    case Removed(q, names) => if q == p then v - ToSet(names) else v
    case Changed(q, i, c, gone) => if q == p && i in v then v[i := Learn(v[i], c) - ToSet(gone)] else v
    case _ => v
  }

  function HearAll(skip: bool, v: PathView, p: Path, ms: seq<Msg>): PathView {
    if ms == [] then v else Hear(skip, HearAll(skip, v, p, ms[..|ms| - 1]), p, ms[|ms| - 1])
  }

  /** What has been announced about `p` since the connection was opened. */
  function Told(out: seq<Msg>, p: Path): PathView { HearAll(false, map[], p, out) }

  /** A client's knowledge of one path: `on` once subscribed, `synced` once a reply has arrived. */
  datatype ClientView = ClientView(on: bool, synced: bool, view: PathView)

  /** `parse_managed_objects`. */
  function LearnObjects(v: PathView, p: Path, objs: seq<ObjEntry>): PathView
    decreases objs
  {
    if objs == [] then v
    else LearnObjects(if objs[0].path == p then HearIfaces(true, v, objs[0].ifaces) else v, p, objs[1..])
  }

  function ClientHear(cv: ClientView, c: nat, p: Path, m: Msg): ClientView {
    match m
    case Subscribed(d) => if d == c then ClientView(true, false, map[]) else cv
    case ManagedObjects(d, objs) => if d == c && cv.on then ClientView(true, true, LearnObjects(cv.view, p, objs)) else cv
    case _ => if cv.on then cv.(view := Hear(true, cv.view, p, m)) else cv
  }

  function Client(out: seq<Msg>, c: nat, p: Path): ClientView {
    if out == [] then ClientView(false, false, map[])
    else ClientHear(Client(out[..|out| - 1], c, p), c, p, out[|out| - 1])
  }

  // ---- folding over concatenations ----

  lemma {:induction false} HearAllConcat(skip: bool, v: PathView, p: Path, a: seq<Msg>, b: seq<Msg>)
    ensures HearAll(skip, v, p, a + b) == HearAll(skip, HearAll(skip, v, p, a), p, b)
  {
    if b == [] {
      assert a + b == a;
    } else {
      var n := |b| - 1;
      assert (a + b)[..|a + b| - 1] == a + b[..n];
      HearAllConcat(skip, v, p, a, b[..n]);
    }
  }

  /** No message of the list is a signal about `p`. */
  predicate Silent(ms: seq<Msg>, p: Path) {
    forall k :: 0 <= k < |ms| ==> !About(ms[k], p)
  }

  predicate About(m: Msg, p: Path) { (m.Added? || m.Removed? || m.Changed?) && m.path == p }

  lemma {:induction false} HearSilent(skip: bool, v: PathView, p: Path, ms: seq<Msg>)
    requires Silent(ms, p)
    ensures HearAll(skip, v, p, ms) == v
  {
    if ms != [] {
      var n := |ms| - 1;
      assert !About(ms[n], p);
      HearSilent(skip, v, p, ms[..n]);
    }
  }

  // ---- safe streams ----

  function EntryNames(es: seq<IfaceEntry>): seq<string> {
    seq(|es|, k requires 0 <= k < |es| => es[k].name)
  }

  /** A signal about `p` fits what has been announced so far: nothing is announced twice, and
      nothing is changed or withdrawn before it is announced. */
  ghost predicate Fits(v: PathView, p: Path, m: Msg) {
    match m
    case Added(q, es) => q == p ==> NoDup(EntryNames(es)) && forall n :: n in EntryNames(es) ==> n !in v
    case Removed(q, names) => q == p ==> NoDup(names) && forall n :: n in names ==> n in v
    case Changed(q, i, _, _) => q == p ==> i in v
    case _ => true
  }

  ghost predicate Safe(v: PathView, p: Path, ms: seq<Msg>) {
    ms == [] || (var n := |ms| - 1;
      Safe(v, p, ms[..n]) && Fits(HearAll(false, v, p, ms[..n]), p, ms[n]))
  }

  lemma {:induction false} SafeConcat(v: PathView, p: Path, a: seq<Msg>, b: seq<Msg>)
    ensures Safe(v, p, a + b) <==> Safe(v, p, a) && Safe(HearAll(false, v, p, a), p, b)
  {
    if b == [] {
      assert a + b == a;
    } else {
      var n := |b| - 1;
      assert (a + b)[..|a + b| - 1] == a + b[..n];
      SafeConcat(v, p, a, b[..n]);
      HearAllConcat(false, v, p, a, b[..n]);
    }
  }

  lemma {:induction false} SafeSilent(v: PathView, p: Path, ms: seq<Msg>)
    requires Silent(ms, p)
    ensures Safe(v, p, ms)
  {
    if ms != [] {
      var n := |ms| - 1;
      assert !About(ms[n], p);
      SafeSilent(v, p, ms[..n]);
    }
  }

  // ---- what the entries of a message teach ----

  lemma {:induction false} HearIfacesKeys(skip: bool, v: PathView, es: seq<IfaceEntry>)
    ensures HearIfaces(skip, v, es).Keys == v.Keys + (set n | n in EntryNames(es) && !(skip && Builtin(n)))
    decreases es
  {
    if es != [] {
      var v1 := HearIface(skip, v, es[0]);
      HearIfacesKeys(skip, v1, es[1..]);
      assert EntryNames(es) == [es[0].name] + EntryNames(es[1..]);
    }
  }

  /** An interface named once in the list ends up with its entry learnt on top of what was known. */
  lemma {:induction false} HearIfacesAt(skip: bool, v: PathView, es: seq<IfaceEntry>, k: nat)
    requires NoDup(EntryNames(es)) && k < |es| && !(skip && Builtin(es[k].name))
    ensures es[k].name in HearIfaces(skip, v, es)
    ensures HearIfaces(skip, v, es)[es[k].name] == Learn(Known(v, es[k].name), es[k].props)
    decreases es
  {
    var names := EntryNames(es);
    var v1 := HearIface(skip, v, es[0]);
    assert EntryNames(es[1..]) == names[1..];
    if k == 0 {
      assert names[0] !in names[1..];
      HearIfacesOther(skip, v1, es[1..], es[0].name);
    } else {
      assert names[0] != names[k];
      HearIfacesAt(skip, v1, es[1..], k - 1);
    }
  }

  lemma {:induction false} HearIfacesOther(skip: bool, v: PathView, es: seq<IfaceEntry>, name: string)
    requires name !in EntryNames(es)
    ensures name in HearIfaces(skip, v, es) <==> name in v
    ensures name in v ==> HearIfaces(skip, v, es)[name] == v[name]
    decreases es
  {
    if es != [] {
      assert EntryNames(es)[0] == es[0].name;
      assert EntryNames(es[1..]) == EntryNames(es)[1..];
      HearIfacesOther(skip, HearIface(skip, v, es[0]), es[1..], name);
    }
  }
}
