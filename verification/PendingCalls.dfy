/** Method calls and property sets that wait for an answer: signature check, deferral, completion. */
module PendingCalls {
  import opened Lists

  const U32 := 0x1_0000_0000

  // ---- argument signatures ----

  function Concat(args: seq<string>): string {
    if args == [] then "" else args[0] + Concat(args[1..])
  }

  /** What an argument table accepts: its concatenation, but nothing if its last entry is empty. */
  predicate Accepts(args: seq<string>, signature: string) {
    signature == Concat(args) && (args == [] || args[|args| - 1] != "")
  }

  lemma {:induction false} ConcatSplit(args: seq<string>, i: nat)
    requires i <= |args|
    ensures Concat(args) == Concat(args[..i]) + Concat(args[i..])
  {
    if i > 0 {
      ConcatSplit(args[1..], i - 1);
      assert args[..i][1..] == args[1..][..i - 1] && args[i..] == args[1..][i - 1..];
    }
  }

  lemma ConcatNext(args: seq<string>, i: nat)
    requires i < |args|
    ensures Concat(args[..i + 1]) == Concat(args[..i]) + args[i]
  {
    ConcatSplit(args[..i + 1], i);
    assert args[..i + 1][..i] == args[..i] && args[..i + 1][i..] == [args[i]];
    assert Concat([args[i]]) == args[i] + Concat([args[i]][1..]);
  }

  lemma {:induction false} EmptyConcat(args: seq<string>)
    requires Concat(args) == "" && args != []
    ensures args[|args| - 1] == ""
  {
    if |args| > 1 {
      EmptyConcat(args[1..]);
    }
  }

  /** The part of a table that was compared so far agrees with the part of the signature. */
  ghost predicate Agrees(args: seq<string>, signature: string, i: nat, k: nat, p: string) {
    && i <= |args| && k <= |signature|
    && signature[..k] + p == Concat(args[..i])
    && (i > 0 && args[i - 1] == "" ==> k < |signature|)
  }

  lemma Mismatch(args: seq<string>, signature: string, i: nat, k: nat, p: string)
    requires Agrees(args, signature, i, k, p) && k < |signature| && p != "" && p[0] != signature[k]
    ensures signature != Concat(args)
  {
    ConcatSplit(args, i);
    assert (signature[..k] + p + Concat(args[i..]))[k] == p[0];
  }

  lemma Decided(args: seq<string>, signature: string, i: nat, k: nat, p: string)
    requires Agrees(args, signature, i, k, p) && (i == |args| || k == |signature|) && (p != "" ==> k == |signature|)
    ensures Accepts(args, signature) <==> k == |signature| && p == "" && i == |args|
  {
    ConcatSplit(args, i);
    assert args[..|args|] == args;
    if k == |signature| {
      assert signature[..k] == signature;
      if i < |args| && signature == Concat(args) {
        LengthZero(signature, p, Concat(args[i..]));
        EmptyConcat(args[i..]);
      } else if p != "" {
        assert |Concat(args)| >= |signature| + |p|;
      }
    } else {
      assert |Concat(args)| == k;
    }
  }

  lemma LengthZero(s: string, p: string, q: string)
    requires s == s + p + q
    ensures p == "" && q == ""
  {
    assert |s| == |s| + |p| + |q|;
  }

  /** `g_dbus_args_have_signature`: one pass over the message's signature and the argument table. */
  method ArgsHaveSignature(args: seq<string>, signature: string) returns (ok: bool)
    ensures ok <==> Accepts(args, signature)
    ensures (forall a :: a in args ==> a != "") ==> (ok <==> signature == Concat(args))
  {
    var k, i, p := 0, 0, "";
    while i < |args| && k < |signature|
      invariant Agrees(args, signature, i, k, p) && (p != "" ==> k == |signature|)
    {
      p := args[i];
      ConcatNext(args, i);
      ghost var start := k;
      while k < |signature| && p != ""
        invariant start <= k <= |signature| && signature[..k] + p == Concat(args[..i + 1]) && (k == start ==> p == args[i])
        decreases |p|
      {
        if p[0] != signature[k] {
          Mismatch(args, signature, i + 1, k, p);
          return false;
        }
        assert signature[..k] + p == signature[..k + 1] + p[1..];
        k, p := k + 1, p[1..];
      }
      i := i + 1;
    }
    Decided(args, signature, i, k, p);
    ok := k == |signature| && p == "" && i == |args|;
    if forall a :: a in args ==> a != "" {
      assert args != [] ==> args[|args| - 1] in args;
    }
  }

  // ---- waiting for an answer ----

  /** An entry of `pending_security` or `pending_property_set`; latest entries come first. */
  datatype Waiting<T> = Waiting(id: nat, item: T)

  /** `done` is the history of the completed entries and their answers. */
  datatype State<T> = State(list: seq<Waiting<T>>, next: nat, done: seq<(Waiting<T>, bool)>)

  function Defer<T>(s: State<T>, item: T): State<T> {
    s.(list := [Waiting(s.next, item)] + s.list, next := (s.next + 1) % U32)
  }

  function Search<T>(l: seq<Waiting<T>>, id: nat): Option<Waiting<T>> {
    if l == [] then None else if l[0].id == id then Some(l[0]) else Search(l[1..], id)
  }

  function Resolve<T(==)>(s: State<T>, id: nat, granted: bool): State<T> {
    match Search(s.list, id)
    case None => s
    case Some(w) => s.(list := RemoveFirst(s.list, w), done := s.done + [(w, granted)])
  }

  datatype Event<T> = Deferred(item: T) | Resolved(id: nat, granted: bool)

  function Step<T(==)>(s: State<T>, e: Event<T>): State<T> {
    match e
    case Deferred(item) => Defer(s, item)
    case Resolved(id, granted) => Resolve(s, id, granted)
  }

  function Run<T(==)>(s: State<T>, l: seq<Event<T>>): State<T>
    decreases l
  {
    if l == [] then s else Run(Step(s, l[0]), l[1..])
  }

  function Items<T>(l: seq<Event<T>>): seq<T> {
    if l == [] then [] else if l[0].Deferred? then [l[0].item] + Items(l[1..]) else Items(l[1..])
  }

  function Finished<T>(l: seq<(Waiting<T>, bool)>): seq<Waiting<T>> {
    if l == [] then [] else Finished(l[..|l| - 1]) + [l[|l| - 1].0]
  }

  function Times<T(==)>(l: seq<Waiting<T>>, w: Waiting<T>): nat {
    if l == [] then 0 else (if l[0] == w then 1 else 0) + Times(l[1..], w)
  }

  function ItemTimes<T(==)>(l: seq<Waiting<T>>, item: T): nat {
    if l == [] then 0 else (if l[0].item == item then 1 else 0) + ItemTimes(l[1..], item)
  }

  function Wanted<T(==)>(l: seq<T>, item: T): nat {
    if l == [] then 0 else (if l[0] == item then 1 else 0) + Wanted(l[1..], item)
  }

  /** How often an entry is waiting or completed, and how often an item is. */
  function Count<T(==)>(s: State<T>, w: Waiting<T>): nat { Times(s.list, w) + Times(Finished(s.done), w) }

  function Accounted<T(==)>(s: State<T>, item: T): nat { ItemTimes(s.list, item) + ItemTimes(Finished(s.done), item) }

  /** With `n` ids handed out: nothing is there twice, and ids are distinct and among these. */
  ghost predicate Ok<T(!new)>(s: State<T>, n: nat) {
    && n < U32 && s.next == (n + 1) % U32
    && (forall w :: Count(s, w) <= 1 && (Count(s, w) > 0 ==> 1 <= w.id <= n))
    && (forall v, w :: Count(s, v) > 0 && Count(s, w) > 0 && v.id == w.id ==> v == w)
  }

  lemma {:induction false} SearchIn<T>(l: seq<Waiting<T>>, id: nat)
    ensures Search(l, id).Some? ==> Search(l, id).value in l && Search(l, id).value.id == id
    ensures Search(l, id).None? ==> forall w :: w in l ==> w.id != id
  {
    if l != [] {
      SearchIn(l[1..], id);
    }
  }

  lemma {:induction false} TimesIn<T>(l: seq<Waiting<T>>, w: Waiting<T>)
    ensures Times(l, w) > 0 <==> w in l
  {
    if l != [] {
      TimesIn(l[1..], w);
    }
  }

  lemma {:induction false} RemoveCounts<T>(l: seq<Waiting<T>>, w: Waiting<T>, x: Waiting<T>, item: T)
    requires w in l
    ensures Times(l, x) == Times(RemoveFirst(l, w), x) + if x == w then 1 else 0
    ensures ItemTimes(l, item) == ItemTimes(RemoveFirst(l, w), item) + if item == w.item then 1 else 0
  {
    if l[0] != w {
      RemoveCounts(l[1..], w, x, item);
      assert RemoveFirst(l, w)[1..] == RemoveFirst(l[1..], w);
    }
  }

  lemma {:induction false} SnocCounts<T>(l: seq<Waiting<T>>, w: Waiting<T>, x: Waiting<T>, item: T)
    ensures Times(l + [w], x) == Times(l, x) + if x == w then 1 else 0
    ensures ItemTimes(l + [w], item) == ItemTimes(l, item) + if item == w.item then 1 else 0
  {
    if l == [] {
      assert l + [w] == [w];
      assert Times([w][1..], x) == 0 && ItemTimes([w][1..], item) == 0;
    } else {
      assert (l + [w])[1..] == l[1..] + [w];
      SnocCounts(l[1..], w, x, item);
    }
  }

  lemma FinishedSnoc<T>(l: seq<(Waiting<T>, bool)>, w: Waiting<T>, b: bool)
    ensures Finished(l + [(w, b)]) == Finished(l) + [w]
  {
    assert (l + [(w, b)])[..|l|] == l;
  }

  lemma DeferCounts<T>(s: State<T>, item: T, x: Waiting<T>, y: T)
    ensures Count(Defer(s, item), x) == Count(s, x) + if x == Waiting(s.next, item) then 1 else 0
    ensures Accounted(Defer(s, item), y) == Accounted(s, y) + if y == item then 1 else 0
  {
    assert Defer(s, item).list[1..] == s.list;
  }

  lemma DeferOk<T(!new)>(s: State<T>, item: T, n: nat)
    requires Ok(s, n) && n + 1 < U32
    ensures Ok(Defer(s, item), n + 1)
  {
    var t, added := Defer(s, item), Waiting(s.next, item);
    forall w ensures Count(t, w) == Count(s, w) + if w == added then 1 else 0 { DeferCounts(s, item, w, item); }
    assert Count(s, added) == 0;
  }

  /** Completing an entry moves it from the list to the history and so keeps all counts. */
  lemma ResolveCounts<T>(s: State<T>, id: nat, granted: bool, x: Waiting<T>, y: T)
    ensures Count(Resolve(s, id, granted), x) == Count(s, x)
    ensures Accounted(Resolve(s, id, granted), y) == Accounted(s, y)
  {
    SearchIn(s.list, id);
    if Search(s.list, id).Some? {
      var w := Search(s.list, id).value;
      RemoveCounts(s.list, w, x, y);
      FinishedSnoc(s.done, w, granted);
      SnocCounts(Finished(s.done), w, x, y);
    }
  }

  lemma ResolveOk<T(!new)>(s: State<T>, id: nat, granted: bool, n: nat)
    requires Ok(s, n)
    ensures Ok(Resolve(s, id, granted), n)
  {
    forall w ensures Count(Resolve(s, id, granted), w) == Count(s, w) { ResolveCounts(s, id, granted, w, w.item); }
  }

  /** In every run with fewer than 2^32 ids no entry is completed twice: ids stay distinct over what
      waits and what is completed. */
  lemma {:induction false} CompletedOnce<T(!new)>(s: State<T>, l: seq<Event<T>>, n: nat)
    requires Ok(s, n) && n + |Items(l)| < U32
    ensures Ok(Run(s, l), n + |Items(l)|)
    decreases l
  {
    if l != [] {
      match l[0] {
        case Deferred(item) =>
          DeferOk(s, item, n);
          CompletedOnce(Defer(s, item), l[1..], n + 1);
        case Resolved(id, granted) =>
          ResolveOk(s, id, granted, n);
          CompletedOnce(Resolve(s, id, granted), l[1..], n);
      }
    }
  }

  /** Nothing is lost either: a deferred item is waiting or completed exactly as often as it was deferred. */
  lemma {:induction false} NothingLost<T>(s: State<T>, l: seq<Event<T>>, item: T)
    ensures Accounted(Run(s, l), item) == Accounted(s, item) + Wanted(Items(l), item)
    decreases l
  {
    if l != [] {
      NothingLost(Step(s, l[0]), l[1..], item);
      match l[0] {
        case Deferred(x) =>
          DeferCounts(s, x, Waiting(0, item), item);
          assert Items(l)[1..] == Items(l[1..]);
        case Resolved(id, granted) => ResolveCounts(s, id, granted, Waiting(0, item), item);
      }
    }
  }

  /** An id that is not waiting changes nothing; that is so for every id completed or not yet handed out. */
  lemma UsedIdIgnored<T(!new)>(s: State<T>, id: nat, granted: bool, n: nat)
    requires Ok(s, n) && ((exists w :: w in Finished(s.done) && w.id == id) || id == 0 || id > n)
    ensures Resolve(s, id, granted) == s
  {
    SearchIn(s.list, id);
    if Search(s.list, id).Some? {
      var w := Search(s.list, id).value;
      TimesIn(s.list, w);
      if x :| x in Finished(s.done) && x.id == id {
        TimesIn(Finished(s.done), x);
        TimesIn(Finished(s.done), w);
      }
    }
  }

  // ---- delivering a method call ----

  datatype Method = Method(name: string, experimental: bool, inArgs: seq<string>, privilege: nat)

  datatype Message = Message(serial: nat, member: string, signature: string)

  datatype Call = Call(message: Message, target: Method)

  /** What a security function does before it returns. */
  datatype Answer = Later | Now(granted: bool)

  datatype Outcome = NotHandled | Ran(m: Method) | Waits(m: Method)

  /** Which method of the table a message reaches: the first of its name whose arguments fit, unless an
      experimental one of that name comes first and these are not enabled. */
  function Reach(methods: seq<Method>, enabled: bool, msg: Message): Option<Method> {
    if methods == [] then None
    else if methods[0].name != msg.member then Reach(methods[1..], enabled, msg)
    else if methods[0].experimental && !enabled then None
    else if Accepts(methods[0].inArgs, msg.signature) then Some(methods[0])
    else Reach(methods[1..], enabled, msg)
  }

  /** The method has the name and takes arguments of the signature; a table with an empty last entry takes none. */
  predicate Takes(m: Method, msg: Message) {
    m.name == msg.member && Concat(m.inArgs) == msg.signature && (m.inArgs == [] || |m.inArgs[|m.inArgs| - 1]| > 0)
  }

  /** The `k`-th method takes the message, none before it does, and neither it nor one of its name before it
      is experimental while these are disabled. */
  predicate FirstToTake(methods: seq<Method>, enabled: bool, msg: Message, k: int) {
    && 0 <= k < |methods| && Takes(methods[k], msg) && (methods[k].experimental ==> enabled)
    && forall j :: 0 <= j < k && methods[j].name == msg.member ==> !Takes(methods[j], msg) && (methods[j].experimental ==> enabled)
  }

  lemma FirstBehind(methods: seq<Method>, enabled: bool, msg: Message, k: int)
    requires methods != [] && !(methods[0].name == msg.member && ((methods[0].experimental && !enabled) || Takes(methods[0], msg)))
    ensures FirstToTake(methods, enabled, msg, k) <==> FirstToTake(methods[1..], enabled, msg, k - 1)
  {
    var t := methods[1..];
    assert forall j :: 0 <= j < |t| ==> t[j] == methods[j + 1];
    assert forall j :: 0 < j < |methods| ==> methods[j] == t[j - 1];
  }

  lemma {:induction false} ReachAt(methods: seq<Method>, enabled: bool, msg: Message, k: int)
    requires FirstToTake(methods, enabled, msg, k)
    ensures Reach(methods, enabled, msg) == Some(methods[k])
  {
    if k > 0 {
      FirstBehind(methods, enabled, msg, k);
      ReachAt(methods[1..], enabled, msg, k - 1);
    }
  }

  lemma {:induction false} ReachFirst(methods: seq<Method>, enabled: bool, msg: Message) returns (k: int)
    requires Reach(methods, enabled, msg).Some?
    ensures FirstToTake(methods, enabled, msg, k)
  {
    k := 0;
    if methods[0].name != msg.member || !Accepts(methods[0].inArgs, msg.signature) {
      k := ReachFirst(methods[1..], enabled, msg);
      k := k + 1;
      FirstBehind(methods, enabled, msg, k);
    }
  }

  /** A method whose last argument entry is empty, and a message with exactly its signature. */
  const ODD := Method("Get", false, ["s", ""], 0)
  const ODD_CALL := Message(1, "Get", "s")

  /** The message does not reach the method. */
  lemma LastEntryEmpty()
    ensures Concat(ODD.inArgs) == ODD_CALL.signature && Reach([ODD], true, ODD_CALL) == None
  {
    assert ODD.inArgs[1..] == [""] && Concat([""]) == "" + Concat([""][1..]);
    assert Reach([ODD][1..], true, ODD_CALL) == None;
  }

  /** A method with a guarded privilege waits for its security function; any other runs at once. */
  function Delivered(methods: seq<Method>, enabled: bool, guarded: seq<nat>, msg: Message): Outcome {
    match Reach(methods, enabled, msg)
    case None => NotHandled
    case Some(m) => if m.privilege in guarded then Waits(m) else Ran(m)
  }

  /** A call runs at once, waits for its security function, or is not handled: it goes to the first method
      of the table that takes it, and waits exactly if the privilege of this method is guarded. */
  lemma DeliveredIff(methods: seq<Method>, enabled: bool, guarded: seq<nat>, msg: Message)
    ensures var outcome := Delivered(methods, enabled, guarded, msg);
      (outcome != NotHandled <==> exists k :: FirstToTake(methods, enabled, msg, k))
      && forall k :: FirstToTake(methods, enabled, msg, k) ==>
           outcome == if methods[k].privilege in guarded then Waits(methods[k]) else Ran(methods[k])
  {
    forall k | FirstToTake(methods, enabled, msg, k) ensures Reach(methods, enabled, msg) == Some(methods[k]) {
      ReachAt(methods, enabled, msg, k);
    }
    if Reach(methods, enabled, msg).Some? { var k := ReachFirst(methods, enabled, msg); }
  }

  /** The messages that were run, and those answered with an error. */
  function Effects(d: seq<(Waiting<Call>, bool)>, granted: bool): seq<Call> {
    if d == [] then []
    else Effects(d[..|d| - 1], granted) + if d[|d| - 1].1 == granted then [d[|d| - 1].0.item] else []
  }

  lemma EffectsSnoc(d: seq<(Waiting<Call>, bool)>, w: Waiting<Call>, b: bool, granted: bool)
    ensures Effects(d + [(w, b)], granted) == Effects(d, granted) + if b == granted then [w.item] else []
  {
    assert (d + [(w, b)])[..|d|] == d;
  }

  /** The pending calls of the object server. */
  class Security {
    /** Whether experimental members are enabled, and the guarded privileges of the installed security table. */
    const enabled: bool
    const guarded: seq<nat>
    var pendingSecurity: seq<Waiting<Call>>
    var nextPending: nat
    /** Calls of method functions, and error replies, in order. */
    var ran: seq<Call>
    var refused: seq<Call>
    ghost var direct: seq<Call>
    ghost var done: seq<(Waiting<Call>, bool)>

    constructor (enabled: bool, guarded: seq<nat>)
      ensures Valid() && this.enabled == enabled && this.guarded == guarded && S() == State([], 1, []) && ran == [] && refused == []
    {
      this.enabled, this.guarded := enabled, guarded;
      pendingSecurity, nextPending, ran, refused := [], 1, [], [];
      direct, done := [], [];
    }

    ghost function S(): State<Call>
      reads this
    {
      State(pendingSecurity, nextPending, done)
    }

    /** Every guarded call that ran was granted before, and every refused one was denied. */
    ghost predicate Valid()
      reads this
    {
      && (forall c :: c in ran ==> c in direct || c in Effects(done, true))
      && (forall c :: c in direct ==> c.target.privilege !in guarded)
      && refused == Effects(done, false)
    }

    /** `g_dbus_pending_success` and `g_dbus_pending_error`: the first entry with this id is completed. */
    method Complete(id: nat, granted: bool)
      requires Valid()
      modifies this`pendingSecurity, this`ran, this`refused, this`done
      ensures Valid() && S() == Resolve(old(S()), id, granted)
      ensures ran == old(ran) + if granted && Search(old(pendingSecurity), id).Some? then [Search(old(pendingSecurity), id).value.item] else []
    {
      var l := pendingSecurity;
      while l != []
        invariant Search(l, id) == Search(pendingSecurity, id) && Valid() && S() == old(S()) && ran == old(ran)
        decreases |l|
      {
        var w := l[0];
        if w.id == id {
          pendingSecurity := RemoveFirst(pendingSecurity, w);
          EffectsSnoc(done, w, granted, true);
          EffectsSnoc(done, w, granted, false);
          done := done + [(w, granted)];
          if granted {
            ran := ran + [w.item];
          } else {
            refused := refused + [w.item];
          }
          return;
        }
        l := l[1..];
      }
    }

    /** `check_privilege`: with a guarded privilege the call is queued and the security function, which may
        answer at once, is asked. */
    method CheckPrivilege(msg: Message, m: Method, answer: Answer) returns (waits: bool)
      requires Valid()
      modifies this`pendingSecurity, this`nextPending, this`ran, this`refused, this`done
      ensures Valid() && (waits <==> m.privilege in guarded)
      ensures !waits ==> S() == old(S()) && ran == old(ran)
      ensures waits ==> var s := Defer(old(S()), Call(msg, m));
        S() == if answer.Now? then Resolve(s, old(nextPending), answer.granted) else s
    {
      var i := 0;
      while i < |guarded|
        invariant 0 <= i <= |guarded| && m.privilege !in guarded[..i] && Valid() && S() == old(S()) && ran == old(ran)
      {
        if guarded[i] == m.privilege {
          var id := nextPending;
          pendingSecurity := [Waiting(id, Call(msg, m))] + pendingSecurity;
          nextPending := (nextPending + 1) % U32;
          if answer.Now? {
            Complete(id, answer.granted);
          }
          return true;
        }
        assert guarded[..i + 1] == guarded[..i] + [guarded[i]];
        i := i + 1;
      }
      assert guarded[..i] == guarded;
      waits := false;
    }

    /** The loop of `generic_message` over the methods of the interface. */
    method Deliver(methods: seq<Method>, msg: Message, answer: Answer) returns (handled: bool)
      requires Valid()
      modifies this`pendingSecurity, this`nextPending, this`ran, this`refused, this`done, this`direct
      ensures Valid() && (handled <==> Delivered(methods, enabled, guarded, msg) != NotHandled)
      ensures match Delivered(methods, enabled, guarded, msg)
        case NotHandled => S() == old(S()) && ran == old(ran)
        case Ran(m) => S() == old(S()) && ran == old(ran) + [Call(msg, m)]
        case Waits(m) =>
          var s := Defer(old(S()), Call(msg, m));
          S() == if answer.Now? then Resolve(s, old(nextPending), answer.granted) else s
    {
      var l := methods;
      while l != []
        invariant Reach(l, enabled, msg) == Reach(methods, enabled, msg) && Valid() && S() == old(S()) && ran == old(ran)
        decreases |l|
      {
        var m := l[0];
        l := l[1..];
        if m.name != msg.member { continue; }
        if m.experimental && !enabled { return false; }
        var fits := ArgsHaveSignature(m.inArgs, msg.signature);
        if !fits { continue; }
        var waits := CheckPrivilege(msg, m, answer);
        if !waits {
          ran := ran + [Call(msg, m)];
          direct := direct + [Call(msg, m)];
        }
        return true;
      }
      handled := false;
    }
  }

  /** The pending property sets of the object server. */
  class PropertySets {
    var pendingPropertySet: seq<Waiting<Message>>
    var nextPendingProperty: nat
    ghost var done: seq<(Waiting<Message>, bool)>

    constructor ()
      ensures S() == State([], 1, [])
    {
      pendingPropertySet, nextPendingProperty := [], 1;
      done := [];
    }

    ghost function S(): State<Message>
      reads this
    {
      State(pendingPropertySet, nextPendingProperty, done)
    }

    /** The end of `properties_set`: the setter is given an id to answer to. */
    method Start(msg: Message) returns (id: nat)
      modifies this`pendingPropertySet, this`nextPendingProperty
      ensures id == old(nextPendingProperty) && S() == Defer(old(S()), msg)
    {
      id := nextPendingProperty;
      pendingPropertySet := [Waiting(id, msg)] + pendingPropertySet;
      nextPendingProperty := (nextPendingProperty + 1) % U32;
    }

    /** `remove_pending_property_data`, with the reply or the error that follows it. */
    method Complete(id: nat, success: bool) returns (w: Option<Waiting<Message>>)
      modifies this`pendingPropertySet, this`done
      ensures w == Search(old(pendingPropertySet), id) && S() == Resolve(old(S()), id, success)
    {
      var l := pendingPropertySet;
      while l != [] && l[0].id != id
        invariant Search(l, id) == Search(pendingPropertySet, id)
        decreases |l|
      {
        l := l[1..];
      }
      if l == [] {
        return None;
      }
      w := Some(l[0]);
      pendingPropertySet := RemoveFirst(pendingPropertySet, l[0]);
      done := done + [(l[0], success)];
    }
  }
}
