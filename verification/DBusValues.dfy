/** D-Bus values and signatures (section "Type System" of the D-Bus Specification), and the token
    stream a message iterator writes for a value. */
module DBusValues {
  datatype DValue =
    | Bool(b: bool)
    | Int32(i: int)
    | Double(r: real)
    | Str(s: string)
    | Array(elemSig: string, elems: seq<DValue>)
    | DictEntry(key: DValue, value: DValue)
    | Variant(sig: string, content: DValue)
  {
    predicate Basic() { Bool? || Int32? || Double? || Str? }
  }

  /** The signature a value has by its own shape. */
  function Sig(d: DValue): string {
    match d
    case Bool(_) => "b"
    case Int32(_) => "i"
    case Double(_) => "d"
    case Str(_) => "s"
    case Array(e, _) => "a" + e
    case DictEntry(k, v) => "{" + Sig(k) + Sig(v) + "}"
    case Variant(_, _) => "v"
  }

  /** One of the basic types this program uses. */
  predicate BasicSig(s: string) { s == "b" || s == "i" || s == "d" || s == "s" }

  /** Exactly one complete type; a dictionary entry only as the element of an array. */
  predicate CompleteSig(s: string, element: bool) {
    || BasicSig(s) || s == "v"
    || (|s| > 1 && s[0] == 'a' && CompleteSig(s[1..], true))
    || (element && |s| > 3 && s[0] == '{' && s[|s| - 1] == '}' && BasicSig(s[1..2]) && CompleteSig(s[2..|s| - 1], false))
  }

  /** Containers hold what their signatures declare. */
  predicate WellTyped(d: DValue) {
    match d
    case Array(e, es) => CompleteSig(e, true) && forall k :: 0 <= k < |es| ==> WellTyped(es[k]) && Sig(es[k]) == e
    case DictEntry(k, v) => k.Basic() && !v.DictEntry? && WellTyped(v)
    case Variant(s, c) => CompleteSig(s, false) && WellTyped(c) && Sig(c) == s
    case _ => true
  }

  // ---- the token stream ----

  /** What the append functions of libdbus put into a message. */
  datatype Token = Open(kind: char, sig: string) | Close | Value(v: DValue)

  function Tokens(d: DValue): seq<Token>
    decreases d, 1
  {
    match d
    case Array(e, es) => [Open('a', e)] + TokensAll(es) + [Close]
    case DictEntry(k, v) => [Open('e', "")] + Tokens(k) + Tokens(v) + [Close]
    case Variant(s, c) => [Open('v', s)] + Tokens(c) + [Close]
    case _ => [Value(d)]
  }

  function TokensAll(es: seq<DValue>): seq<Token>
    decreases es, 0
  {
    if es == [] then [] else Tokens(es[0]) + TokensAll(es[1..])
  }

  /** One more value of a list has been written. */
  lemma TokensNext(es: seq<DValue>, k: nat, before: seq<Token>)
    requires k < |es|
    ensures before + TokensAll(es[k..]) == before + Tokens(es[k]) + TokensAll(es[k + 1..])
  {
    assert es[k..][1..] == es[k + 1..] && es[k..][0] == es[k];
  }

  lemma {:induction false} TokensAllConcat(a: seq<DValue>, b: seq<DValue>)
    ensures TokensAll(a + b) == TokensAll(a) + TokensAll(b)
  {
    if a == [] {
      assert a + b == b;
    } else {
      assert (a + b)[1..] == a[1..] + b;
      TokensAllConcat(a[1..], b);
    }
  }

  datatype Reading<T> = Fail | Read(item: T, rest: seq<Token>)

  /** Reads one value back from the front of a stream. */
  function ReadOne(ts: seq<Token>): (r: Reading<DValue>)
    ensures r.Read? ==> |r.rest| < |ts|
    decreases |ts|, 0
  {
    if ts == [] then Fail
    else match ts[0]
      case Value(v) => if v.Basic() then Read(v, ts[1..]) else Fail
      case Close => Fail
      case Open(kind, sig) =>
        match ReadMany(ts[1..])
        case Fail => Fail
        case Read(items, rest) =>
          if kind == 'a' then Read(Array(sig, items), rest)
          else if kind == 'v' && |items| == 1 then Read(Variant(sig, items[0]), rest)
          else if kind == 'e' && sig == "" && |items| == 2 then Read(DictEntry(items[0], items[1]), rest)
          else Fail
  }

  /** Reads values up to and including the closing token. */
  function ReadMany(ts: seq<Token>): (r: Reading<seq<DValue>>)
    ensures r.Read? ==> |r.rest| < |ts|
    decreases |ts|, 1
  {
    if ts == [] then Fail
    else if ts[0] == Close then Read([], ts[1..])
    else match ReadOne(ts)
      case Fail => Fail
      case Read(v, rest) =>
        match ReadMany(rest)
        case Fail => Fail
        case Read(vs, rest') => Read([v] + vs, rest')
  }

  /** Streams are uniquely readable: opening and closing tokens match up around every value. */
  lemma {:induction false} ReadBack(d: DValue, rest: seq<Token>)
    ensures ReadOne(Tokens(d) + rest) == Read(d, rest)
    ensures Tokens(d) != [] && Tokens(d)[0] != Close
    decreases d, 1
  {
    match d
    case Array(e, es) =>
      ReadBackAll(es, rest);
      assert (Tokens(d) + rest)[1..] == TokensAll(es) + ([Close] + rest);
    case DictEntry(k, v) =>
      ReadBack(v, [Close] + rest);
      ReadBack(k, Tokens(v) + ([Close] + rest));
      ReadEntry(k, v, rest);
    case Variant(s, c) =>
      ReadBack(c, [Close] + rest);
      ReadVariant(s, c, rest);
    case _ => assert (Tokens(d) + rest)[1..] == rest;
  }

  lemma ReadEntry(k: DValue, v: DValue, rest: seq<Token>)
    requires ReadOne(Tokens(v) + ([Close] + rest)) == Read(v, [Close] + rest) && Tokens(v) != [] && Tokens(v)[0] != Close
    requires var more := Tokens(v) + ([Close] + rest); ReadOne(Tokens(k) + more) == Read(k, more)
    requires Tokens(k) != [] && Tokens(k)[0] != Close
    ensures ReadOne(Tokens(DictEntry(k, v)) + rest) == Read(DictEntry(k, v), rest)
  {
    var more := Tokens(v) + ([Close] + rest);
    assert [v] + [] == [v] && [k] + [v] == [k, v];
    NoMore(rest);
    Consecutive(v, [], [Close] + rest, rest);
    Consecutive(k, [v], more, rest);
    EntryTokens(k, v, rest);
    Opened('e', "", Tokens(k) + more, [k, v], rest);
  }

  lemma EntryTokens(k: DValue, v: DValue, rest: seq<Token>)
    ensures Tokens(DictEntry(k, v)) + rest == [Open('e', "")] + (Tokens(k) + (Tokens(v) + ([Close] + rest)))
  {
  }

  lemma Opened(kind: char, sig: string, ts: seq<Token>, items: seq<DValue>, rest: seq<Token>)
    requires ReadMany(ts) == Read(items, rest)
    requires kind == 'e' && sig == "" && |items| == 2
    ensures ReadOne([Open(kind, sig)] + ts) == Read(DictEntry(items[0], items[1]), rest)
  {
    assert ([Open(kind, sig)] + ts)[1..] == ts;
  }

  lemma ReadVariant(s: string, c: DValue, rest: seq<Token>)
    requires ReadOne(Tokens(c) + ([Close] + rest)) == Read(c, [Close] + rest) && Tokens(c) != [] && Tokens(c)[0] != Close
    ensures ReadOne(Tokens(Variant(s, c)) + rest) == Read(Variant(s, c), rest)
  {
    assert [c] + [] == [c];
    NoMore(rest);
    Consecutive(c, [], [Close] + rest, rest);
    VariantTokens(s, c, rest);
    OpenedVariant(s, Tokens(c) + ([Close] + rest), c, rest);
  }

  lemma NoMore(rest: seq<Token>)
    ensures ReadMany([Close] + rest) == Read([], rest)
  {
    assert ([Close] + rest)[1..] == rest;
  }

  lemma VariantTokens(s: string, c: DValue, rest: seq<Token>)
    ensures Tokens(Variant(s, c)) + rest == [Open('v', s)] + (Tokens(c) + ([Close] + rest))
  {
  }

  lemma OpenedVariant(sig: string, ts: seq<Token>, c: DValue, rest: seq<Token>)
    requires ReadMany(ts) == Read([c], rest)
    ensures ReadOne([Open('v', sig)] + ts) == Read(Variant(sig, c), rest)
  {
    assert ([Open('v', sig)] + ts)[1..] == ts;
  }

  lemma Consecutive(d: DValue, more: seq<DValue>, ts: seq<Token>, rest: seq<Token>)
    requires ReadOne(Tokens(d) + ts) == Read(d, ts) && Tokens(d) != [] && Tokens(d)[0] != Close
    requires ReadMany(ts) == Read(more, rest)
    ensures ReadMany(Tokens(d) + ts) == Read([d] + more, rest)
  {
    assert (Tokens(d) + ts)[0] == Tokens(d)[0];
  }

  lemma {:induction false} ReadBackAll(es: seq<DValue>, rest: seq<Token>)
    ensures ReadMany(TokensAll(es) + ([Close] + rest)) == Read(es, rest)
    decreases es, 0
  {
    var ts := TokensAll(es) + ([Close] + rest);
    if es == [] {
      assert ts == [Close] + rest;
    } else {
      var rest1 := TokensAll(es[1..]) + ([Close] + rest);
      ReadBack(es[0], rest1);
      ReadBackAll(es[1..], rest);
      Consecutive(es[0], es[1..], rest1, rest);
      assert ts == Tokens(es[0]) + rest1;
      assert [es[0]] + es[1..] == es;
    }
  }
}
