/** `iter_append_iter` of gdbus/client.c, with which a proxy keeps received property values: the walk
    over a value writes exactly that value. */
module ValueCopy {
  import opened Lists
  import opened DBusValues
  import opened MessageWriter

  /** A dictionary entry is only met inside an array. */
  predicate Placed(stack: seq<Frame>, d: DValue) {
    Accepts(stack, Sig(d)) && (d.DictEntry? ==> stack != [] && stack[|stack| - 1].kind == 'a')
  }

  /** `iter_append_iter`. */
  method IterAppendIter(m: Message, d: DValue)
    requires WellTyped(d) && Placed(m.stack, d)
    modifies m
    ensures m.tokens == old(m.tokens) + Tokens(d) && m.stack == Took(old(m.stack), Sig(d))
    decreases d, 2
  {
    match d
    case Array(sig, es) => CopyArray(m, sig, es);
    case DictEntry(k, v) => CopyEntry(m, k, v);
    case Variant(sig, c) => CopyVariant(m, sig, c);
    case _ => m.AppendBasic(d);
  }

  /** An array: its elements between opening and closing. */
  method CopyArray(m: Message, sig: string, es: seq<DValue>)
    requires WellTyped(Array(sig, es)) && Accepts(m.stack, "a" + sig)
    modifies m
    ensures m.tokens == old(m.tokens) + Tokens(Array(sig, es)) && m.stack == Took(old(m.stack), "a" + sig)
    decreases Array(sig, es), 1
  {
    ghost var before := m.stack;
    m.OpenContainer('a', sig);
    CopyAll(m, es, sig);
    CloseArray(m, sig, before);
  }

  /** A variant: its one value between opening and closing. */
  method CopyVariant(m: Message, sig: string, c: DValue)
    requires WellTyped(Variant(sig, c)) && Accepts(m.stack, "v")
    modifies m
    ensures m.tokens == old(m.tokens) + Tokens(Variant(sig, c)) && m.stack == Took(old(m.stack), "v")
    decreases Variant(sig, c), 1
  {
    ghost var before := m.stack;
    m.OpenContainer('v', sig);
    VariantTakes(before, sig, c);
    IterAppendIter(m, c);
    CloseVariant(m, sig, before);
  }

  /** A variant takes its value; it holds no dictionary entry, whose signature is not complete. */
  lemma VariantTakes(stack: seq<Frame>, sig: string, c: DValue)
    requires WellTyped(Variant(sig, c))
    ensures WellTyped(c) && Sig(c) == sig && Placed(stack + [Frame('v', sig, [])], c)
    ensures Tokens(Variant(sig, c)) == [Open('v', sig)] + Tokens(c) + [Close]
  {
    assert Sig(c) != "" && Sig(c)[0] != '{';
  }

  /** A dictionary entry: key, then value. */
  method CopyEntry(m: Message, k: DValue, v: DValue)
    requires WellTyped(DictEntry(k, v)) && Placed(m.stack, DictEntry(k, v))
    modifies m
    ensures m.tokens == old(m.tokens) + Tokens(DictEntry(k, v)) && m.stack == Took(old(m.stack), Sig(DictEntry(k, v)))
    decreases DictEntry(k, v), 1
  {
    ghost var before, sv := m.stack, Sig(v);
    OpenEntry(m, k);
    IterAppendIter(m, v);
    TookTop(before, Frame('e', "", [Sig(k)]), sv);
    CloseEntry(m, before, Sig(k), sv);
  }

  /** The entry is opened and its key written. */
  method OpenEntry(m: Message, k: DValue)
    requires k.Basic() && m.stack != [] && m.stack[|m.stack| - 1].kind == 'a'
    requires m.stack[|m.stack| - 1].sig != "" && m.stack[|m.stack| - 1].sig[0] == '{'
    modifies m
    ensures m.tokens == old(m.tokens) + [Open('e', "")] + Tokens(k) && m.stack == old(m.stack) + [Frame('e', "", [Sig(k)])]
  {
    ghost var before := m.stack;
    m.OpenContainer('e', "");
    m.AppendBasic(k);
    TookTop(before, Frame('e', "", []), Sig(k));
    assert [] + [Sig(k)] == [Sig(k)];
  }

  method CloseEntry(m: Message, ghost before: seq<Frame>, ghost sk: string, ghost sv: string)
    requires m.stack == before + [Frame('e', "", [sk] + [sv])] && Accepts(before, "{" + sk + sv + "}")
    modifies m
    ensures m.tokens == old(m.tokens) + [Close] && m.stack == Took(before, "{" + sk + sv + "}")
  {
    assert [sk] + [sv] == [sk, sv];
    assert m.stack[..|m.stack| - 1] == before;
    m.CloseContainer();
  }

  /** The loop of `iter_append_iter` over the elements of an array. */
  method CopyAll(m: Message, es: seq<DValue>, sig: string)
    requires forall k :: 0 <= k < |es| ==> WellTyped(es[k]) && Sig(es[k]) == sig
    requires m.stack != [] && m.stack[|m.stack| - 1].kind == 'a' && m.stack[|m.stack| - 1].sig == sig
    modifies m
    ensures m.tokens == old(m.tokens) + TokensAll(es)
    ensures |m.stack| == |old(m.stack)| && m.stack[..|m.stack| - 1] == old(m.stack)[..|m.stack| - 1]
    ensures m.stack[|m.stack| - 1].kind == 'a' && m.stack[|m.stack| - 1].sig == sig
    decreases es, 1
  {
    var k := 0;
    while k < |es|
      invariant k <= |es|
      invariant m.tokens + TokensAll(es[k..]) == old(m.tokens) + TokensAll(es)
      invariant |m.stack| == |old(m.stack)| && m.stack[..|m.stack| - 1] == old(m.stack)[..|m.stack| - 1]
      invariant m.stack[|m.stack| - 1].kind == 'a' && m.stack[|m.stack| - 1].sig == sig
    {
      TokensNext(es, k, m.tokens);
      assert es[k] in es;
      IterAppendIter(m, es[k]);
      k := k + 1;
    }
    assert es[k..] == [];
  }

  /** A stored property value reads back as the value received. */
  method Store(d: DValue) returns (tokens: seq<Token>)
    requires WellTyped(d) && !d.DictEntry?
    ensures ReadOne(tokens) == Read(d, [])
  {
    var m := new Message();
    IterAppendIter(m, d);
    tokens := m.tokens;
    ReadBack(d, []);
    assert tokens == Tokens(d) + [];
  }
}
