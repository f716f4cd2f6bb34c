/** The emission half of src/dbus-json.c: the `append_*` functions writing step by step into a D-Bus
    message. That they meet the demands of the message object means everything emitted is well typed. */
module JsonWriter {
  import opened Lists
  import opened DBusValues
  import opened JsonToDBus
  import opened MessageWriter

  /** The packing of one value in a variant, as both loops do it. */
  method AppendVariant(m: Message, j: Json)
    requires NullFree(j) && Accepts(m.stack, "v")
    modifies m
    ensures m.tokens == old(m.tokens) + Tokens(Variant(SigOf(j), Encode(j))) && m.stack == Took(old(m.stack), "v")
    decreases j, 3
  {
    var sig := SigOf(j);
    ghost var before := m.stack;
    m.OpenContainer('v', sig);
    assert m.stack[|m.stack| - 1] == Frame('v', sig, []);
    AppendJsonValue(m, j);
    CloseVariant(m, sig, before);
  }

  /** `append_array`. */
  method AppendArray(m: Message, items: seq<Json>)
    requires NullFree(JArray(items)) && Accepts(m.stack, SigOf(JArray(items)))
    modifies m
    ensures m.tokens == old(m.tokens) + Tokens(Encode(JArray(items))) && m.stack == Took(old(m.stack), SigOf(JArray(items)))
    decreases items, 1
  {
    var sig := ArraySig(items);
    ghost var before := m.stack;
    ArrayTokens(items);
    m.OpenContainer('a', sig[1..]);
    AppendItems(m, items, sig);
    CloseArray(m, sig[1..], before);
  }

  lemma ArrayTokens(items: seq<Json>)
    requires NullFree(JArray(items))
    ensures var sig := ArraySig(items);
      "a" + sig[1..] == sig && Tokens(Encode(JArray(items))) == [Open('a', sig[1..])] + TokensAll(EncodeItems(items, sig[1] == 'v')) + [Close]
  {
  }

  /** The loop of `append_array`. */
  method AppendItems(m: Message, items: seq<Json>, sig: string)
    requires NullFree(JArray(items)) && sig == ArraySig(items)
    requires m.stack != [] && m.stack[|m.stack| - 1].kind == 'a' && m.stack[|m.stack| - 1].sig == sig[1..]
    modifies m
    ensures m.tokens == old(m.tokens) + TokensAll(EncodeItems(items, sig[1] == 'v'))
    ensures |m.stack| == |old(m.stack)| && m.stack[..|m.stack| - 1] == old(m.stack)[..|m.stack| - 1]
    ensures m.stack[|m.stack| - 1].kind == 'a' && m.stack[|m.stack| - 1].sig == sig[1..]
    decreases items, 0
  {
    ghost var packed := sig[1] == 'v';
    ghost var es := EncodeItems(items, packed);
    var k := 0;
    while k < |items|
      invariant k <= |items|
      invariant m.tokens + TokensAll(es[k..]) == old(m.tokens) + TokensAll(es)
      invariant |m.stack| == |old(m.stack)| && m.stack[..|m.stack| - 1] == old(m.stack)[..|m.stack| - 1]
      invariant m.stack[|m.stack| - 1].kind == 'a' && m.stack[|m.stack| - 1].sig == sig[1..]
    {
      TokensNext(es, k, m.tokens);
      EncodeItemsAt(items, packed, k);
      assert items[k] in items;
      if sig[1] == 'v' {
        assert sig[1..] == "v";
        AppendVariant(m, items[k]);
      } else {
        BasicTypeSig(items, k);
        AppendJsonValue(m, items[k]);
      }
      k := k + 1;
    }
    assert es[k..] == [];
  }

  /** `append_object`. */
  method AppendObject(m: Message, fields: seq<Field>)
    requires NullFree(JObject(fields)) && Accepts(m.stack, "a{sv}")
    modifies m
    ensures m.tokens == old(m.tokens) + Tokens(Encode(JObject(fields))) && m.stack == Took(old(m.stack), "a{sv}")
    decreases fields, 1
  {
    ghost var before := m.stack;
    assert "a" + "{sv}" == "a{sv}";
    m.OpenContainer('a', "{sv}");
    AppendFields(m, fields);
    CloseArray(m, "{sv}", before);
  }

  /** The loop of `append_object`. */
  method AppendFields(m: Message, fields: seq<Field>)
    requires NullFree(JObject(fields))
    requires m.stack != [] && m.stack[|m.stack| - 1].kind == 'a' && m.stack[|m.stack| - 1].sig == "{sv}"
    modifies m
    ensures m.tokens == old(m.tokens) + TokensAll(EncodeFields(fields))
    ensures |m.stack| == |old(m.stack)| && m.stack[..|m.stack| - 1] == old(m.stack)[..|m.stack| - 1]
    ensures m.stack[|m.stack| - 1].kind == 'a' && m.stack[|m.stack| - 1].sig == "{sv}"
    decreases fields, 0
  {
    ghost var es := EncodeFields(fields);
    var k := 0;
    while k < |fields|
      invariant k <= |fields|
      invariant m.tokens + TokensAll(es[k..]) == old(m.tokens) + TokensAll(es)
      invariant |m.stack| == |old(m.stack)| && m.stack[..|m.stack| - 1] == old(m.stack)[..|m.stack| - 1]
      invariant m.stack[|m.stack| - 1].kind == 'a' && m.stack[|m.stack| - 1].sig == "{sv}"
    {
      TokensNext(es, k, m.tokens);
      EncodeFieldsAt(fields, k);
      assert fields[k] in fields;
      AppendField(m, fields[k]);
      k := k + 1;
    }
    assert es[k..] == [];
  }

  /** One entry of `append_object`. */
  method AppendField(m: Message, f: Field)
    requires NullFree(f.value)
    requires m.stack != [] && m.stack[|m.stack| - 1].kind == 'a' && m.stack[|m.stack| - 1].sig == "{sv}"
    modifies m
    ensures m.tokens == old(m.tokens) + Tokens(DictEntry(Str(CString(f.key)), Variant(SigOf(f.value), Encode(f.value))))
    ensures m.stack == Took(old(m.stack), "{sv}")
    decreases f, 4
  {
    ghost var before := m.stack;
    m.OpenContainer('e', "");
    m.AppendBasic(Str(CString(f.key)));
    TookTop(before, Frame('e', "", []), "s");
    AppendVariant(m, f.value);
    TookTop(before, Frame('e', "", ["s"]), "v");
    assert m.stack[..|m.stack| - 1] == before;
    assert "{" + "s" + "v" + "}" == "{sv}";
    m.CloseContainer();
  }

  /** `append_json_value`, `pold_dbus_json_append_object`. */
  method AppendJsonValue(m: Message, j: Json)
    requires NullFree(j) && Accepts(m.stack, SigOf(j))
    modifies m
    ensures m.tokens == old(m.tokens) + Tokens(Encode(j)) && m.stack == Took(old(m.stack), SigOf(j))
    decreases j, 2
  {
    match j
    case JBool(b) => m.AppendBasic(Bool(b));
    case JInt(n) => m.AppendBasic(Int32(ToInt32(n)));
    case JReal(r) => m.AppendBasic(Double(r));
    case JString(s) => m.AppendBasic(Str(CString(s)));
    case JArray(items) => AppendArray(m, items);
    case JObject(fields) => AppendObject(m, fields);
  }

  /** Compiling into an empty message: it is complete, and reading it back gives the JSON value. */
  method Compile(j: Json) returns (tokens: seq<Token>)
    requires NullFree(j)
    ensures ReadOne(tokens) == Read(Encode(j), [])
    ensures Fits(j) ==> Decode(Encode(j)) == j
  {
    var m := new Message();
    AppendJsonValue(m, j);
    tokens := m.tokens;
    ReadBack(Encode(j), []);
    assert tokens == Tokens(Encode(j)) + [];
    Lossless(j);
  }
}
