/** The JSON to D-Bus compiler of src/dbus-json.c: signature inference and value emission, which are
    separate recursions over the JSON value, agree; and compilation loses nothing. */
module JsonToDBus {
  import opened Lists
  import opened DBusValues

  /** Jansson values; `JInt` holds any `json_int_t`. */
  datatype Json =
    | JNull
    | JBool(b: bool)
    | JInt(n: int)
    | JReal(r: real)
    | JString(s: string)
    | JArray(items: seq<Json>)
    | JObject(fields: seq<Field>)

  datatype Field = Field(key: string, value: Json)

  /** `json_typeof`; truth values have two types. */
  datatype JsonType = OBJECT | ARRAY | STRING | INTEGER | REAL | TRUE | FALSE | NULL

  function TypeOf(j: Json): JsonType {
    match j
    case JNull => NULL
    case JBool(b) => if b then TRUE else FALSE
    case JInt(_) => INTEGER
    case JReal(_) => REAL
    case JString(_) => STRING
    case JArray(_) => ARRAY
    case JObject(_) => OBJECT
  }

  /** No JSON null occurs, which the compiler asserts. */
  predicate NullFree(j: Json) {
    match j
    case JNull => false
    case JArray(items) => forall k :: 0 <= k < |items| ==> NullFree(items[k])
    case JObject(fields) => forall k :: 0 <= k < |fields| ==> NullFree(fields[k].value)
    case _ => true
  }

  // ---- signatures ----

  predicate SameTypes(items: seq<Json>) {
    forall k :: 0 <= k < |items| ==> TypeOf(items[k]) == TypeOf(items[0])
  }

  /** The common type of the entries; none for fewer than two entries. */
  function ArrayType(items: seq<Json>): Option<JsonType> {
    if |items| >= 2 && SameTypes(items) then Some(TypeOf(items[0])) else None
  }

  /** `get_array_type`. */
  method GetArrayType(items: seq<Json>) returns (r: Option<JsonType>)
    ensures r == ArrayType(items)
  {
    if |items| == 0 { return None; }
    var previous := TypeOf(items[0]);
    r := None;
    for i := 1 to |items|
      invariant previous == TypeOf(items[0])
      invariant r == if i == 1 then None else Some(previous)
      invariant forall k :: 0 <= k < i ==> TypeOf(items[k]) == TypeOf(items[0])
    {
      r := Some(TypeOf(items[i]));
      if r.value != previous { return None; }
      previous := r.value;
    }
  }

  /** `json_array_to_dbus_type_signature`: basic entries of one type, otherwise variants. */
  function ArraySig(items: seq<Json>): (s: string)
    requires NullFree(JArray(items))
    ensures |s| == 2 && s[0] == 'a' && (BasicSig(s[1..]) || s[1..] == "v")
    decreases JArray(items), 0
  {
    match ArrayType(items)
    case Some(STRING) => "as"
    case Some(INTEGER) => "ai"
    case Some(REAL) => "ad"
    case Some(TRUE) => "ab"
    case Some(FALSE) => "ab"
    case _ => "av"
  }

  /** `json_value_to_dbus_type_signature`, for a four-byte `int`. */
  function SigOf(j: Json): (s: string)
    requires NullFree(j)
  {
    match j
    case JBool(_) => "b"
    case JInt(_) => "i"
    case JReal(_) => "d"
    case JString(_) => "s"
    case JArray(items) => ArraySig(items)
    case JObject(_) => "a{sv}"
  }

  lemma SigComplete(j: Json)
    requires NullFree(j)
    ensures CompleteSig(SigOf(j), false)
  {
    match j
    case JArray(items) => assert CompleteSig(ArraySig(items)[1..], true);
    case JObject(_) =>
      var e := "{sv}";
      assert e[1..2] == "s" && e[2..3] == "v" && "a{sv}"[1..] == e;
      assert CompleteSig(e, true);
    case _ =>
  }

  // ---- values ----

  /** The conversion of a `json_int_t` to `int`. */
  function ToInt32(n: int): (r: int)
    ensures -0x8000_0000 <= r < 0x8000_0000
    ensures r == n <==> -0x8000_0000 <= n < 0x8000_0000
  {
    (n + 0x8000_0000) % 0x1_0000_0000 - 0x8000_0000
  }

  /** A string as its C pointer shows it: up to the first NUL. */
  function CString(s: string): string {
    if s == "" || s[0] == '\0' then "" else [s[0]] + CString(s[1..])
  }

  lemma {:induction false} CStringWhole(s: string)
    ensures CString(s) == s <==> '\0' !in s
    ensures '\0' !in CString(s)
  {
    if s != "" {
      CStringWhole(s[1..]);
      assert s == [s[0]] + s[1..];
    }
  }

  /** `append_json_value`. */
  function Encode(j: Json): DValue
    requires NullFree(j)
    decreases j, 1
  {
    match j
    case JBool(b) => Bool(b)
    case JInt(n) => Int32(ToInt32(n))
    case JReal(r) => Double(r)
    case JString(s) => Str(CString(s))
    case JArray(items) => Array(ArraySig(items)[1..], EncodeItems(items, ArraySig(items)[1] == 'v'))
    case JObject(fields) => Array("{sv}", EncodeFields(fields))
  }

  /** The loop of `append_array`; `packed` puts each entry in a variant. */
  function EncodeItems(items: seq<Json>, packed: bool): (es: seq<DValue>)
    requires forall k :: 0 <= k < |items| ==> NullFree(items[k])
    ensures |es| == |items|
    decreases items, 0
  {
    if items == [] then []
    else
      var e := Encode(items[0]);
      [if packed then Variant(SigOf(items[0]), e) else e] + EncodeItems(items[1..], packed)
  }

  /** The loop of `append_object`. */
  function EncodeFields(fields: seq<Field>): (es: seq<DValue>)
    requires forall k :: 0 <= k < |fields| ==> NullFree(fields[k].value)
    ensures |es| == |fields|
    decreases fields, 0
  {
    if fields == [] then []
    else
      var f := fields[0];
      [DictEntry(Str(CString(f.key)), Variant(SigOf(f.value), Encode(f.value)))] + EncodeFields(fields[1..])
  }

  lemma {:induction false} EncodeItemsAt(items: seq<Json>, packed: bool, k: nat)
    requires k < |items| && forall i :: 0 <= i < |items| ==> NullFree(items[i])
    ensures EncodeItems(items, packed)[k] == if packed then Variant(SigOf(items[k]), Encode(items[k])) else Encode(items[k])
    decreases items
  {
    if k > 0 { EncodeItemsAt(items[1..], packed, k - 1); }
  }

  lemma {:induction false} EncodeFieldsAt(fields: seq<Field>, k: nat)
    requires k < |fields| && forall i :: 0 <= i < |fields| ==> NullFree(fields[i].value)
    ensures EncodeFields(fields)[k] ==
      DictEntry(Str(CString(fields[k].key)), Variant(SigOf(fields[k].value), Encode(fields[k].value)))
    decreases fields
  {
    if k > 0 { EncodeFieldsAt(fields[1..], k - 1); }
  }

  // ---- compilation is well typed ----

  lemma BasicTypeSig(items: seq<Json>, k: nat)
    requires NullFree(JArray(items)) && k < |items| && ArraySig(items)[1] != 'v'
    ensures SigOf(items[k]) == ArraySig(items)[1..]
  {
    assert TypeOf(items[k]) == TypeOf(items[0]);
  }

  /** The value emitted for a JSON value has exactly the signature inferred for it, at every level. */
  lemma {:induction false} EncodeWellTyped(j: Json)
    requires NullFree(j)
    ensures WellTyped(Encode(j)) && Sig(Encode(j)) == SigOf(j)
    decreases j, 1
  {
    match j
    case JArray(items) =>
      var packed := ArraySig(items)[1] == 'v';
      ItemsWellTyped(items, packed);
      SigComplete(j);
      forall k | 0 <= k < |items| ensures Sig(EncodeItems(items, packed)[k]) == ArraySig(items)[1..] {
        if !packed { BasicTypeSig(items, k); }
      }
    case JObject(fields) =>
      FieldsWellTyped(fields);
      SigComplete(j);
      assert SigOf(j)[1..] == "{sv}";
    case _ =>
  }

  lemma {:induction false} ItemsWellTyped(items: seq<Json>, packed: bool)
    requires forall k :: 0 <= k < |items| ==> NullFree(items[k])
    ensures forall k :: 0 <= k < |items| ==> WellTyped(EncodeItems(items, packed)[k])
    ensures forall k :: 0 <= k < |items| ==>
      Sig(EncodeItems(items, packed)[k]) == if packed then "v" else SigOf(items[k])
    decreases items, 0
  {
    if items != [] {
      EncodeWellTyped(items[0]);
      SigComplete(items[0]);
      ItemsWellTyped(items[1..], packed);
    }
  }

  lemma {:induction false} FieldsWellTyped(fields: seq<Field>)
    requires forall k :: 0 <= k < |fields| ==> NullFree(fields[k].value)
    ensures forall k :: 0 <= k < |fields| ==>
      WellTyped(EncodeFields(fields)[k]) && Sig(EncodeFields(fields)[k]) == "{sv}"
    decreases fields, 0
  {
    if fields != [] {
      EncodeWellTyped(fields[0].value);
      SigComplete(fields[0].value);
      FieldsWellTyped(fields[1..]);
      var e := EncodeFields(fields)[0];
      assert Sig(e.key) == "s" && Sig(e.value) == "v";
      assert Sig(e) == "{" + "s" + "v" + "}" == "{sv}";
    }
  }

  // ---- compilation is lossless ----

  /** Reads a compiled value back. */
  function Decode(d: DValue): Json
    decreases d, 1
  {
    match d
    case Bool(b) => JBool(b)
    case Int32(i) => JInt(i)
    case Double(r) => JReal(r)
    case Str(s) => JString(s)
    case Array(e, es) => if e == "{sv}" then JObject(DecodeFields(es)) else JArray(DecodeItems(es))
    case Variant(_, c) => Decode(c)
    case DictEntry(_, _) => JNull
  }

  function DecodeItems(es: seq<DValue>): seq<Json>
    decreases es, 0
  {
    if es == [] then [] else [Decode(es[0])] + DecodeItems(es[1..])
  }

  function DecodeFields(es: seq<DValue>): seq<Field>
    decreases es, 0
  {
    if es == [] then []
    else
      DecodeField(es[0]) + DecodeFields(es[1..])
  }

  function DecodeField(e: DValue): seq<Field>
    decreases e, 0
  {
    if e.DictEntry? && e.key.Str? then [Field(e.key.s, Decode(e.value))] else []
  }

  /** Integers fit the C `int` and strings hold no NUL. */
  predicate Fits(j: Json) {
    match j
    case JInt(n) => -0x8000_0000 <= n < 0x8000_0000
    case JString(s) => '\0' !in s
    case JArray(items) => forall k :: 0 <= k < |items| ==> Fits(items[k])
    case JObject(fields) => forall k :: 0 <= k < |fields| ==> '\0' !in fields[k].key && Fits(fields[k].value)
    case _ => true
  }

  /** Compiling and reading back gives the same JSON value exactly when its integers and strings fit. */
  lemma {:induction false} Lossless(j: Json)
    requires NullFree(j)
    ensures Decode(Encode(j)) == j <==> Fits(j)
    decreases j, 1
  {
    match j
    case JString(s) => CStringWhole(s);
    case JArray(items) =>
      LosslessItems(items, ArraySig(items)[1] == 'v');
    case JObject(fields) =>
      LosslessFields(fields);
    case _ =>
  }

  lemma {:induction false} LosslessItems(items: seq<Json>, packed: bool)
    requires forall k :: 0 <= k < |items| ==> NullFree(items[k])
    ensures DecodeItems(EncodeItems(items, packed)) == items <==> forall k :: 0 <= k < |items| ==> Fits(items[k])
    decreases items, 0
  {
    if items != [] {
      Lossless(items[0]);
      LosslessItems(items[1..], packed);
      var es := EncodeItems(items, packed);
      assert es[1..] == EncodeItems(items[1..], packed);
      assert DecodeItems(es) == [Decode(es[0])] + DecodeItems(es[1..]);
      assert Decode(es[0]) == Decode(Encode(items[0]));
      assert items == [items[0]] + items[1..];
      FitsCons(items);
    }
  }

  lemma FitsCons(items: seq<Json>)
    requires items != []
    ensures (forall k :: 0 <= k < |items| ==> Fits(items[k])) <==>
      Fits(items[0]) && forall k :: 0 <= k < |items[1..]| ==> Fits(items[1..][k])
  {
    assert forall k :: 0 < k < |items| ==> items[k] == items[1..][k - 1];
    if !forall k :: 0 <= k < |items[1..]| ==> Fits(items[1..][k]) {
      var k :| 0 <= k < |items[1..]| && !Fits(items[1..][k]);
      assert !Fits(items[k + 1]);
    }
  }

  lemma {:induction false} LosslessFields(fields: seq<Field>)
    requires forall k :: 0 <= k < |fields| ==> NullFree(fields[k].value)
    ensures DecodeFields(EncodeFields(fields)) == fields <==>
      forall k :: 0 <= k < |fields| ==> '\0' !in fields[k].key && Fits(fields[k].value)
    decreases fields, 0
  {
    if fields != [] {
      var f := fields[0];
      Lossless(f.value);
      CStringWhole(f.key);
      LosslessFields(fields[1..]);
      var es := EncodeFields(fields);
      assert es[1..] == EncodeFields(fields[1..]);
      assert Decode(es[0].value) == Decode(Encode(f.value));
      assert DecodeFields(es) == [Field(CString(f.key), Decode(Encode(f.value)))] + DecodeFields(es[1..]);
      assert fields == [f] + fields[1..];
      if forall k :: 0 <= k < |fields[1..]| ==> '\0' !in fields[1..][k].key && Fits(fields[1..][k].value) {
        assert forall k :: 0 < k < |fields| ==> fields[k] == fields[1..][k - 1];
      } else {
        var k :| 0 <= k < |fields[1..]| && !('\0' !in fields[1..][k].key && Fits(fields[1..][k].value));
        assert fields[k + 1] == fields[1..][k];
      }
    }
  }

  /** The stream written for a value determines it: different fitting values never compile alike. */
  lemma CompileInjective(a: Json, b: Json)
    requires NullFree(a) && NullFree(b) && Fits(a) && Fits(b)
    requires Tokens(Encode(a)) == Tokens(Encode(b))
    ensures a == b
  {
    ReadBack(Encode(a), []);
    ReadBack(Encode(b), []);
    Lossless(a);
    Lossless(b);
  }
}
