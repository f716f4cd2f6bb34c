/** What each JSON value becomes on D-Bus, told from its own constructors. */
module JsonTypes {
  import opened Lists
  import opened DBusValues
  import opened JsonToDBus

  // ---- arrays of one basic type ----

  ghost predicate Strings(items: seq<Json>) { |items| >= 2 && forall k :: 0 <= k < |items| ==> items[k].JString? }

  ghost predicate Ints(items: seq<Json>) { |items| >= 2 && forall k :: 0 <= k < |items| ==> items[k].JInt? }

  ghost predicate Reals(items: seq<Json>) { |items| >= 2 && forall k :: 0 <= k < |items| ==> items[k].JReal? }

  /** Truth values are of one type only if they are equal. */
  ghost predicate Bools(items: seq<Json>) {
    |items| >= 2 && items[0].JBool? && forall k :: 0 <= k < |items| ==> items[k] == items[0]
  }

  ghost predicate Mixed(items: seq<Json>) { !Strings(items) && !Ints(items) && !Reals(items) && !Bools(items) }

  /** The part of a string before its first NUL. */
  ghost predicate Shown(s: string, t: string) { t <= s && '\0' !in t && (|t| < |s| ==> s[|t|] == '\0') }

  lemma {:induction false} CStringShown(s: string)
    ensures Shown(s, CString(s))
  {
    CStringWhole(s);
    if s != "" && s[0] != '\0' {
      CStringShown(s[1..]);
      assert s == [s[0]] + s[1..];
    }
  }

  /** A number keeps its value if it fits, and else its last 32 bits. */
  ghost predicate Cut(n: int, i: int) {
    -0x8000_0000 <= i < 0x8000_0000 && (-0x8000_0000 <= n < 0x8000_0000 ==> i == n) && (n - i) % 0x1_0000_0000 == 0
  }

  lemma ToInt32Cuts(n: int)
    ensures Cut(n, ToInt32(n))
  {
    var q := (n + 0x8000_0000) / 0x1_0000_0000;
    assert n - ToInt32(n) == q * 0x1_0000_0000;
    Multiple(q);
  }

  lemma Multiple(q: int)
    ensures q * 0x1_0000_0000 % 0x1_0000_0000 == 0
  {
  }

  /** A basic value is passed on as it is. */
  ghost predicate Plain(j: Json, d: DValue) {
    match j
    case JBool(b) => d == Bool(b)
    case JInt(n) => d.Int32? && Cut(n, d.i)
    case JReal(r) => d == Double(r)
    case JString(s) => d.Str? && Shown(s, d.s)
    case _ => false
  }

  predicate Scalar(j: Json) { j.JBool? || j.JInt? || j.JReal? || j.JString? }

  lemma ScalarBecomes(j: Json)
    requires Scalar(j)
    ensures NullFree(j) && Plain(j, Encode(j))
    ensures SigOf(j) == if j.JBool? then "b" else if j.JInt? then "i" else if j.JReal? then "d" else "s"
  {
    match j
    case JInt(n) => ToInt32Cuts(n);
    case JString(s) => CStringShown(s);
    case _ =>
  }

  lemma ArraySigIs(items: seq<Json>)
    requires NullFree(JArray(items))
    ensures ArraySig(items) ==
      if Strings(items) then "as" else if Ints(items) then "ai" else if Reals(items) then "ad" else if Bools(items) then "ab" else "av"
  {
    if |items| >= 2 {
      if SameTypes(items) {
        forall k | 0 <= k < |items| ensures TypeOf(items[k]) == TypeOf(items[0]) {}
      } else {
        var k :| 0 <= k < |items| && TypeOf(items[k]) != TypeOf(items[0]);
      }
    }
  }

  /** Arrays: two or more strings, integers, reals or equal truth values become an array of that type with
      the values themselves; all others become an array of variants, each with its entry's own type. */
  lemma ArrayBecomes(items: seq<Json>)
    requires NullFree(JArray(items))
    ensures var j, d := JArray(items), Encode(JArray(items));
      && d.Array? && |d.elems| == |items| && SigOf(j) == "a" + d.elemSig
      && (Strings(items) ==> d.elemSig == "s") && (Ints(items) ==> d.elemSig == "i")
      && (Reals(items) ==> d.elemSig == "d") && (Bools(items) ==> d.elemSig == "b") && (Mixed(items) ==> d.elemSig == "v")
      && forall k :: 0 <= k < |items| ==>
        if Mixed(items) then d.elems[k] == Variant(SigOf(items[k]), Encode(items[k])) else Plain(items[k], d.elems[k])
  {
    ArraySigIs(items);
    forall k | 0 <= k < |items|
      ensures var e := Encode(JArray(items)).elems[k];
        if Mixed(items) then e == Variant(SigOf(items[k]), Encode(items[k])) else Plain(items[k], e)
    {
      EncodeItemsAt(items, ArraySig(items)[1] == 'v', k);
      if !Mixed(items) { ScalarBecomes(items[k]); }
    }
  }

  /** Objects: a dictionary from strings to variants, entry by entry. */
  lemma ObjectBecomes(fields: seq<Field>)
    requires NullFree(JObject(fields))
    ensures var j, d := JObject(fields), Encode(JObject(fields));
      && SigOf(j) == "a{sv}" && d.Array? && d.elemSig == "{sv}" && |d.elems| == |fields|
      && forall k :: 0 <= k < |fields| ==>
        && d.elems[k].DictEntry? && d.elems[k].key.Str? && Shown(fields[k].key, d.elems[k].key.s)
        && d.elems[k].value == Variant(SigOf(fields[k].value), Encode(fields[k].value))
  {
    forall k | 0 <= k < |fields|
      ensures var e := EncodeFields(fields)[k];
        e.DictEntry? && e.key.Str? && Shown(fields[k].key, e.key.s) && e.value == Variant(SigOf(fields[k].value), Encode(fields[k].value))
    {
      EncodeFieldsAt(fields, k);
      CStringShown(fields[k].key);
    }
  }

  /** There are ten signatures. */
  lemma SigIsOneOf(j: Json)
    requires NullFree(j)
    ensures SigOf(j) in ["b", "i", "d", "s", "as", "ai", "ad", "ab", "av", "a{sv}"]
  {
    match j
    case JArray(items) => ArraySigIs(items);
    case _ =>
  }
}
