/**
 * The payload codec standing in for `JSON.stringify` / `JSON.parse`.
 * Values are JSON-shaped; the text form is a tagged, length-prefixed encoding
 * (`n`, `t`, `f`, `i<digits>;`, `s<len>;<chars>`, `a<count>;<items>`,
 * `o<count>;<key,value pairs>`), so that every value round-trips exactly and a
 * corrupt text is reported as `None` instead of throwing.
 */
module Json {
  import opened Common
  import opened Text

  datatype Value =
    | Null
    | Bool(b: bool)
    | Num(n: int)
    | Str(s: string)
    | Arr(items: seq<Value>)
    | Obj(fields: seq<Field>)

  datatype Field = Field(key: string, val: Value)

  /** JavaScript falsiness of a parsed value; arrays and objects are always truthy. */
  predicate Falsy(v: Value) {
    v == Null || v == Bool(false) || v == Num(0) || v == Str("")
  }

  // ---------------------------------------------------------------------------
  // Encoding

  function NatText(n: nat): string {
    NatDigits(n) + ";"
  }

  function StrText(s: string): string {
    NatText(|s|) + s
  }

  /** The one-character tag that opens the encoding of `v`. */
  function Tag(v: Value): char {
    match v
    case Null => 'n'
    case Bool(b) => if b then 't' else 'f'
    case Num(_) => 'i'
    case Str(_) => 's'
    case Arr(_) => 'a'
    case Obj(_) => 'o'
  }

  /** `JSON.stringify`: never the empty string, so a stored payload is always truthy. */
  function Stringify(v: Value): (r: string)
    ensures |r| > 0 && r[0] == Tag(v)
    decreases v, 2, 0
  {
    [Tag(v)] + Payload(v)
  }

  /** What follows the tag. */
  function Payload(v: Value): string
    decreases v, 1, 0
  {
    match v
    case Null => ""
    case Bool(_) => ""
    case Num(n) => if n < 0 then "-" + NatText(-n) else NatText(n)
    case Str(s) => StrText(s)
    case Arr(items) => NatText(|items|) + ItemsText(v, 0)
    case Obj(fields) => NatText(|fields|) + FieldsText(v, 0)
  }

  /** The encodings of the items of array `v` from index `i` on, back to back. */
  function ItemsText(v: Value, i: nat): string
    requires v.Arr? && i <= |v.items|
    decreases v, 0, |v.items| - i
  {
    if i == |v.items| then "" else Stringify(v.items[i]) + ItemsText(v, i + 1)
  }

  /** The key/value encodings of the fields of object `v` from index `i` on. */
  function FieldsText(v: Value, i: nat): string
    requires v.Obj? && i <= |v.fields|
    decreases v, 0, |v.fields| - i
  {
    if i == |v.fields| then ""
    else
      var f := v.fields[i];
      assert f.val < f < v;
      StrText(f.key) + Stringify(f.val) + FieldsText(v, i + 1)
  }

  // ---------------------------------------------------------------------------
  // Decoding

  function ParseNat(s: string): (r: Option<(nat, string)>)
    ensures r.Some? ==> |r.value.1| < |s|
  {
    var ds := DigitPrefix(s);
    if ds == [] || |ds| == |s| || s[|ds|] != ';' then None
    else Some((DigitsValue(ds), s[|ds| + 1..]))
  }

  function ParseStr(s: string): (r: Option<(string, string)>)
    ensures r.Some? ==> |r.value.1| < |s|
  {
    match ParseNat(s)
    case None => None
    case Some((n, rest)) => if n <= |rest| then Some((rest[..n], rest[n..])) else None
  }

  function ParseValue(s: string): (r: Option<(Value, string)>)
    ensures r.Some? ==> |r.value.1| < |s|
    decreases |s|, 0, 0
  {
    if s == [] then None else ParseTagged(s[0], s[1..])
  }

  /** Dispatch on the tag character `c` that preceded `body`. */
  function ParseTagged(c: char, body: string): (r: Option<(Value, string)>)
    ensures r.Some? ==> |r.value.1| <= |body|
    decreases |body|, 1, 0
  {
    if c == 'n' then Some((Null, body))
    else if c == 't' then Some((Bool(true), body))
    else if c == 'f' then Some((Bool(false), body))
    else if c == 'i' then ParseNum(body)
    else if c == 's' then ParseStrValue(body)
    else if c == 'a' then ParseArr(body)
    else if c == 'o' then ParseObj(body)
    else None
  }

  function ParseNum(body: string): (r: Option<(Value, string)>)
    ensures r.Some? ==> |r.value.1| < |body|
  {
    if body != [] && body[0] == '-' then
      match ParseNat(body[1..])
      case None => None
      case Some((n, rest)) => Some((Num(-(n as int)), rest))
    else
      match ParseNat(body)
      case None => None
      case Some((n, rest)) => Some((Num(n), rest))
  }

  function ParseStrValue(body: string): (r: Option<(Value, string)>)
    ensures r.Some? ==> |r.value.1| < |body|
  {
    match ParseStr(body)
    case None => None
    case Some((str, rest)) => Some((Str(str), rest))
  }

  function ParseArr(body: string): (r: Option<(Value, string)>)
    ensures r.Some? ==> |r.value.1| < |body|
    decreases |body|, 0, 0
  {
    match ParseNat(body)
    case None => None
    case Some((n, rest)) =>
      match ParseItems(n, rest)
      case None => None
      case Some((items, rest')) => Some((Arr(items), rest'))
  }

  function ParseObj(body: string): (r: Option<(Value, string)>)
    ensures r.Some? ==> |r.value.1| < |body|
    decreases |body|, 0, 0
  {
    match ParseNat(body)
    case None => None
    case Some((n, rest)) =>
      match ParseFields(n, rest)
      case None => None
      case Some((fields, rest')) => Some((Obj(fields), rest'))
  }

  function ParseItems(n: nat, s: string): (r: Option<(seq<Value>, string)>)
    ensures r.Some? ==> |r.value.1| <= |s| && |r.value.0| == n
    decreases |s|, 1, n
  {
    if n == 0 then Some(([], s))
    else
      match ParseValue(s)
      case None => None
      case Some((v, rest)) =>
        match ParseItems(n - 1, rest)
        case None => None
        case Some((vs, rest')) => Some(([v] + vs, rest'))
  }

  function ParseField(s: string): (r: Option<(Field, string)>)
    ensures r.Some? ==> |r.value.1| < |s|
    decreases |s|, 0, 0
  {
    match ParseStr(s)
    case None => None
    case Some((k, rest)) =>
      match ParseValue(rest)
      case None => None
      case Some((v, rest')) => Some((Field(k, v), rest'))
  }

  function ParseFields(n: nat, s: string): (r: Option<(seq<Field>, string)>)
    ensures r.Some? ==> |r.value.1| <= |s| && |r.value.0| == n
    decreases |s|, 1, n
  {
    if n == 0 then Some(([], s))
    else
      match ParseField(s)
      case None => None
      case Some((f, rest)) =>
        match ParseFields(n - 1, rest)
        case None => None
        case Some((fs, rest')) => Some(([f] + fs, rest'))
  }

  /** `JSON.parse`: `None` stands for the exception a malformed text raises. */
  function Parse(s: string): Option<Value> {
    match ParseValue(s)
    case Some((v, rest)) => if rest == [] then Some(v) else None
    case None => None
  }

  // ---------------------------------------------------------------------------
  // Round trip

  lemma ParseNatText(n: nat, rest: string)
    ensures ParseNat(NatText(n) + rest) == Some((n, rest))
  {
    var ds := NatDigits(n);
    assert NatText(n) + rest == ds + (";" + rest);
    DigitPrefixOf(ds, ";" + rest);
    DigitsValueOfNatDigits(n);
    assert (ds + (";" + rest))[|ds| + 1..] == rest;
  }

  lemma ParseStrText(s: string, rest: string)
    ensures ParseStr(StrText(s) + rest) == Some((s, rest))
  {
    assert StrText(s) + rest == NatText(|s|) + (s + rest);
    ParseNatText(|s|, s + rest);
    assert (s + rest)[..|s|] == s && (s + rest)[|s|..] == rest;
  }

  lemma ParseValueCons(c: char, body: string)
    ensures ParseValue([c] + body) == ParseTagged(c, body)
  {
    assert ([c] + body)[0] == c && ([c] + body)[1..] == body;
  }

  /** Parsing the encoding of `v` yields `v` and leaves whatever followed it. */
  lemma {:induction false} ParseStringified(v: Value, rest: string)
    ensures ParseValue(Stringify(v) + rest) == Some((v, rest))
    decreases v, 2, 0
  {
    assert Stringify(v) + rest == [Tag(v)] + (Payload(v) + rest);
    ParseValueCons(Tag(v), Payload(v) + rest);
    ParsePayload(v, rest);
  }

  lemma {:induction false} ParsePayload(v: Value, rest: string)
    ensures ParseTagged(Tag(v), Payload(v) + rest) == Some((v, rest))
    decreases v, 1, 1
  {
    match v
    case Null =>
      assert Payload(v) + rest == rest;
    case Bool(_) =>
      assert Payload(v) + rest == rest;
    case Num(n) =>
      ParseNumPayload(n, rest);
    case Str(str) =>
      ParseStrText(str, rest);
    case Arr(_) =>
      ParseArrPayload(v, rest);
    case Obj(_) =>
      ParseObjPayload(v, rest);
  }

  lemma ParseNumPayload(n: int, rest: string)
    ensures ParseNum(Payload(Num(n)) + rest) == Some((Num(n), rest))
  {
    var body := Payload(Num(n)) + rest;
    if n < 0 {
      assert body == "-" + (NatText(-n) + rest);
      assert body[0] == '-' && body[1..] == NatText(-n) + rest;
      ParseNatText(-n, rest);
    } else {
      assert body == NatText(n) + rest;
      ParseNatText(n, rest);
      assert body[0] == NatDigits(n)[0] != '-';
    }
  }

  lemma {:induction false} ParseArrPayload(v: Value, rest: string)
    requires v.Arr?
    ensures ParseArr(Payload(v) + rest) == Some((v, rest))
    decreases v, 1, 0
  {
    var items := v.items;
    assert Payload(v) + rest == NatText(|items|) + (ItemsText(v, 0) + rest);
    ParseNatText(|items|, ItemsText(v, 0) + rest);
    ParseItemsText(v, 0, rest);
    assert items[0..] == items;
  }

  lemma {:induction false} ParseObjPayload(v: Value, rest: string)
    requires v.Obj?
    ensures ParseObj(Payload(v) + rest) == Some((v, rest))
    decreases v, 1, 0
  {
    var fields := v.fields;
    assert Payload(v) + rest == NatText(|fields|) + (FieldsText(v, 0) + rest);
    ParseNatText(|fields|, FieldsText(v, 0) + rest);
    ParseFieldsText(v, 0, rest);
    assert fields[0..] == fields;
  }

  lemma {:induction false} ParseItemsText(v: Value, i: nat, rest: string)
    requires v.Arr? && i <= |v.items|
    ensures ParseItems(|v.items| - i, ItemsText(v, i) + rest) == Some((v.items[i..], rest))
    decreases v, 0, |v.items| - i
  {
    var items := v.items;
    if i == |items| {
      assert items[i..] == [];
      assert ItemsText(v, i) + rest == rest;
    } else {
      var tail := ItemsText(v, i + 1) + rest;
      assert ItemsText(v, i) + rest == Stringify(items[i]) + tail;
      ParseStringified(items[i], tail);
      ParseItemsText(v, i + 1, rest);
      assert items[i..] == [items[i]] + items[i + 1..];
    }
  }

  lemma {:induction false} ParseFieldsText(v: Value, i: nat, rest: string)
    requires v.Obj? && i <= |v.fields|
    ensures ParseFields(|v.fields| - i, FieldsText(v, i) + rest) == Some((v.fields[i..], rest))
    decreases v, 0, |v.fields| - i
  {
    if i == |v.fields| {
      assert v.fields[i..] == [];
      assert FieldsText(v, i) + rest == rest;
    } else {
      var f := v.fields[i];
      var tail := FieldsText(v, i + 1) + rest;
      var text := StrText(f.key) + (Stringify(f.val) + tail);
      assert FieldsText(v, i) + rest == text by {
        FieldsTextCons(v, i, rest);
      }
      assert ParseFields(|v.fields| - i, text) == Some(([f] + v.fields[i + 1..], rest)) by {
        assert f.val < f < v;
        ParseStringified(f.val, tail);
        ParseFieldsText(v, i + 1, rest);
        ParseFieldsCons(|v.fields| - i, f.key, f.val, tail, v.fields[i + 1..], rest);
        assert Field(f.key, f.val) == f;
      }
      assert v.fields[i..] == [f] + v.fields[i + 1..];
    }
  }

  lemma FieldsTextCons(v: Value, i: nat, rest: string)
    requires v.Obj? && i < |v.fields|
    ensures FieldsText(v, i) + rest
         == StrText(v.fields[i].key) + (Stringify(v.fields[i].val) + (FieldsText(v, i + 1) + rest))
  {
  }

  /** One step of `ParseFields`: a field's encoding, then the remaining fields. */
  lemma ParseFieldsCons(n: nat, key: string, val: Value, tail: string, fs: seq<Field>, rest: string)
    requires n > 0
    requires ParseValue(Stringify(val) + tail) == Some((val, tail))
    requires ParseFields(n - 1, tail) == Some((fs, rest))
    ensures ParseFields(n, StrText(key) + (Stringify(val) + tail)) == Some(([Field(key, val)] + fs, rest))
  {
    ParseFieldText(key, val, tail);
  }

  lemma ParseFieldText(key: string, val: Value, rest: string)
    requires ParseValue(Stringify(val) + rest) == Some((val, rest))
    ensures ParseField(StrText(key) + (Stringify(val) + rest)) == Some((Field(key, val), rest))
  {
    ParseStrText(key, Stringify(val) + rest);
  }

  /** `JSON.parse(JSON.stringify(v))` gives back `v`. */
  lemma ParseOfStringify(v: Value)
    ensures Parse(Stringify(v)) == Some(v)
  {
    ParseStringified(v, "");
    assert Stringify(v) + "" == Stringify(v);
  }
}
