/**
 * The records the services move around (series, expansions, cards) and their
 * JSON layout in the cache. Each record has one canonical object layout; the
 * decoder accepts exactly the texts the encoder produces.
 */
module Entities {
  import opened Common
  import opened Json

  /** A series as listed by the remote source: `{id, name, logo}`. */
  datatype Series = Series(id: string, name: string, logo: Option<string>)

  datatype CardCount = CardCount(total: int)

  /**
   * An expansion (a "set"). `releaseDate` is an abstract integer date key:
   * the order of the keys is the order of the dates.
   */
  datatype SetInfo = SetInfo(
    id: string,
    name: string,
    logo: Option<string>,
    cardCount: Option<CardCount>,
    releaseDate: Option<int>)

  /** The `card.set` reference of a card. */
  datatype SetRef = SetRef(id: Option<string>)

  /** A card; every optional attribute may be absent in remote data. */
  datatype Card = Card(
    id: Option<string>,
    name: string,
    localId: Option<string>,
    number: Option<string>,
    setRef: Option<SetRef>,
    image: Option<string>)

  /** What `set.get(id)` returns: `cards` is absent when it is not an array. */
  datatype SetDetail = SetDetail(name: string, cards: Option<seq<Card>>)

  // ---------------------------------------------------------------------------
  // Optional attributes

  function OptStrToJson(o: Option<string>): Value {
    if o.Some? then Str(o.value) else Null
  }

  function OptStrFromJson(v: Value): (r: Option<Option<string>>)
    ensures r.Some? <==> v.Null? || v.Str?
    ensures r.Some? ==> OptStrToJson(r.value) == v
  {
    if v.Null? then Some(None) else if v.Str? then Some(Some(v.s)) else None
  }

  function OptIntToJson(o: Option<int>): Value {
    if o.Some? then Num(o.value) else Null
  }

  function OptIntFromJson(v: Value): (r: Option<Option<int>>)
    ensures r.Some? <==> v.Null? || v.Num?
    ensures r.Some? ==> OptIntToJson(r.value) == v
  {
    if v.Null? then Some(None) else if v.Num? then Some(Some(v.n)) else None
  }

  function OptCountToJson(o: Option<CardCount>): Value {
    if o.Some? then Obj([Field("total", Num(o.value.total))]) else Null
  }

  function OptCountFromJson(v: Value): (r: Option<Option<CardCount>>)
    ensures r.Some? ==> OptCountToJson(r.value) == v
  {
    if v.Null? then Some(None)
    else if v.Obj? && |v.fields| == 1 && v.fields[0].key == "total" && v.fields[0].val.Num? then
      assert v.fields == [Field("total", Num(v.fields[0].val.n))];
      Some(Some(CardCount(v.fields[0].val.n)))
    else None
  }

  function OptSetRefToJson(o: Option<SetRef>): Value {
    if o.Some? then Obj([Field("id", OptStrToJson(o.value.id))]) else Null
  }

  function OptSetRefFromJson(v: Value): (r: Option<Option<SetRef>>)
    ensures r.Some? ==> OptSetRefToJson(r.value) == v
  {
    if v.Null? then Some(None)
    else if v.Obj? && |v.fields| == 1 && v.fields[0].key == "id" then
      match OptStrFromJson(v.fields[0].val)
      case None => None
      case Some(id) =>
        assert v.fields == [Field("id", OptStrToJson(id))];
        Some(Some(SetRef(id)))
    else None
  }

  /** The keys of an object value, in order. */
  function Keys(v: Value): (r: seq<string>)
    requires v.Obj?
    ensures |r| == |v.fields|
    ensures forall i :: 0 <= i < |r| ==> r[i] == v.fields[i].key
  {
    seq(|v.fields|, i requires 0 <= i < |v.fields| => v.fields[i].key)
  }

  // ---------------------------------------------------------------------------
  // Records

  function SeriesToJson(s: Series): Value {
    Obj([Field("id", Str(s.id)), Field("name", Str(s.name)), Field("logo", OptStrToJson(s.logo))])
  }

  function SeriesFromJson(v: Value): (r: Option<Series>)
    ensures r.Some? ==> SeriesToJson(r.value) == v
  {
    if v.Obj? && Keys(v) == ["id", "name", "logo"]
      && v.fields[0].val.Str? && v.fields[1].val.Str?
    then
      var logo :- OptStrFromJson(v.fields[2].val);
      var s := Series(v.fields[0].val.s, v.fields[1].val.s, logo);
      assert v.fields == SeriesToJson(s).fields;
      Some(s)
    else None
  }

  function SetToJson(s: SetInfo): Value {
    Obj([Field("id", Str(s.id)), Field("name", Str(s.name)), Field("logo", OptStrToJson(s.logo)),
         Field("cardCount", OptCountToJson(s.cardCount)),
         Field("releaseDate", OptIntToJson(s.releaseDate))])
  }

  function SetFromJson(v: Value): (r: Option<SetInfo>)
    ensures r.Some? ==> SetToJson(r.value) == v
  {
    if v.Obj? && Keys(v) == ["id", "name", "logo", "cardCount", "releaseDate"]
      && v.fields[0].val.Str? && v.fields[1].val.Str?
    then
      var logo :- OptStrFromJson(v.fields[2].val);
      var count :- OptCountFromJson(v.fields[3].val);
      var date :- OptIntFromJson(v.fields[4].val);
      var s := SetInfo(v.fields[0].val.s, v.fields[1].val.s, logo, count, date);
      assert v.fields == SetToJson(s).fields;
      Some(s)
    else None
  }

  function CardToJson(c: Card): Value {
    Obj([Field("id", OptStrToJson(c.id)), Field("name", Str(c.name)),
         Field("localId", OptStrToJson(c.localId)), Field("number", OptStrToJson(c.number)),
         Field("set", OptSetRefToJson(c.setRef)), Field("image", OptStrToJson(c.image))])
  }

  function CardFromJson(v: Value): (r: Option<Card>)
    ensures r.Some? ==> CardToJson(r.value) == v
  {
    if v.Obj? && Keys(v) == ["id", "name", "localId", "number", "set", "image"]
      && v.fields[1].val.Str?
    then
      var id :- OptStrFromJson(v.fields[0].val);
      var localId :- OptStrFromJson(v.fields[2].val);
      var number :- OptStrFromJson(v.fields[3].val);
      var setRef :- OptSetRefFromJson(v.fields[4].val);
      var image :- OptStrFromJson(v.fields[5].val);
      var c := Card(id, v.fields[1].val.s, localId, number, setRef, image);
      assert v.fields == CardToJson(c).fields;
      Some(c)
    else None
  }

  lemma SeriesRoundTrip(s: Series)
    ensures SeriesFromJson(SeriesToJson(s)) == Some(s)
  {
    var v := SeriesToJson(s);
    assert Keys(v) == ["id", "name", "logo"];
  }

  lemma SetRoundTrip(s: SetInfo)
    ensures SetFromJson(SetToJson(s)) == Some(s)
  {
    var v := SetToJson(s);
    assert Keys(v) == ["id", "name", "logo", "cardCount", "releaseDate"];
    assert OptCountFromJson(OptCountToJson(s.cardCount)) == Some(s.cardCount);
  }

  lemma CardRoundTrip(c: Card)
    ensures CardFromJson(CardToJson(c)) == Some(c)
  {
    var v := CardToJson(c);
    assert Keys(v) == ["id", "name", "localId", "number", "set", "image"];
    assert OptSetRefFromJson(OptSetRefToJson(c.setRef)) == Some(c.setRef);
  }

  // ---------------------------------------------------------------------------
  // Lists

  function ItemsToJson<T>(xs: seq<T>, enc: T -> Value): (r: seq<Value>)
    ensures |r| == |xs|
    ensures forall i :: 0 <= i < |xs| ==> r[i] == enc(xs[i])
  {
    if xs == [] then [] else [enc(xs[0])] + ItemsToJson(xs[1..], enc)
  }

  function ItemsFromJson<T>(vs: seq<Value>, dec: Value -> Option<T>): (r: Option<seq<T>>)
    ensures r.Some? ==> |r.value| == |vs|
    ensures r.Some? ==> forall i :: 0 <= i < |vs| ==> dec(vs[i]) == Some(r.value[i])
  {
    if vs == [] then Some([])
    else
      var x :- dec(vs[0]);
      var xs :- ItemsFromJson(vs[1..], dec);
      Some([x] + xs)
  }

  lemma {:induction false} ItemsRoundTrip<T>(xs: seq<T>, enc: T -> Value, dec: Value -> Option<T>)
    requires forall x :: dec(enc(x)) == Some(x)
    ensures ItemsFromJson(ItemsToJson(xs, enc), dec) == Some(xs)
  {
    if xs != [] {
      ItemsRoundTrip(xs[1..], enc, dec);
      assert ItemsToJson(xs, enc)[1..] == ItemsToJson(xs[1..], enc);
      assert [xs[0]] + xs[1..] == xs;
    }
  }

  function SeriesListToJson(xs: seq<Series>): Value { Arr(ItemsToJson(xs, SeriesToJson)) }
  function SetListToJson(xs: seq<SetInfo>): Value { Arr(ItemsToJson(xs, SetToJson)) }
  function CardListToJson(xs: seq<Card>): Value { Arr(ItemsToJson(xs, CardToJson)) }

  /** Reading a cached series list; anything but an array of series is rejected. */
  function SeriesListFromJson(v: Value): (r: Option<seq<Series>>)
    ensures r.Some? ==> SeriesListToJson(r.value) == v
  {
    if v.Arr? then ItemsFromJsonExact(v.items, SeriesFromJson, SeriesToJson) else None
  }

  function SetListFromJson(v: Value): (r: Option<seq<SetInfo>>)
    ensures r.Some? ==> SetListToJson(r.value) == v
  {
    if v.Arr? then ItemsFromJsonExact(v.items, SetFromJson, SetToJson) else None
  }

  function CardListFromJson(v: Value): (r: Option<seq<Card>>)
    ensures r.Some? ==> CardListToJson(r.value) == v
  {
    if v.Arr? then ItemsFromJsonExact(v.items, CardFromJson, CardToJson) else None
  }

  /** `ItemsFromJson` for a decoder that only accepts encodings made by `enc`. */
  function ItemsFromJsonExact<T>(vs: seq<Value>, dec: Value -> Option<T>, enc: T -> Value): (r: Option<seq<T>>)
    requires forall v :: dec(v).Some? ==> enc(dec(v).value) == v
    ensures r == ItemsFromJson(vs, dec)
    ensures r.Some? ==> ItemsToJson(r.value, enc) == vs
  {
    var r := ItemsFromJson(vs, dec);
    if r.Some? then
      assert forall i :: 0 <= i < |vs| ==> ItemsToJson(r.value, enc)[i] == vs[i];
      r
    else r
  }

  lemma SeriesListRoundTrip(xs: seq<Series>)
    ensures SeriesListFromJson(SeriesListToJson(xs)) == Some(xs)
  {
    forall s: Series ensures SeriesFromJson(SeriesToJson(s)) == Some(s) { SeriesRoundTrip(s); }
    ItemsRoundTrip(xs, SeriesToJson, SeriesFromJson);
  }

  lemma SetListRoundTrip(xs: seq<SetInfo>)
    ensures SetListFromJson(SetListToJson(xs)) == Some(xs)
  {
    forall s: SetInfo ensures SetFromJson(SetToJson(s)) == Some(s) { SetRoundTrip(s); }
    ItemsRoundTrip(xs, SetToJson, SetFromJson);
  }

  lemma CardListRoundTrip(xs: seq<Card>)
    ensures CardListFromJson(CardListToJson(xs)) == Some(xs)
  {
    forall c: Card ensures CardFromJson(CardToJson(c)) == Some(c) { CardRoundTrip(c); }
    ItemsRoundTrip(xs, CardToJson, CardFromJson);
  }

  // ---------------------------------------------------------------------------
  // Id lists (`JSON.stringify(selectedIds)`)

  function StrListToJson(ids: seq<string>): (r: Value)
    ensures r.Arr? && |r.items| == |ids|
    ensures forall i :: 0 <= i < |ids| ==> r.items[i] == Str(ids[i])
  {
    Arr(seq(|ids|, i requires 0 <= i < |ids| => Str(ids[i])))
  }

  /**
   * The strings among the items of a parsed array: `ids.includes(x)` for a
   * string `x` can only match those.
   */
  function StringsOf(items: seq<Value>): (r: seq<string>)
    ensures |r| <= |items|
    ensures forall s :: s in r <==> Str(s) in items
  {
    if items == [] then []
    else
      var rest := StringsOf(items[1..]);
      assert forall s :: Str(s) in items <==> Str(s) == items[0] || Str(s) in items[1..];
      if items[0].Str? then [items[0].s] + rest else rest
  }

  /** Each string is kept with as many copies as the parsed array has. */
  lemma {:induction false} StringsOfCount(items: seq<Value>, s: string)
    ensures multiset(StringsOf(items))[s] == multiset(items)[Str(s)]
  {
    if items != [] {
      StringsOfCount(items[1..], s);
      assert items == [items[0]] + items[1..];
    }
  }

  /** An array of strings only gives exactly those strings, in order. */
  lemma {:induction false} StringsOfAllStrings(items: seq<Value>)
    requires forall i :: 0 <= i < |items| ==> items[i].Str?
    ensures |StringsOf(items)| == |items|
    ensures forall i :: 0 <= i < |items| ==> items[i] == Str(StringsOf(items)[i])
  {
    if items != [] {
      StringsOfAllStrings(items[1..]);
    }
  }

  lemma {:induction false} StringsOfStrList(ids: seq<string>)
    ensures StringsOf(StrListToJson(ids).items) == ids
  {
    if ids != [] {
      StringsOfStrList(ids[1..]);
      assert StrListToJson(ids).items[1..] == StrListToJson(ids[1..]).items;
    }
  }
}
