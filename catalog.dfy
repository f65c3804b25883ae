/**
 * The list transforms and URL rules the two data services share: which
 * expansions are listed and in what order, which cards belong to an expansion,
 * the user's id selections, and the card image URLs.
 */
module Catalog {
  import opened Common
  import opened Text
  import opened Lists
  import opened Entities

  // ---------------------------------------------------------------------------
  // Expansions: `cardCount.total > 0`, newest first

  /** `set.cardCount && set.cardCount.total > 0`. */
  predicate HasCards(s: SetInfo) {
    s.cardCount.Some? && s.cardCount.value.total > 0
  }

  /** `set.releaseDate || 0`. */
  function DateKey(s: SetInfo): int {
    if s.releaseDate.Some? then s.releaseDate.value else 0
  }

  /** The sort comparator `(a, b) => date(b) - date(a)`. */
  function CompareByDate(a: SetInfo, b: SetInfo): int {
    DateKey(b) - DateKey(a)
  }

  /** The ascending key that orders like `CompareByDate`. */
  function NewestFirstKey(s: SetInfo): int {
    -DateKey(s)
  }

  lemma CompareByDateIsKeyOrder(a: SetInfo, b: SetInfo)
    ensures CompareByDate(a, b) < 0 <==> NewestFirstKey(a) < NewestFirstKey(b)
    ensures CompareByDate(a, b) == 0 <==> NewestFirstKey(a) == NewestFirstKey(b)
  {
  }

  /**
   * What `getSets` returns for the fetched list `sets`: the sets with cards,
   * newest first, equal dates in their fetched order.
   */
  function ArrangeSets(sets: seq<SetInfo>): (r: seq<SetInfo>)
    ensures multiset(r) == multiset(Filter(sets, HasCards))
    ensures forall i :: 0 <= i < |r| ==> HasCards(r[i])
    ensures forall i, j :: 0 <= i < j < |r| ==> DateKey(r[i]) >= DateKey(r[j])
  {
    ArrangedFacts(Filter(sets, HasCards));
    SortSpec(Filter(sets, HasCards), NewestFirstKey)
  }

  lemma ArrangedFacts(kept: seq<SetInfo>)
    requires forall i :: 0 <= i < |kept| ==> HasCards(kept[i])
    ensures var r := SortSpec(kept, NewestFirstKey);
      multiset(r) == multiset(kept)
      && (forall i :: 0 <= i < |r| ==> HasCards(r[i]))
      && forall i, j :: 0 <= i < j < |r| ==> DateKey(r[i]) >= DateKey(r[j])
  {
    SortSpecPermutes(kept, NewestFirstKey);
    SortSpecSorted(kept, NewestFirstKey);
    var r := SortSpec(kept, NewestFirstKey);
    assert forall i :: 0 <= i < |r| ==> r[i] in multiset(kept);
  }

  /** The filter and the in-place `sort` of `getSets`, on a fresh array. */
  method ArrangeSetsInPlace(sets: seq<SetInfo>) returns (r: seq<SetInfo>)
    ensures r == ArrangeSets(sets)
  {
    var filtered := Filter(sets, HasCards);
    var a := new SetInfo[|filtered|](i requires 0 <= i < |filtered| => filtered[i]);
    assert a[..] == filtered;
    SortByKey(a, NewestFirstKey);
    r := a[..];
  }

  /** A set is listed by `getSets` exactly when it was fetched and has cards. */
  lemma ArrangeSetsMembers(sets: seq<SetInfo>, s: SetInfo)
    ensures s in ArrangeSets(sets) <==> s in sets && HasCards(s)
  {
    var kept := Filter(sets, HasCards);
    assert s in ArrangeSets(sets) <==> s in multiset(kept);
    if s in sets && HasCards(s) {
      var i :| 0 <= i < |sets| && sets[i] == s;
    }
  }

  /** Sets with the same release date keep their fetched order. */
  lemma {:induction false} ArrangeSetsStable(sets: seq<SetInfo>, date: int)
    ensures Filter(ArrangeSets(sets), HasKey(NewestFirstKey, -date))
         == Filter(Filter(sets, HasCards), HasKey(NewestFirstKey, -date))
  {
    var kept := Filter(sets, HasCards);
    assert ArrangeSets(sets) == SortSpec(kept, NewestFirstKey);
    SortSpecStableFor(kept, NewestFirstKey, HasKey(NewestFirstKey, -date), -date);
  }

  function SetIdPrefix(prefix: string): SetInfo -> bool {
    (s: SetInfo) => StartsWith(s.id, prefix)
  }

  /** `getSetsBySeries`: the sets whose id starts with the series id, in order. */
  function SetsOfSeries(sets: seq<SetInfo>, seriesId: string): (r: seq<SetInfo>)
    ensures IsSubseq(r, sets)
    ensures forall i :: 0 <= i < |r| ==> StartsWith(r[i].id, seriesId)
    ensures forall i :: 0 <= i < |sets| && StartsWith(sets[i].id, seriesId) ==> sets[i] in r
    ensures forall s :: multiset(r)[s] == if StartsWith(s.id, seriesId) then multiset(sets)[s] else 0
  {
    FilterIsSubseq(sets, SetIdPrefix(seriesId));
    FilterCounts(sets, SetIdPrefix(seriesId));
    Filter(sets, SetIdPrefix(seriesId))
  }

  // ---------------------------------------------------------------------------
  // Selections by id (`selectedIds.includes(x.id)`)

  function SeriesIdIn(ids: seq<string>): Series -> bool {
    (s: Series) => s.id in ids
  }

  function SetIdIn(ids: seq<string>): SetInfo -> bool {
    (s: SetInfo) => s.id in ids
  }

  function SelectSeries(all: seq<Series>, ids: seq<string>): (r: seq<Series>)
    ensures IsSubseq(r, all)
    ensures forall i :: 0 <= i < |r| ==> r[i].id in ids
    ensures forall i :: 0 <= i < |all| && all[i].id in ids ==> all[i] in r
    ensures forall s :: multiset(r)[s] == if s.id in ids then multiset(all)[s] else 0
  {
    FilterIsSubseq(all, SeriesIdIn(ids));
    FilterCounts(all, SeriesIdIn(ids));
    Filter(all, SeriesIdIn(ids))
  }

  function SelectSets(all: seq<SetInfo>, ids: seq<string>): (r: seq<SetInfo>)
    ensures IsSubseq(r, all)
    ensures forall i :: 0 <= i < |r| ==> r[i].id in ids
    ensures forall i :: 0 <= i < |all| && all[i].id in ids ==> all[i] in r
    ensures forall s :: multiset(r)[s] == if s.id in ids then multiset(all)[s] else 0
  {
    FilterIsSubseq(all, SetIdIn(ids));
    FilterCounts(all, SetIdIn(ids));
    Filter(all, SetIdIn(ids))
  }

  lemma SuffixHasQuality(pre: string, quality: string)
    requires quality == "high" || quality == "medium" || quality == "low"
    ensures HasQuality(pre + ("/" + quality + ".webp"))
  {
    ContainsSuffix(pre, "/" + quality + ".webp");
    if quality == "high" {
      assert "/" + quality + ".webp" == "/high.webp";
    } else if quality == "medium" {
      assert "/" + quality + ".webp" == "/medium.webp";
    } else {
      assert "/" + quality + ".webp" == "/low.webp";
    }
  }

  /** `card.set?.id || card.id?.split('-')[0]`; `None` is `undefined`. */
  function CardSetId(c: Card): (r: Option<string>)
    ensures c.setRef.Some? && c.setRef.value.id.Some? && c.setRef.value.id.value != "" ==> r == c.setRef.value.id
    ensures r.Some? && (c.setRef.None? || c.setRef.value.id.None? || c.setRef.value.id.value == "")
        ==> c.id.Some? && r.value == SplitHead(c.id.value, '-')
  {
    OrElse(if c.setRef.Some? then c.setRef.value.id else None,
           if c.id.Some? then Some(SplitHead(c.id.value, '-')) else None)
  }

  function CardSetIn(ids: seq<string>): Card -> bool {
    c => CardSetId(c).Some? && CardSetId(c).value in ids
  }

  /** The `getFilteredCards` filter. */
  function SelectCards(all: seq<Card>, ids: seq<string>): (r: seq<Card>)
    ensures IsSubseq(r, all)
    ensures forall i :: 0 <= i < |r| ==> CardSetId(r[i]).Some? && CardSetId(r[i]).value in ids
    ensures forall i :: 0 <= i < |all| && CardSetId(all[i]).Some? && CardSetId(all[i]).value in ids ==> all[i] in r
    ensures forall c :: multiset(r)[c] == if CardSetId(c).Some? && CardSetId(c).value in ids then multiset(all)[c] else 0
  {
    FilterIsSubseq(all, CardSetIn(ids));
    FilterCounts(all, CardSetIn(ids));
    Filter(all, CardSetIn(ids))
  }

  // ---------------------------------------------------------------------------
  // Cards of one expansion

  /** `card.id || ''`. */
  function CardIdText(c: Card): string {
    if c.id.Some? then c.id.value else ""
  }

  function CardInSet(setId: string): Card -> bool {
    c => StartsWith(CardIdText(c), setId + "-")
  }

  /** The cards whose id starts with `setId + '-'`, in order. */
  function CardsOfSet(cards: seq<Card>, setId: string): (r: seq<Card>)
    ensures IsSubseq(r, cards)
    ensures forall i :: 0 <= i < |r| ==> r[i].id.Some? && StartsWith(r[i].id.value, setId + "-")
    ensures forall i :: 0 <= i < |cards| && StartsWith(CardIdText(cards[i]), setId + "-") ==> cards[i] in r
    ensures forall c :: multiset(r)[c] == if StartsWith(CardIdText(c), setId + "-") then multiset(cards)[c] else 0
  {
    FilterIsSubseq(cards, CardInSet(setId));
    FilterCounts(cards, CardInSet(setId));
    Filter(cards, CardInSet(setId))
  }

  /**
   * For an expansion id without `-`, the `-` delimiter makes the prefix test
   * exact: a card id matches exactly when the part before its first `-` is the
   * expansion id (so `sv01` never picks up `sv010-1`).
   */
  lemma CardInSetExact(id: string, setId: string)
    requires '-' !in setId
    ensures StartsWith(id, setId + "-") <==> '-' in id && SplitHead(id, '-') == setId
  {
    var h := SplitHead(id, '-');
    if StartsWith(id, setId + "-") {
      var rest := id[|setId| + 1..];
      assert id == setId + "-" + rest;
      SplitHeadOf(setId, '-', rest);
      assert id[|setId|] == '-';
    }
    if '-' in id && h == setId {
      assert |h| < |id|;
      assert id[..|setId| + 1] == setId + "-";
    }
  }

  lemma {:induction false} SplitHeadOf(p: string, sep: char, rest: string)
    requires sep !in p
    ensures SplitHead(p + [sep] + rest, sep) == p
  {
    if p != [] {
      assert (p + [sep] + rest)[1..] == p[1..] + [sep] + rest;
      SplitHeadOf(p[1..], sep, rest);
    } else {
      assert p + [sep] + rest == [sep] + rest;
    }
  }

  lemma Sv01DoesNotMatchSv010()
    ensures !CardInSet("sv01")(Card(Some("sv010-1"), "", None, None, None, None))
    ensures CardInSet("sv01")(Card(Some("sv01-1"), "", None, None, None, None))
  {
    var c := Card(Some("sv010-1"), "", None, None, None, None);
    assert CardIdText(c)[4] != ("sv01" + "-")[4];
  }

  /**
   * The per-card detail fetch, `Promise.all(cards.map(get))` with each failed
   * fetch replaced by the basic card.
   */
  function WithDetails(cards: seq<Card>, get: string -> Outcome<Card>): (r: seq<Card>)
    ensures |r| == |cards|
    ensures forall i :: 0 <= i < |cards| && get(CardIdText(cards[i])).Ok? ==> r[i] == get(CardIdText(cards[i])).value
    ensures forall i :: 0 <= i < |cards| && get(CardIdText(cards[i])).Fail? ==> r[i] == cards[i]
  {
    if cards == [] then []
    else
      var c := cards[0];
      [if get(CardIdText(c)).Ok? then get(CardIdText(c)).value else c] + WithDetails(cards[1..], get)
  }

  // ---------------------------------------------------------------------------
  // Image URLs

  const AssetsHost := "https://assets.tcgdex.net/"

  predicate HasQuality(image: string) {
    Contains(image, "/high.webp") || Contains(image, "/medium.webp") || Contains(image, "/low.webp")
  }

  /** The `card.image` branch of `getImageURL`. */
  function WithQuality(image: string, quality: string): string {
    if HasQuality(image) then image
    else (if EndsWith(image, "/") then image else image + "/") + quality + ".webp"
  }

  /**
   * An image without a quality suffix gets exactly one `/` and then
   * `<quality>.webp`; one with a suffix is kept.
   */
  lemma WithQualityShape(image: string, quality: string)
    ensures HasQuality(image) ==> WithQuality(image, quality) == image
    ensures !HasQuality(image) ==>
      var r := WithQuality(image, quality);
      StartsWith(r, image) && EndsWith(r, "/" + quality + ".webp")
      && |r| == |image| + |quality| + 5 + (if EndsWith(image, "/") then 0 else 1)
  {
    if !HasQuality(image) {
      var base := if EndsWith(image, "/") then image else image + "/";
      var r := base + quality + ".webp";
      assert r == base[..|base| - 1] + ("/" + quality + ".webp");
      assert r[..|image|] == image;
    }
  }

  /** For the three qualities the code recognises, adding the suffix twice adds it once. */
  lemma WithQualityIdempotent(image: string, quality: string)
    requires quality == "high" || quality == "medium" || quality == "low"
    ensures WithQuality(WithQuality(image, quality), quality) == WithQuality(image, quality)
  {
    if !HasQuality(image) {
      var base := if EndsWith(image, "/") then image else image + "/";
      assert WithQuality(image, quality) == base[..|base| - 1] + ("/" + quality + ".webp");
      SuffixHasQuality(base[..|base| - 1], quality);
    }
  }

  /** `card.set?.id || card.id?.split('-')[0] || 'sv01'`. */
  function FallbackSetId(c: Card): (r: string)
    ensures r != ""
    ensures CardSetId(c).Some? && CardSetId(c).value != "" ==> r == CardSetId(c).value
    ensures CardSetId(c).None? || CardSetId(c).value == "" ==> r == "sv01"
  {
    OrElse(CardSetId(c), Some("sv01")).value
  }

  /** `card.localId || card.number || '1'`. */
  function FallbackNumber(c: Card): (r: string)
    ensures r != ""
    ensures c.localId.Some? && c.localId.value != "" ==> r == c.localId.value
    ensures (c.localId.None? || c.localId.value == "") && c.number.Some? && c.number.value != "" ==> r == c.number.value
    ensures (c.localId.None? || c.localId.value == "") && (c.number.None? || c.number.value == "") ==> r == "1"
  {
    OrElse(OrElse(c.localId, c.number), Some("1")).value
  }

  /**
   * `getImageURL` for a card record. Records decoded from the cache or from
   * HTTP carry no `getImageURL` method, so only the image and fallback
   * branches apply.
   */
  function ImageUrl(c: Card, quality: string, language: string): string {
    if c.image.Some? && c.image.value != "" then WithQuality(c.image.value, quality)
    else AssetsHost + language + "/sv/" + FallbackSetId(c) + "/" + FallbackNumber(c) + "/" + quality + ".webp"
  }

  /** A card whose image already carries the quality suffix keeps it through `ImageUrl`. */
  lemma ImageUrlIdempotent(c: Card, quality: string, language: string)
    requires quality == "high" || quality == "medium" || quality == "low"
    requires c.image.Some? && c.image.value != ""
    ensures var url := ImageUrl(c, quality, language);
      ImageUrl(c.(image := Some(url)), quality, language) == url
  {
    WithQualityIdempotent(c.image.value, quality);
    WithQualityShape(c.image.value, quality);
  }

  /** `getCardImageUrl(cardId, setId, imageType)`: host, then four path segments. */
  function CardImageUrl(language: string, cardId: string, setId: string, imageType: string): (r: string)
    ensures r == AssetsHost + language + "/" + setId + "/" + cardId + "/" + imageType + ".webp"
  {
    AssetsHost + language + "/" + setId + "/" + cardId + "/" + imageType + ".webp"
  }

  /** Two `/`-free segments followed by `/` split the same way only when they agree. */
  lemma SegmentSplit(a: string, rest: string, b: string, rest2: string)
    requires '/' !in a && '/' !in b
    requires a + "/" + rest == b + "/" + rest2
    ensures a == b && rest == rest2
  {
    SplitHeadOf(a, '/', rest);
    SplitHeadOf(b, '/', rest2);
    assert a + "/" + rest == a + ['/'] + rest;
    assert b + "/" + rest2 == b + ['/'] + rest2;
    assert rest == (a + "/" + rest)[|a| + 1..];
    assert rest2 == (b + "/" + rest2)[|b| + 1..];
  }

  /**
   * A card image URL determines its language, expansion, card and image type
   * when the first three contain no `/`: different cards never share a URL.
   */
  lemma CardImageUrlInjective(l1: string, c1: string, s1: string, t1: string,
                              l2: string, c2: string, s2: string, t2: string)
    requires '/' !in l1 && '/' !in c1 && '/' !in s1
    requires '/' !in l2 && '/' !in c2 && '/' !in s2
    ensures CardImageUrl(l1, c1, s1, t1) == CardImageUrl(l2, c2, s2, t2) <==>
      l1 == l2 && c1 == c2 && s1 == s2 && t1 == t2
  {
    if CardImageUrl(l1, c1, s1, t1) == CardImageUrl(l2, c2, s2, t2) {
      var u1 := l1 + "/" + (s1 + "/" + (c1 + "/" + (t1 + ".webp")));
      var u2 := l2 + "/" + (s2 + "/" + (c2 + "/" + (t2 + ".webp")));
      assert CardImageUrl(l1, c1, s1, t1) == AssetsHost + u1;
      assert CardImageUrl(l2, c2, s2, t2) == AssetsHost + u2;
      assert u1 == (AssetsHost + u1)[|AssetsHost|..];
      assert u2 == (AssetsHost + u2)[|AssetsHost|..];
      SegmentSplit(l1, s1 + "/" + (c1 + "/" + (t1 + ".webp")), l2, s2 + "/" + (c2 + "/" + (t2 + ".webp")));
      SegmentSplit(s1, c1 + "/" + (t1 + ".webp"), s2, c2 + "/" + (t2 + ".webp"));
      SegmentSplit(c1, t1 + ".webp", c2, t2 + ".webp");
      assert t1 == (t1 + ".webp")[..|t1|];
      assert t2 == (t2 + ".webp")[..|t2|];
    }
  }
}
