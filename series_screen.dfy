/**
 * The series list screen, in both applications (`ProjetoPokemon/screens` and
 * `screens`, whose `loadSeries` comparators are the same): the fetched series
 * are sorted in place by their position in a fixed list of series ids.
 */
module SeriesScreen {
  import opened Common
  import opened Lists
  import opened Entities
  import opened SetItem

  /** The comparator's `order` list. */
  const Order := ["sv", "swsh", "sm", "xy", "bw", "col", "hgss", "dp", "ex", "base"]

  /** `xs.indexOf(x)`: the first position of `x`, or -1. */
  function IndexOf(xs: seq<string>, x: string): (r: int)
    ensures -1 <= r < |xs|
    ensures r == -1 <==> x !in xs
    ensures r >= 0 ==> xs[r] == x && x !in xs[..r]
  {
    if xs == [] then -1
    else if xs[0] == x then 0
    else
      var k := IndexOf(xs[1..], x);
      assert k >= 0 ==> xs[..k + 1] == [xs[0]] + xs[1..][..k];
      if k == -1 then -1 else k + 1
  }

  /**
   * The comparator of `loadSeries`, as written: unlisted ids tie, an unlisted
   * id goes after a listed one, and of two listed ids the one further down
   * `Order` goes first.
   */
  function Compare(a: Series, b: Series): (r: int)
    ensures !Listed(a) && !Listed(b) ==> r == 0
    ensures !Listed(a) && Listed(b) ==> r > 0
    ensures Listed(a) && !Listed(b) ==> r < 0
    ensures Listed(a) && Listed(b) ==> (r < 0 <==> IndexOf(Order, a.id) > IndexOf(Order, b.id))
    ensures Listed(a) && Listed(b) ==> (r == 0 <==> a.id == b.id)
  {
    var aIndex := IndexOf(Order, a.id);
    var bIndex := IndexOf(Order, b.id);
    if aIndex == -1 && bIndex == -1 then 0
    else if aIndex == -1 then 1
    else if bIndex == -1 then -1
    else bIndex - aIndex
  }

  /** An ascending key that orders like `Compare`: unlisted ids last, larger positions first. */
  function RankKey(s: Series): int {
    var i := IndexOf(Order, s.id);
    if i == -1 then 1 else -i
  }

  predicate Listed(s: Series) {
    s.id in Order
  }

  /** `Compare` has the sign of a key difference, so `sort` keeps to `SortSpec` by `RankKey`. */
  lemma CompareAgreesWithRank(a: Series, b: Series)
    ensures Compare(a, b) < 0 <==> RankKey(a) < RankKey(b)
    ensures Compare(a, b) == 0 <==> RankKey(a) == RankKey(b)
    ensures !Listed(a) && !Listed(b) ==> Compare(a, b) == 0
    ensures !Listed(a) && Listed(b) ==> Compare(a, b) > 0
    ensures Listed(a) && Listed(b) ==> Compare(a, b) == IndexOf(Order, b.id) - IndexOf(Order, a.id)
  {
  }

  /** The sort step of `loadSeries`: `seriesData.sort(compare)`, in place. */
  method SortSeries(a: array<Series>)
    modifies a
    ensures a[..] == SortSpec(old(a[..]), RankKey)
  {
    SortByKey(a, RankKey);
  }

  /**
   * The sorted list is a permutation of the fetched one; every unlisted series
   * comes after every listed one; listed series come by descending position.
   */
  lemma {:induction false} SortedSeriesOrder(s: seq<Series>)
    ensures var r := SortSpec(s, RankKey);
      multiset(r) == multiset(s)
      && (forall i, j :: 0 <= i < j < |r| && Listed(r[j]) ==> Listed(r[i]))
      && (forall i, j :: 0 <= i < j < |r| && Listed(r[i]) && Listed(r[j]) ==>
            IndexOf(Order, r[i].id) >= IndexOf(Order, r[j].id))
  {
    SortSpecPermutes(s, RankKey);
    SortSpecSorted(s, RankKey);
    var r := SortSpec(s, RankKey);
    forall i, j | 0 <= i < j < |r| && Listed(r[j]) ensures Listed(r[i]) {
      assert RankKey(r[i]) <= RankKey(r[j]);
    }
  }

  /** Unlisted series compare equal, so they keep their fetched order. */
  lemma UnlistedKeepOrder(s: seq<Series>)
    ensures Filter(SortSpec(s, RankKey), HasKey(RankKey, 1)) == Filter(s, HasKey(RankKey, 1))
    ensures forall x :: HasKey(RankKey, 1)(x) <==> !Listed(x)
  {
    SortSpecStable(s, RankKey, 1);
    forall x ensures HasKey(RankKey, 1)(x) <==> !Listed(x) {
      assert HasKey(RankKey, 1)(x) == (RankKey(x) == 1);
    }
  }

  lemma OrderEnds()
    ensures IndexOf(Order, "sv") == 0 && IndexOf(Order, "base") == 9
  {
    var head := ["sv", "swsh", "sm", "xy", "bw", "col", "hgss", "dp", "ex"];
    assert Order == head + ["base"];
    assert "base" != "sv" && "base" != "swsh" && "base" != "sm";
    assert "base" != "xy" && "base" != "bw" && "base" != "col";
    assert "base" != "hgss" && "base" != "dp" && "base" != "ex";
    assert "base" !in head;
    assert Order[..9] == head;
  }

  /** `SortSpec` of two elements: the second moves before the first exactly when its key is smaller. */
  lemma SortTwo<T>(x: T, y: T, key: T -> int)
    ensures SortSpec([x, y], key) == if key(x) <= key(y) then [x, y] else [y, x]
  {
    assert [x, y][..1] == [x];
    assert [x][..0] == [];
    assert SortSpec([x], key) == Insert(x, [], key) == [x];
    assert SortSpec([x, y], key) == Insert(y, [x], key);
    assert Insert(y, [x], key) == if key(x) <= key(y) then [x] + [y] else Insert(y, [], key) + [x];
  }

  /** As written the oldest series comes first: `base` is placed before `sv`. */
  lemma BaseBeforeSv(sv: Series, base: Series)
    requires sv.id == "sv" && base.id == "base"
    ensures SortSpec([sv, base], RankKey) == [base, sv]
  {
    OrderEnds();
    SortTwo(sv, base, RankKey);
  }

  /** The comparator as its comments evidently intend, `aIndex - bIndex`: newest first. */
  function NewestFirstRank(s: Series): int {
    var i := IndexOf(Order, s.id);
    if i == -1 then |Order| else i
  }

  method SortSeriesNewestFirst(a: array<Series>)
    modifies a
    ensures a[..] == SortSpec(old(a[..]), NewestFirstRank)
  {
    SortByKey(a, NewestFirstRank);
  }

  /** With the intended comparator the listed series follow `Order`, unlisted last. */
  lemma {:induction false} NewestFirstOrder(s: seq<Series>)
    ensures var r := SortSpec(s, NewestFirstRank);
      multiset(r) == multiset(s)
      && (forall i, j :: 0 <= i < j < |r| && Listed(r[j]) ==> Listed(r[i]))
      && (forall i, j :: 0 <= i < j < |r| && Listed(r[i]) && Listed(r[j]) ==>
            IndexOf(Order, r[i].id) <= IndexOf(Order, r[j].id))
  {
    SortSpecPermutes(s, NewestFirstRank);
    SortSpecSorted(s, NewestFirstRank);
    var r := SortSpec(s, NewestFirstRank);
    forall i, j | 0 <= i < j < |r| && Listed(r[j]) ensures Listed(r[i]) {
      assert NewestFirstRank(r[i]) <= NewestFirstRank(r[j]);
    }
  }

  lemma SvBeforeBase(sv: Series, base: Series)
    requires sv.id == "sv" && base.id == "base"
    ensures SortSpec([base, sv], NewestFirstRank) == [sv, base]
  {
    OrderEnds();
    SortTwo(base, sv, NewestFirstRank);
  }

  /** `getLogoUrl` of the series screens: the `SetItem` rule applied to `series.logo`. */
  function SeriesLogoUrl(s: Series): (r: Option<string>)
    ensures r.Some? ==> r.value != "" && HasImageExtension(r.value)
    ensures s.logo.Some? && s.logo.value != "" && HasImageExtension(s.logo.value) ==> r == s.logo
    ensures s.logo.Some? && s.logo.value != "" && !HasImageExtension(s.logo.value) ==> r == Some(s.logo.value + ".webp")
    ensures s.logo.None? || s.logo.value == "" ==> r.None?
  {
    LogoUrlHasExtension(s.logo);
    LogoUrl(s.logo)
  }

  /** `getLocalLogo`'s table of bundled logos, as (series id, asset) pairs: it is empty. */
  const LocalLogos: seq<(string, string)> := []

  /** `table[key] || null`. */
  function Lookup(table: seq<(string, string)>, key: string): (r: Option<string>)
    ensures r.Some? ==> r.value != "" && exists i :: 0 <= i < |table| && table[i] == (key, r.value)
  {
    if table == [] then None
    else if table[0].0 == key then (if table[0].1 != "" then Some(table[0].1) else None)
    else Lookup(table[1..], key)
  }

  /**
   * `getLocalLogo`: there is never a bundled logo. The table is a plain
   * object, so an id naming an `Object.prototype` member (`constructor`,
   * say) would find that member; such prototype keys are not modelled.
   */
  function LocalLogo(s: Series): (r: Option<string>)
    ensures r.None?
  {
    Lookup(LocalLogos, s.id)
  }
}
