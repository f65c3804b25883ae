/**
 * The local cache manager. Every entry is a pair: the JSON payload under `key`
 * and the write time (epoch milliseconds, as decimal text) under
 * `key + "_timestamp"`. `AsyncStorage` is the string-to-string store held in
 * `CacheService.store`; `Date.now()` is the parameter `now`; a storage call
 * that throws is described by a `StorageFault`.
 */
module CacheLayer {
  import opened Common
  import opened Text
  import opened Json

  type Store = map<string, string>

  // ---------------------------------------------------------------------------
  // Keys and durations (the `cacheKeys` and `cacheDuration` tables)

  const SeriesKey := "cached_series"
  const SetsKey := "cached_sets"
  const CardsKeyBase := "cached_cards"
  const LastUpdateKey := "last_cache_update"
  const ExchangeRateKey := "cached_exchange_rate"

  const DayMs: nat := 24 * 60 * 60 * 1000
  const HourMs: nat := 1000 * 60 * 60
  const SeriesDuration: nat := 7 * DayMs
  const SetsDuration: nat := 7 * DayMs
  const CardsDuration: nat := DayMs
  const ExchangeRateDuration: nat := DayMs

  /** The entries of `cacheKeys`, in declaration order. */
  datatype Category = SeriesEntry | SetsEntry | CardsEntry | LastUpdateEntry | ExchangeRateEntry

  const Categories := [SeriesEntry, SetsEntry, CardsEntry, LastUpdateEntry, ExchangeRateEntry]

  function CategoryName(c: Category): string {
    match c
    case SeriesEntry => "series"
    case SetsEntry => "sets"
    case CardsEntry => "cards"
    case LastUpdateEntry => "lastUpdate"
    case ExchangeRateEntry => "exchangeRate"
  }

  function CategoryKey(c: Category): string {
    match c
    case SeriesEntry => SeriesKey
    case SetsEntry => SetsKey
    case CardsEntry => CardsKeyBase
    case LastUpdateEntry => LastUpdateKey
    case ExchangeRateEntry => ExchangeRateKey
  }

  /** `cacheDuration[name]`; `lastUpdate` has no entry there (`undefined`). */
  function Duration(c: Category): Option<nat> {
    match c
    case SeriesEntry => Some(SeriesDuration)
    case SetsEntry => Some(SetsDuration)
    case CardsEntry => Some(CardsDuration)
    case LastUpdateEntry => None
    case ExchangeRateEntry => Some(ExchangeRateDuration)
  }

  function TimestampKey(key: string): string {
    key + "_timestamp"
  }

  /** The key of the card list of one expansion. */
  function CardsKey(setId: string): string {
    CardsKeyBase + "_" + setId
  }

  const CardsPrefix := CardsKeyBase + "_"

  // ---------------------------------------------------------------------------
  // Storage faults

  /** `FailOnCall(k)`: the k-th storage call (from 0) of the operation throws. */
  datatype StorageFault = NoFault | FailOnCall(call: nat)

  predicate FailsBefore(fault: StorageFault, calls: nat) {
    fault.FailOnCall? && fault.call < calls
  }

  // ---------------------------------------------------------------------------
  // Store semantics

  /** The stored timestamp of `key` as JavaScript reads it: absent or `""` is `None`. */
  function StoredTimestamp(store: Store, key: string): Option<string> {
    var ts := TimestampKey(key);
    if ts in store && store[ts] != "" then Some(store[ts]) else None
  }

  /**
   * `isCacheValid` without faults: a timestamp must be present, `parseInt`
   * must not give `NaN` (a `NaN` age is never below the duration) and
   * the age must be strictly below the duration.
   */
  function Validity(store: Store, key: string, duration: int, now: int): bool {
    match StoredTimestamp(store, key)
    case None => false
    case Some(text) =>
      match ParseInt(text)
      case None => false
      case Some(t) => now - t < duration
  }

  /** `getCache` without faults: a missing or empty text and a parse error give `null`. */
  function ReadPayload(store: Store, key: string): Value {
    if key !in store || store[key] == "" then Null
    else match Parse(store[key])
      case None => Null
      case Some(v) => v
  }

  /** The `getCachedX` pattern: storage call 0 reads the timestamp, call 1 the payload. */
  function CachedRead(store: Store, key: string, duration: int, now: int, fault: StorageFault): Value {
    if FailsBefore(fault, 2) || !Validity(store, key, duration, now) then Null
    else ReadPayload(store, key)
  }

  /** `setCache`: call 0 writes the payload, call 1 the timestamp; a throw ends the write. */
  function Written(store: Store, key: string, data: Value, now: nat, fault: StorageFault): Store {
    if fault == FailOnCall(0) then store
    else if fault == FailOnCall(1) then store[key := Stringify(data)]
    else store[key := Stringify(data)][TimestampKey(key) := NatDigits(now)]
  }

  /**
   * `allKeys` after the loop has visited the first `n` categories: each fixed
   * key followed by its timestamp key.
   */
  function FixedKeys(n: nat): (r: seq<string>)
    requires n <= |Categories|
    ensures |r| == 2 * n
  {
    if n == 0 then []
    else
      var c := Categories[n - 1];
      FixedKeys(n - 1) + [CategoryKey(c), TimestampKey(CategoryKey(c))]
  }

  /** The keys `clearAllCache` removes from `store`. */
  predicate Clearable(store: Store, k: string) {
    k in FixedKeys(|Categories|) || (k in store && StartsWith(k, CardsPrefix))
  }

  function Cleared(store: Store): Store {
    map k | k in store && !Clearable(store, k) :: store[k]
  }

  /** One `getCacheInfo` entry. `ageHours` is `None` where JavaScript computes `NaN`. */
  datatype EntryInfo = Missing | Present(ageHours: Option<int>, isValid: bool)

  function Entry(store: Store, c: Category, now: int): EntryInfo {
    match StoredTimestamp(store, CategoryKey(c))
    case None => Missing
    case Some(text) =>
      match ParseInt(text)
      case None => Present(None, Duration(c).None?)
      case Some(t) =>
        var age := now - t;
        // Euclidean division by a positive divisor is Math.floor
        Present(Some(age / HourMs), Duration(c).None? || age < Duration(c).value)
  }

  /** `info` after the loop has visited the first `n` categories. */
  function InfoOf(store: Store, n: nat, now: int): map<string, EntryInfo>
    requires n <= |Categories|
  {
    if n == 0 then map[]
    else
      var c := Categories[n - 1];
      InfoOf(store, n - 1, now)[CategoryName(c) := Entry(store, c, now)]
  }

  // ---------------------------------------------------------------------------
  // The service object

  class CacheService {
    var store: Store

    constructor (initial: Store)
      ensures store == initial
    {
      store := initial;
    }

    function IsCacheValid(key: string, duration: int, now: int, fault: StorageFault): (r: bool)
      reads this
      ensures r ==> !FailsBefore(fault, 1) && StoredTimestamp(store, key).Some?
      ensures r ==> ParseInt(StoredTimestamp(store, key).value).Some?
      ensures r ==> now - ParseInt(StoredTimestamp(store, key).value).value < duration
      ensures !FailsBefore(fault, 1) && StoredTimestamp(store, key).Some? ==>
        var t := ParseInt(StoredTimestamp(store, key).value);
        t.Some? && now - t.value < duration ==> r
    {
      !FailsBefore(fault, 1) && Validity(store, key, duration, now)
    }

    function GetCache(key: string, fault: StorageFault): (r: Value)
      reads this
      ensures FailsBefore(fault, 1) || key !in store || store[key] == "" ==> r == Null
      ensures r != Null ==> key in store && Parse(store[key]) == Some(r)
      ensures !FailsBefore(fault, 1) && key in store && store[key] != "" && Parse(store[key]).Some? ==> r == Parse(store[key]).value
      ensures key in store && Parse(store[key]).None? ==> r == Null
    {
      if FailsBefore(fault, 1) then Null else ReadPayload(store, key)
    }

    /**
     * `getCachedSeries`: the stored payload when the entry is valid and both storage
     * reads succeed, `null` otherwise.
     */
    function GetCachedSeries(now: int, fault: StorageFault): (r: Value)
      reads this
      ensures !IsCacheValid(SeriesKey, SeriesDuration, now, fault) ==> r == Null
      ensures FailsBefore(fault, 2) ==> r == Null
      ensures IsCacheValid(SeriesKey, SeriesDuration, now, fault) && fault != FailOnCall(1) ==> r == GetCache(SeriesKey, NoFault)
      ensures r != Null ==> SeriesKey in store && Parse(store[SeriesKey]) == Some(r)
    {
      CachedRead(store, SeriesKey, SeriesDuration, now, fault)
    }

    /**
     * `getCachedSets`: the stored payload when the entry is valid and both storage
     * reads succeed, `null` otherwise.
     */
    function GetCachedSets(now: int, fault: StorageFault): (r: Value)
      reads this
      ensures !IsCacheValid(SetsKey, SetsDuration, now, fault) ==> r == Null
      ensures FailsBefore(fault, 2) ==> r == Null
      ensures IsCacheValid(SetsKey, SetsDuration, now, fault) && fault != FailOnCall(1) ==> r == GetCache(SetsKey, NoFault)
      ensures r != Null ==> SetsKey in store && Parse(store[SetsKey]) == Some(r)
    {
      CachedRead(store, SetsKey, SetsDuration, now, fault)
    }

    /**
     * `getCachedCards(setId)`, under `cached_cards_<setId>`: the stored payload when the entry is valid and both storage
     * reads succeed, `null` otherwise.
     */
    function GetCachedCards(setId: string, now: int, fault: StorageFault): (r: Value)
      reads this
      ensures !IsCacheValid(CardsKey(setId), CardsDuration, now, fault) ==> r == Null
      ensures FailsBefore(fault, 2) ==> r == Null
      ensures IsCacheValid(CardsKey(setId), CardsDuration, now, fault) && fault != FailOnCall(1) ==> r == GetCache(CardsKey(setId), NoFault)
      ensures r != Null ==> CardsKey(setId) in store && Parse(store[CardsKey(setId)]) == Some(r)
    {
      CachedRead(store, CardsKey(setId), CardsDuration, now, fault)
    }

    /**
     * `getCachedExchangeRate`: the stored payload when the entry is valid and both storage
     * reads succeed, `null` otherwise.
     */
    function GetCachedExchangeRate(now: int, fault: StorageFault): (r: Value)
      reads this
      ensures !IsCacheValid(ExchangeRateKey, ExchangeRateDuration, now, fault) ==> r == Null
      ensures FailsBefore(fault, 2) ==> r == Null
      ensures IsCacheValid(ExchangeRateKey, ExchangeRateDuration, now, fault) && fault != FailOnCall(1) ==> r == GetCache(ExchangeRateKey, NoFault)
      ensures r != Null ==> ExchangeRateKey in store && Parse(store[ExchangeRateKey]) == Some(r)
    {
      CachedRead(store, ExchangeRateKey, ExchangeRateDuration, now, fault)
    }

    method SetCache(key: string, data: Value, now: nat, fault: StorageFault)
      modifies this
      ensures store == Written(old(store), key, data, now, fault)
    {
      if fault == FailOnCall(0) {
        return;
      }
      store := store[key := Stringify(data)];
      if fault == FailOnCall(1) {
        return;
      }
      store := store[TimestampKey(key) := NatDigits(now)];
    }

    method SetCachedSeries(series: Value, now: nat, fault: StorageFault)
      modifies this
      ensures store == Written(old(store), SeriesKey, series, now, fault)
    {
      SetCache(SeriesKey, series, now, fault);
    }

    method SetCachedSets(sets: Value, now: nat, fault: StorageFault)
      modifies this
      ensures store == Written(old(store), SetsKey, sets, now, fault)
    {
      SetCache(SetsKey, sets, now, fault);
    }

    method SetCachedCards(setId: string, cards: Value, now: nat, fault: StorageFault)
      modifies this
      ensures store == Written(old(store), CardsKey(setId), cards, now, fault)
    {
      SetCache(CardsKey(setId), cards, now, fault);
    }

    method SetCachedExchangeRate(rateData: Value, now: nat, fault: StorageFault)
      modifies this
      ensures store == Written(old(store), ExchangeRateKey, rateData, now, fault)
    {
      SetCache(ExchangeRateKey, rateData, now, fault);
    }

    /** Storage call 0 is `getAllKeys`, call 1 the `multiRemove` of every collected key. */
    method ClearAllCache(fault: StorageFault)
      modifies this
      ensures store == if FailsBefore(fault, 2) then old(store) else Cleared(old(store))
    {
      var allKeys: seq<string> := [];
      var i := 0;
      while i < |Categories|
        invariant 0 <= i <= |Categories|
        invariant allKeys == FixedKeys(i)
      {
        var key := CategoryKey(Categories[i]);
        allKeys := allKeys + [key, TimestampKey(key)];
        i := i + 1;
      }
      if fault == FailOnCall(0) {
        return;
      }
      var cardKeys := set k | k in store && StartsWith(k, CardsPrefix);
      if fault == FailOnCall(1) {
        return;
      }
      store := map k | k in store && k !in allKeys && k !in cardKeys :: store[k];
    }

    /** Storage call `i` reads the timestamp of the `i`-th category. */
    method GetCacheInfo(now: int, fault: StorageFault) returns (info: map<string, EntryInfo>)
      ensures info == if FailsBefore(fault, |Categories|) then map[] else InfoOf(store, |Categories|, now)
    {
      info := map[];
      var i := 0;
      while i < |Categories|
        invariant 0 <= i <= |Categories|
        invariant !FailsBefore(fault, i)
        invariant info == InfoOf(store, i, now)
      {
        if fault == FailOnCall(i) {
          return map[];
        }
        var c := Categories[i];
        info := info[CategoryName(c) := Entry(store, c, now)];
        i := i + 1;
      }
    }

    method ForceRefreshCache(fault: StorageFault)
      modifies this
      ensures store == if FailsBefore(fault, 2) then old(store) else Cleared(old(store))
    {
      ClearAllCache(fault);
    }
  }

  // ---------------------------------------------------------------------------
  // Properties

  lemma Durations()
    ensures SeriesDuration == SetsDuration == 604800000
    ensures CardsDuration == ExchangeRateDuration == 86400000
    ensures HourMs == 3600000
  {
  }

  lemma TimestampKeyIsOther(key: string)
    ensures TimestampKey(key) != key
  {
    assert |TimestampKey(key)| == |key| + 10;
  }

  /**
   * Validity depends on the timestamp entry alone: two stores that agree on
   * `key + "_timestamp"` agree on validity, whatever they hold under `key`.
   */
  lemma {:induction false} ValidityOnlyReadsTimestamp(s1: Store, s2: Store, key: string, duration: int, now: int)
    requires (TimestampKey(key) in s1) == (TimestampKey(key) in s2)
    requires TimestampKey(key) in s1 ==> s1[TimestampKey(key)] == s2[TimestampKey(key)]
    ensures Validity(s1, key, duration, now) == Validity(s2, key, duration, now)
  {
  }

  lemma ValidityIgnoresPayload(store: Store, key: string, text: string, duration: int, now: int)
    ensures Validity(store[key := text], key, duration, now) == Validity(store, key, duration, now)
    ensures Validity(map k | k in store && k != key :: store[k], key, duration, now)
         == Validity(store, key, duration, now)
  {
    TimestampKeyIsOther(key);
    ValidityOnlyReadsTimestamp(store[key := text], store, key, duration, now);
    ValidityOnlyReadsTimestamp(map k | k in store && k != key :: store[k], store, key, duration, now);
  }

  /**
   * Round trip: a payload written at time `t` is read back while its age is
   * below the duration, and `null` is read from the moment the age reaches it.
   */
  lemma WriteThenRead(store: Store, key: string, data: Value, t: nat, duration: int, now: int)
    ensures CachedRead(Written(store, key, data, t, NoFault), key, duration, now, NoFault)
         == if now - t < duration then data else Null
  {
    var s := Written(store, key, data, t, NoFault);
    TimestampKeyIsOther(key);
    assert s[key] == Stringify(data) && s[TimestampKey(key)] == NatDigits(t);
    ParseIntOfNatDigits(t);
    assert StoredTimestamp(s, key) == Some(NatDigits(t));
    ParseOfStringify(data);
  }

  lemma SeriesRoundTrip(store: Store, series: Value, t: nat, now: int)
    ensures CachedRead(Written(store, SeriesKey, series, t, NoFault), SeriesKey, SeriesDuration, now, NoFault)
         == if now - t < 604800000 then series else Null
  {
    WriteThenRead(store, SeriesKey, series, t, SeriesDuration, now);
  }

  lemma CardsRoundTrip(store: Store, setId: string, cards: Value, t: nat, now: int)
    ensures CachedRead(Written(store, CardsKey(setId), cards, t, NoFault), CardsKey(setId), CardsDuration, now, NoFault)
         == if now - t < 86400000 then cards else Null
  {
    WriteThenRead(store, CardsKey(setId), cards, t, CardsDuration, now);
  }

  /** A write whose first storage call throws leaves nothing behind; one whose
      second call throws leaves a payload that reads as expired or absent. */
  lemma FailedWriteNotValid(store: Store, key: string, data: Value, t: nat, duration: int, now: int)
    requires !Validity(store, key, duration, now)
    ensures CachedRead(Written(store, key, data, t, FailOnCall(1)), key, duration, now, NoFault) == Null
    ensures Written(store, key, data, t, FailOnCall(0)) == store
  {
    ValidityIgnoresPayload(store, key, Stringify(data), duration, now);
  }

  lemma TimestampKeyInjective(x: string, y: string)
    ensures TimestampKey(x) == TimestampKey(y) <==> x == y
  {
    if TimestampKey(x) == TimestampKey(y) {
      assert x == TimestampKey(x)[..|x|];
      assert y == TimestampKey(y)[..|y|];
    }
  }

  lemma CardsKeyInjective(a: string, b: string)
    ensures CardsKey(a) == CardsKey(b) <==> a == b
  {
    if CardsKey(a) == CardsKey(b) {
      assert a == CardsKey(a)[|CardsPrefix|..] && b == CardsKey(b)[|CardsPrefix|..];
    }
  }

  /** The timestamp key of one expansion is the data key of another. */
  lemma CardsTimestampIsCardsKey(setId: string)
    ensures TimestampKey(CardsKey(setId)) == CardsKey(setId + "_timestamp")
  {
  }

  /**
   * Writing the cards of expansion `a` is invisible to the cards of a different
   * expansion `b`, unless one id is the other followed by `_timestamp` (then the
   * write lands on the other's timestamp key).
   */
  lemma CardsIsolation(store: Store, a: string, b: string, cards: Value, t: nat, fault: StorageFault,
                       now: int, readFault: StorageFault)
    requires a != b && a != b + "_timestamp" && b != a + "_timestamp"
    ensures CachedRead(Written(store, CardsKey(a), cards, t, fault), CardsKey(b), CardsDuration, now, readFault)
         == CachedRead(store, CardsKey(b), CardsDuration, now, readFault)
  {
    var kb, ka := CardsKey(b), CardsKey(a);
    TimestampKeyInjective(ka, kb);
    CardsKeyInjective(a, b);
    CardsKeyInjective(a, b + "_timestamp");
    CardsKeyInjective(a + "_timestamp", b);
    var s := Written(store, ka, cards, t, fault);
    assert kb in s <==> kb in store;
    assert kb in s ==> s[kb] == store[kb];
    ValidityOnlyReadsTimestamp(s, store, kb, CardsDuration, now);
  }

  lemma FixedKeysValue()
    ensures FixedKeys(|Categories|) == [
      SeriesKey, TimestampKey(SeriesKey), SetsKey, TimestampKey(SetsKey),
      CardsKeyBase, TimestampKey(CardsKeyBase), LastUpdateKey, TimestampKey(LastUpdateKey),
      ExchangeRateKey, TimestampKey(ExchangeRateKey)]
  {
    assert FixedKeys(2) == [SeriesKey, TimestampKey(SeriesKey), SetsKey, TimestampKey(SetsKey)];
    assert FixedKeys(4) == FixedKeys(2) + [CardsKeyBase, TimestampKey(CardsKeyBase), LastUpdateKey, TimestampKey(LastUpdateKey)];
  }

  /** After `clearAllCache` every category and every expansion reads as `null`. */
  lemma ClearedReadsNull(store: Store, c: Category, setId: string, duration: int, now: int, fault: StorageFault)
    ensures CachedRead(Cleared(store), CategoryKey(c), duration, now, fault) == Null
    ensures CachedRead(Cleared(store), CardsKey(setId), duration, now, fault) == Null
  {
    FixedKeysValue();
    assert TimestampKey(CategoryKey(c)) in FixedKeys(|Categories|);
    assert StartsWith(TimestampKey(CardsKey(setId)), CardsPrefix);
  }

  /** `clearAllCache` keeps every key that is not one of its ten fixed keys and
      does not start with `cached_cards_`, with its value. */
  lemma ClearedKeepsOthers(store: Store, k: string)
    requires k in store && !StartsWith(k, CardsPrefix)
    requires forall c: Category :: k != CategoryKey(c) && k != TimestampKey(CategoryKey(c))
    ensures k in Cleared(store) && Cleared(store)[k] == store[k]
  {
    FixedKeysValue();
    assert k !in FixedKeys(|Categories|) by {
      var ks := FixedKeys(|Categories|);
      forall i | 0 <= i < |ks| ensures ks[i] != k {
        var c := Categories[i / 2];
        assert ks[i] == CategoryKey(c) || ks[i] == TimestampKey(CategoryKey(c));
      }
    }
  }

  /** The saved series selection survives `clearAllCache`. */
  lemma ClearKeepsSelection(store: Store, language: string)
    requires "selectedSeries_" + language in store
    ensures var k := "selectedSeries_" + language;
      k in Cleared(store) && Cleared(store)[k] == store[k]
  {
    var k := "selectedSeries_" + language;
    assert k[0] == 's';
    forall c: Category ensures k != CategoryKey(c) && k != TimestampKey(CategoryKey(c)) {
      assert CategoryKey(c)[0] != 's' && TimestampKey(CategoryKey(c))[0] != 's';
    }
    ClearedKeepsOthers(store, k);
  }

  lemma CategoryNameInjective(c: Category, d: Category)
    ensures CategoryName(c) == CategoryName(d) <==> c == d
  {
  }

  function NamesOf(n: nat): set<string>
    requires n <= |Categories|
  {
    if n == 0 then {} else NamesOf(n - 1) + {CategoryName(Categories[n - 1])}
  }

  lemma {:induction false} InfoOfEntries(store: Store, n: nat, now: int)
    requires n <= |Categories|
    ensures InfoOf(store, n, now).Keys == NamesOf(n)
    ensures forall i :: 0 <= i < n ==>
              CategoryName(Categories[i]) in InfoOf(store, n, now)
              && InfoOf(store, n, now)[CategoryName(Categories[i])] == Entry(store, Categories[i], now)
  {
    if n > 0 {
      InfoOfEntries(store, n - 1, now);
      forall i | 0 <= i < n - 1 ensures CategoryName(Categories[i]) != CategoryName(Categories[n - 1]) {
        CategoryNameInjective(Categories[i], Categories[n - 1]);
      }
    }
  }

  /** The snapshot has exactly the five category names, each with its entry. */
  lemma InfoOfCategories(store: Store, now: int)
    ensures InfoOf(store, |Categories|, now).Keys == {"series", "sets", "cards", "lastUpdate", "exchangeRate"}
    ensures forall c: Category :: InfoOf(store, |Categories|, now)[CategoryName(c)] == Entry(store, c, now)
  {
    InfoOfEntries(store, |Categories|, now);
    assert NamesOf(1) == {"series"};
    assert NamesOf(3) == {"series", "sets", "cards"};
    assert NamesOf(5) == {"series", "sets", "cards", "lastUpdate", "exchangeRate"};
    forall c: Category ensures InfoOf(store, |Categories|, now)[CategoryName(c)] == Entry(store, c, now) {
      var i := match c
        case SeriesEntry => 0 case SetsEntry => 1 case CardsEntry => 2
        case LastUpdateEntry => 3 case ExchangeRateEntry => 4;
      assert Categories[i] == c;
    }
  }

  /** Where the category has a duration, the snapshot's `isValid` is the getters' validity. */
  lemma EntryAgreesWithValidity(store: Store, c: Category, now: int)
    requires Duration(c).Some?
    ensures Entry(store, c, now).Present? && Entry(store, c, now).isValid
        <==> Validity(store, CategoryKey(c), Duration(c).value, now)
  {
  }

  /** `lastUpdate` has no duration, so it is reported valid whenever it exists. */
  lemma LastUpdateValidOnceStored(store: Store, now: int)
    ensures Entry(store, LastUpdateEntry, now).Present? <==> StoredTimestamp(store, LastUpdateKey).Some?
    ensures Entry(store, LastUpdateEntry, now).Present? ==> Entry(store, LastUpdateEntry, now).isValid
  {
  }

  /** Right after a write at `t` the snapshot reports the age in whole hours. */
  lemma EntryAfterWrite(store: Store, c: Category, data: Value, t: nat, now: int)
    requires Duration(c).Some?
    ensures Entry(Written(store, CategoryKey(c), data, t, NoFault), c, now)
         == Present(Some((now - t) / 3600000), now - t < Duration(c).value)
  {
    TimestampKeyIsOther(CategoryKey(c));
    ParseIntOfNatDigits(t);
  }

  /**
   * The `cards` row of the snapshot reads `cached_cards_timestamp`. No
   * `setCachedCards` call writes a timestamp there; the only write that reaches
   * it is the payload of the expansion id `timestamp`, which `parseInt` turns
   * into `NaN`.
   */
  lemma CardsInfoKey(setId: string, store: Store, data: Value, t: nat, now: int)
    ensures TimestampKey(CategoryKey(CardsEntry)) == CardsKey("timestamp")
    ensures TimestampKey(CardsKey(setId)) != TimestampKey(CategoryKey(CardsEntry))
    ensures Entry(Written(store, CardsKey("timestamp"), data, t, NoFault), CardsEntry, now) == Present(None, false)
  {
    assert |TimestampKey(CardsKey(setId))| == 23 + |setId|;
    var s := Written(store, CardsKey("timestamp"), data, t, NoFault);
    assert TimestampKey(CardsKey("timestamp")) != CardsKey("timestamp");
    assert s[CardsKey("timestamp")] == Stringify(data);
    assert !IsDigit(Stringify(data)[0]);
  }
}
