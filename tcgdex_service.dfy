/**
 * The data service of the ProjetoPokemon application: series, expansions and
 * cards from the TCGdex SDK with an HTTP fallback, cached through
 * `CacheService`, filtered by the selections saved per language.
 *
 * Every `getX` that caches follows one pattern, `ReadThrough`: a non-falsy
 * cached value is used as it is; otherwise the list is fetched, written to the
 * cache and used.
 */
module TcgdexApi {
  import opened Common
  import opened Text
  import opened Lists
  import opened Json
  import opened Entities
  import opened CacheLayer
  import opened Remote
  import opened Catalog
  import opened Settings

  // ---------------------------------------------------------------------------
  // Remote fetches (SDK first, HTTP when the SDK method is missing or throws)

  /** `getAllSeries`, and the fetch step of `getSeries`. */
  function FetchSeries(sdk: Option<Sdk>, http: Http, baseUrl: string): (r: Outcome<seq<Series>>)
    ensures forall xs :: sdk.Some? && sdk.value.seriesList == Some(Ok(xs)) ==> r == Ok(xs)
    ensures sdk.None? || sdk.value.seriesList.None? || sdk.value.seriesList.value.Fail? ==> r == http.series(baseUrl + "/series")
  {
    if sdk.Some? && sdk.value.seriesList.Some? && sdk.value.seriesList.value.Ok? then sdk.value.seriesList.value
    else http.series(baseUrl + "/series")
  }

  /** `getAllSets`, and the fetch step of `getSets`. */
  function FetchSets(sdk: Option<Sdk>, http: Http, baseUrl: string): (r: Outcome<seq<SetInfo>>)
    ensures forall xs :: sdk.Some? && sdk.value.setList == Some(Ok(xs)) ==> r == Ok(xs)
    ensures sdk.None? || sdk.value.setList.None? || sdk.value.setList.value.Fail? ==> r == http.sets(baseUrl + "/sets")
  {
    if sdk.Some? && sdk.value.setList.Some? && sdk.value.setList.value.Ok? then sdk.value.setList.value
    else http.sets(baseUrl + "/sets")
  }

  /** The detail fetch of the HTTP fallback: `fetch(`${baseUrl}/cards/${id}`)`. */
  function CardAt(http: Http, baseUrl: string): string -> Outcome<Card> {
    id => http.card(baseUrl + "/cards/" + id)
  }

  /**
   * The fetch step of `getCardsBySet`: no SDK throws; `set.get` with an array
   * of cards gives those; otherwise `card.list` filtered by id prefix with each
   * card's details; any SDK error switches to the same steps over HTTP.
   */
  function FetchCards(sdk: Option<Sdk>, http: Http, baseUrl: string, setId: string): (r: Outcome<seq<Card>>)
    ensures sdk.None? ==> r.Fail?
    ensures sdk.Some? && sdk.value.setGet(setId).Ok? && sdk.value.setGet(setId).value.cards.Some?
        ==> r == Ok(sdk.value.setGet(setId).value.cards.value)
  {
    if sdk.None? then Fail
    else
      var detail := sdk.value.setGet(setId);
      if detail.Ok? && detail.value.cards.Some? then Ok(detail.value.cards.value)
      else if detail.Ok? && sdk.value.cardList.Ok? then
        Ok(WithDetails(CardsOfSet(sdk.value.cardList.value, setId), sdk.value.cardGet))
      else
        match http.cards(baseUrl + "/cards")
        case Fail => Fail
        case Ok(all) => Ok(WithDetails(CardsOfSet(all, setId), CardAt(http, baseUrl)))
  }

  /** Without an array in `set.get`, every card listed belongs to the expansion. */
  lemma FetchedCardsBelong(sdk: Option<Sdk>, http: Http, baseUrl: string, setId: string)
    requires sdk.Some? && !(sdk.value.setGet(setId).Ok? && sdk.value.setGet(setId).value.cards.Some?)
    requires forall id :: sdk.value.cardGet(id).Ok? ==> sdk.value.cardGet(id).value.id == Some(id)
    requires forall id :: http.card(baseUrl + "/cards/" + id).Ok? ==> http.card(baseUrl + "/cards/" + id).value.id == Some(id)
    ensures var r := FetchCards(sdk, http, baseUrl, setId);
      r.Ok? ==> forall i :: 0 <= i < |r.value| ==> StartsWith(CardIdText(r.value[i]), setId + "-")
  {
    var r := FetchCards(sdk, http, baseUrl, setId);
    if r.Ok? {
      var detail := sdk.value.setGet(setId);
      var basic, get;
      if detail.Ok? && sdk.value.cardList.Ok? {
        basic, get := CardsOfSet(sdk.value.cardList.value, setId), sdk.value.cardGet;
      } else {
        basic, get := CardsOfSet(http.cards(baseUrl + "/cards").value, setId), CardAt(http, baseUrl);
      }
      assert r.value == WithDetails(basic, get);
      assert forall id :: get(id).Ok? ==> get(id).value.id == Some(id);
      DetailsKeepIds(basic, get);
    }
  }

  /** Details whose ids are the requested ones keep the ids of the basic cards. */
  lemma DetailsKeepIds(basic: seq<Card>, get: string -> Outcome<Card>)
    requires forall i :: 0 <= i < |basic| ==> basic[i].id.Some?
    requires forall id :: get(id).Ok? ==> get(id).value.id == Some(id)
    ensures forall i :: 0 <= i < |basic| ==> WithDetails(basic, get)[i].id == basic[i].id
  {
    var r := WithDetails(basic, get);
    forall i | 0 <= i < |basic| ensures r[i].id == basic[i].id {
      if get(CardIdText(basic[i])).Ok? {
        assert r[i] == get(CardIdText(basic[i])).value;
      }
    }
  }

  // ---------------------------------------------------------------------------
  // The cache-through pattern

  /** A list as a `getX` obtained it, and the store afterwards. */
  datatype Loaded<T> = Loaded(list: Outcome<seq<T>>, store: Store)

  /**
   * Reads `key` through `getCachedX`; a falsy value (`!cached`) makes it fetch
   * and `setCachedX` the fetched list. A cached value that does not decode to
   * a list of the expected records is a `Fail`: for series and sets that is
   * the throwing `.filter`.
   */
  function ReadThrough<T>(store: Store, key: string, duration: nat, now: nat,
                          readFault: StorageFault, writeFault: StorageFault,
                          fetched: Outcome<seq<T>>,
                          enc: seq<T> -> Value, dec: Value -> Option<seq<T>>): (r: Loaded<T>)
    ensures r.list.Fail? ==> r.store == store
    ensures r.store != store ==> r.list == fetched && r.store == Written(store, key, enc(fetched.value), now, writeFault)
  {
    var cached := CachedRead(store, key, duration, now, readFault);
    if !Falsy(cached) then
      Loaded(if dec(cached).Some? then Ok(dec(cached).value) else Fail, store)
    else if fetched.Fail? then Loaded(Fail, store)
    else Loaded(Ok(fetched.value), Written(store, key, enc(fetched.value), now, writeFault))
  }

  /**
   * A list fetched on a miss is what the next call returns while the entry is
   * fresh, without fetching and without another write, whatever the remote
   * source returns then.
   */
  lemma ServedFromCacheAfterFetch<T>(store: Store, key: string, duration: nat, t: nat, now: nat,
                                     readFault: StorageFault, writeFault2: StorageFault,
                                     fetched: Outcome<seq<T>>, fetched2: Outcome<seq<T>>,
                                     enc: seq<T> -> Value, dec: Value -> Option<seq<T>>)
    requires Falsy(CachedRead(store, key, duration, t, readFault))
    requires fetched.Ok? && dec(enc(fetched.value)) == Some(fetched.value) && !Falsy(enc(fetched.value))
    requires now - t < duration
    ensures var first := ReadThrough(store, key, duration, t, readFault, NoFault, fetched, enc, dec);
      first.list == fetched
      && ReadThrough(first.store, key, duration, now, NoFault, writeFault2, fetched2, enc, dec)
         == Loaded(fetched, first.store)
  {
    WriteThenRead(store, key, enc(fetched.value), t, duration, now);
  }

  /** A hit reads neither the remote source nor changes the store. */
  lemma HitIgnoresRemote<T>(store: Store, key: string, duration: nat, now: nat,
                            readFault: StorageFault, wf1: StorageFault, wf2: StorageFault,
                            f1: Outcome<seq<T>>, f2: Outcome<seq<T>>,
                            enc: seq<T> -> Value, dec: Value -> Option<seq<T>>)
    requires !Falsy(CachedRead(store, key, duration, now, readFault))
    ensures ReadThrough(store, key, duration, now, readFault, wf1, f1, enc, dec)
         == ReadThrough(store, key, duration, now, readFault, wf2, f2, enc, dec)
    ensures ReadThrough(store, key, duration, now, readFault, wf1, f1, enc, dec).store == store
  {
  }

  function SeriesLoad(store: Store, sdk: Option<Sdk>, baseUrl: string, http: Http, now: nat,
                      readFault: StorageFault, writeFault: StorageFault): Loaded<Series> {
    ReadThrough(store, SeriesKey, SeriesDuration, now, readFault, writeFault,
                FetchSeries(sdk, http, baseUrl), SeriesListToJson, SeriesListFromJson)
  }

  function SetsLoad(store: Store, sdk: Option<Sdk>, baseUrl: string, http: Http, now: nat,
                    readFault: StorageFault, writeFault: StorageFault): Loaded<SetInfo> {
    ReadThrough(store, SetsKey, SetsDuration, now, readFault, writeFault,
                FetchSets(sdk, http, baseUrl), SetListToJson, SetListFromJson)
  }

  function CardsLoad(store: Store, sdk: Option<Sdk>, baseUrl: string, http: Http, setId: string, now: nat,
                     readFault: StorageFault, writeFault: StorageFault): Loaded<Card> {
    ReadThrough(store, CardsKey(setId), CardsDuration, now, readFault, writeFault,
                FetchCards(sdk, http, baseUrl, setId), CardListToJson, CardListFromJson)
  }

  /**
   * The series ids `getSeries` filters by: the saved list, `['sv']` when none
   * is saved. `readThrows` is a failing `AsyncStorage.getItem`, which makes
   * `getSeries` throw.
   */
  function SelectedSeriesIds(store: Store, language: string, readThrows: bool): (r: Outcome<seq<string>>)
    ensures readThrows ==> r.Fail?
    ensures !readThrows && SavedIds(store, SelectedSeriesKey(language)).None? ==> r == Ok(DefaultSeries)
    ensures !readThrows && SavedIds(store, SelectedSeriesKey(language)).Some? ==> r == SavedIds(store, SelectedSeriesKey(language)).value
  {
    if readThrows then Fail
    else match SavedIds(store, SelectedSeriesKey(language))
    case None => Ok(DefaultSeries)
    case Some(ids) => ids
  }

  /**
   * The result of `getSeries` from the loaded list and the store after
   * loading: the loaded series whose id is selected, in their loaded order,
   * each with as many copies as the loaded list has.
   */
  function SeriesResult(loaded: Loaded<Series>, language: string, readThrows: bool): (r: Outcome<seq<Series>>)
    ensures r.Ok? <==> loaded.list.Ok? && SelectedSeriesIds(loaded.store, language, readThrows).Ok?
    ensures r.Ok? ==> IsSubseq(r.value, loaded.list.value)
    ensures r.Ok? ==> var ids := SelectedSeriesIds(loaded.store, language, readThrows).value;
      forall s :: multiset(r.value)[s] == if s.id in ids then multiset(loaded.list.value)[s] else 0
  {
    if loaded.list.Fail? then Fail
    else match SelectedSeriesIds(loaded.store, language, readThrows)
      case Fail => Fail
      case Ok(ids) => Ok(SelectSeries(loaded.list.value, ids))
  }

  /** The result of `getSets` from the loaded list. */
  function SetsResult(loaded: Loaded<SetInfo>): (r: Outcome<seq<SetInfo>>)
    ensures r.Ok? <==> loaded.list.Ok?
    ensures r.Ok? ==> r.value == ArrangeSets(loaded.list.value)
  {
    if loaded.list.Fail? then Fail else Ok(ArrangeSets(loaded.list.value))
  }

  // ---------------------------------------------------------------------------
  // The service object

  class TCGdexService {
    var language: string
    var baseUrl: string
    var tcgdex: Option<Sdk>
    /** The `CacheService` singleton, whose store is `AsyncStorage`. */
    const cache: CacheService

    /** The base URL and the SDK are those of the current language. */
    predicate Consistent()
      reads this
    {
      baseUrl == BaseUrl(language) && (tcgdex.Some? ==> tcgdex.value.lang == language)
    }

    /** `new TCGdexService(language)`; `sdk` is what `new TCGdex(language)` gave (`None`: it threw). */
    constructor (language: string, sdk: Option<Sdk>, cache: CacheService)
      requires sdk.Some? ==> sdk.value.lang == language
      ensures this.language == language && baseUrl == BaseUrl(language)
      ensures tcgdex == sdk && this.cache == cache
      ensures Consistent()
    {
      this.language := language;
      this.baseUrl := BaseUrl(language);
      this.tcgdex := sdk;
      this.cache := cache;
    }

    /**
     * `setLanguage` as written: language and base URL change first; on a real
     * change it then calls `CacheService.clearLanguageCache`, which
     * `CacheService` does not define, so the call throws before the SDK is
     * re-created. The cache is not touched.
     */
    method SetLanguage(lang: string, sdk: Option<Sdk>) returns (r: Outcome<()>)
      requires sdk.Some? ==> sdk.value.lang == lang
      modifies this
      ensures language == lang && baseUrl == BaseUrl(lang)
      ensures old(language) != "" && old(language) != lang ==> r == Fail && tcgdex == old(tcgdex)
      ensures !(old(language) != "" && old(language) != lang) ==> r == Ok(()) && tcgdex == sdk
      ensures old(Consistent()) && old(tcgdex).Some? && old(language) != "" && old(language) != lang ==> !Consistent()
    {
      var previous := language;
      language := lang;
      baseUrl := BaseUrl(lang);
      if previous != "" && previous != lang {
        return Fail;
      }
      tcgdex := sdk;
      return Ok(());
    }

    /**
     * `setLanguage` as evidently intended: on a real change the language cache
     * clear runs to completion and the SDK is re-created for the new language.
     * `CacheService` shows no `clearLanguageCache`, so the clearing step is the
     * parameter `clearLanguageCache`, a transformation of the store.
     */
    method SetLanguageIntended(lang: string, sdk: Option<Sdk>, clearLanguageCache: Store -> Store)
      requires sdk.Some? ==> sdk.value.lang == lang
      modifies this, cache
      ensures Consistent() && language == lang && tcgdex == sdk
      ensures old(language) != "" && old(language) != lang ==> cache.store == clearLanguageCache(old(cache.store))
      ensures !(old(language) != "" && old(language) != lang) ==> cache.store == old(cache.store)
    {
      var previous := language;
      language := lang;
      baseUrl := BaseUrl(lang);
      if previous != "" && previous != lang {
        cache.store := clearLanguageCache(cache.store);
      }
      tcgdex := sdk;
    }

    /**
     * `getSeries`: the cached or fetched series, filtered by the saved
     * selection; `selectionThrows` is a failing read of that selection.
     */
    method GetSeries(http: Http, now: nat, readFault: StorageFault, writeFault: StorageFault, selectionThrows: bool)
      returns (r: Outcome<seq<Series>>)
      modifies cache
      ensures var loaded := SeriesLoad(old(cache.store), tcgdex, baseUrl, http, now, readFault, writeFault);
        cache.store == loaded.store && r == SeriesResult(loaded, language, selectionThrows)
    {
      var cached := cache.GetCachedSeries(now, readFault);
      var all: seq<Series>;
      if Falsy(cached) {
        var fetched := FetchSeries(tcgdex, http, baseUrl);
        if fetched.Fail? {
          return Fail;
        }
        all := fetched.value;
        cache.SetCachedSeries(SeriesListToJson(all), now, writeFault);
      } else {
        var decoded := SeriesListFromJson(cached);
        if decoded.None? {
          return Fail;
        }
        all := decoded.value;
      }
      var ids := SelectedSeriesIds(cache.store, language, selectionThrows);
      if ids.Fail? {
        return Fail;
      }
      r := Ok(SelectSeries(all, ids.value));
    }

    /** `getSets`: the cached or fetched sets with cards, sorted in place newest first. */
    method GetSets(http: Http, now: nat, readFault: StorageFault, writeFault: StorageFault)
      returns (r: Outcome<seq<SetInfo>>)
      modifies cache
      ensures var loaded := SetsLoad(old(cache.store), tcgdex, baseUrl, http, now, readFault, writeFault);
        cache.store == loaded.store && r == SetsResult(loaded)
    {
      var cached := cache.GetCachedSets(now, readFault);
      var sets: seq<SetInfo>;
      if Falsy(cached) {
        var fetched := FetchSets(tcgdex, http, baseUrl);
        if fetched.Fail? {
          return Fail;
        }
        sets := fetched.value;
        cache.SetCachedSets(SetListToJson(sets), now, writeFault);
      } else {
        var decoded := SetListFromJson(cached);
        if decoded.None? {
          return Fail;
        }
        sets := decoded.value;
      }
      var arranged := ArrangeSetsInPlace(sets);
      r := Ok(arranged);
    }

    /** `getSetsBySeries`: the sets of `getSets` whose id starts with the series id. */
    method GetSetsBySeries(seriesId: string, http: Http, now: nat, readFault: StorageFault, writeFault: StorageFault)
      returns (r: Outcome<seq<SetInfo>>)
      modifies cache
      ensures var loaded := SetsLoad(old(cache.store), tcgdex, baseUrl, http, now, readFault, writeFault);
        cache.store == loaded.store
        && r == if loaded.list.Fail? then Fail else Ok(SetsOfSeries(ArrangeSets(loaded.list.value), seriesId))
    {
      var all := GetSets(http, now, readFault, writeFault);
      if all.Fail? {
        return Fail;
      }
      r := Ok(SetsOfSeries(all.value, seriesId));
    }

    /** `getCardsBySet`: the cached or fetched cards of one expansion. */
    method GetCardsBySet(setId: string, http: Http, now: nat, readFault: StorageFault, writeFault: StorageFault)
      returns (r: Outcome<seq<Card>>)
      modifies cache
      ensures var loaded := CardsLoad(old(cache.store), tcgdex, baseUrl, http, setId, now, readFault, writeFault);
        cache.store == loaded.store && r == loaded.list
    {
      var cached := cache.GetCachedCards(setId, now, readFault);
      if Falsy(cached) {
        var fetched := FetchCards(tcgdex, http, baseUrl, setId);
        if fetched.Fail? {
          return Fail;
        }
        cache.SetCachedCards(setId, CardListToJson(fetched.value), now, writeFault);
        r := fetched;
      } else {
        var decoded := CardListFromJson(cached);
        if decoded.None? {
          return Fail;
        }
        r := Ok(decoded.value);
      }
    }

    /** `getAllSeries`: no cache; the SDK's list when it works, else HTTP `/series`. */
    function GetAllSeries(http: Http): (r: Outcome<seq<Series>>)
      reads this
      ensures forall xs :: tcgdex.Some? && tcgdex.value.seriesList == Some(Ok(xs)) ==> r == Ok(xs)
      ensures tcgdex.None? || tcgdex.value.seriesList.None? || tcgdex.value.seriesList.value.Fail? ==>
        r == http.series(baseUrl + "/series")
    {
      FetchSeries(tcgdex, http, baseUrl)
    }

    /** `getAllSets`: no cache, no filter, no sort; the SDK's list when it works, else HTTP `/sets`. */
    function GetAllSets(http: Http): (r: Outcome<seq<SetInfo>>)
      reads this
      ensures forall xs :: tcgdex.Some? && tcgdex.value.setList == Some(Ok(xs)) ==> r == Ok(xs)
      ensures tcgdex.None? || tcgdex.value.setList.None? || tcgdex.value.setList.value.Fail? ==>
        r == http.sets(baseUrl + "/sets")
    {
      FetchSets(tcgdex, http, baseUrl)
    }

    /** `getAllCards`: `card.list()` of the SDK, which must exist. */
    function GetAllCards(): (r: Outcome<seq<Card>>)
      reads this
      ensures tcgdex.None? ==> r.Fail?
      ensures tcgdex.Some? ==> r == tcgdex.value.cardList
    {
      if tcgdex.None? then Fail else tcgdex.value.cardList
    }

    /** `getCard`: `this.tcgdex.card.get`; a null SDK throws. */
    function GetCard(cardId: string): (r: Outcome<Card>)
      reads this
      ensures tcgdex.None? ==> r.Fail?
      ensures tcgdex.Some? ==> r == tcgdex.value.cardGet(cardId)
    {
      if tcgdex.None? then Fail else tcgdex.value.cardGet(cardId)
    }

    /** `getSet`: `this.tcgdex.set.get`; a null SDK throws. */
    function GetSet(setId: string): (r: Outcome<SetDetail>)
      reads this
      ensures tcgdex.None? ==> r.Fail?
      ensures tcgdex.Some? ==> r == tcgdex.value.setGet(setId)
    {
      if tcgdex.None? then Fail else tcgdex.value.setGet(setId)
    }

    /**
     * `getFilteredSets`: all sets, or only the saved expansions when a list is
     * saved; `readThrows` is a failing read of that list.
     */
    function GetFilteredSets(http: Http, readThrows: bool): (r: Outcome<seq<SetInfo>>)
      reads this, cache
      ensures readThrows ==> r.Fail?
      ensures !readThrows && SavedIds(cache.store, SelectedExpansionsKey(language)).None? ==> r == GetAllSets(http)
      ensures !readThrows && SavedIds(cache.store, SelectedExpansionsKey(language)).Some? ==>
        var ids := SavedIds(cache.store, SelectedExpansionsKey(language)).value;
        (r.Ok? <==> ids.Ok? && GetAllSets(http).Ok?)
        && (r.Ok? ==>
          IsSubseq(r.value, GetAllSets(http).value)
          && forall s :: multiset(r.value)[s] == if s.id in ids.value then multiset(GetAllSets(http).value)[s] else 0)
    {
      if readThrows then Fail
      else match SavedIds(cache.store, SelectedExpansionsKey(language))
      case None => GetAllSets(http)
      case Some(Fail) => Fail
      case Some(Ok(ids)) =>
        var all :- GetAllSets(http);
        Ok(SelectSets(all, ids))
    }

    /**
     * `getFilteredCards`: all cards, or those of the saved expansions;
     * `readThrows` is a failing read of that list.
     */
    function GetFilteredCards(readThrows: bool): (r: Outcome<seq<Card>>)
      reads this, cache
      ensures tcgdex.None? || readThrows ==> r.Fail?
      ensures !readThrows && SavedIds(cache.store, SelectedExpansionsKey(language)).None? ==> r == GetAllCards()
      ensures !readThrows && SavedIds(cache.store, SelectedExpansionsKey(language)).Some? ==>
        var ids := SavedIds(cache.store, SelectedExpansionsKey(language)).value;
        (r.Ok? <==> ids.Ok? && GetAllCards().Ok?)
        && (r.Ok? ==>
          IsSubseq(r.value, GetAllCards().value)
          && forall c :: multiset(r.value)[c] ==
               if CardSetId(c).Some? && CardSetId(c).value in ids.value then multiset(GetAllCards().value)[c] else 0)
    {
      if readThrows then Fail
      else match SavedIds(cache.store, SelectedExpansionsKey(language))
      case None => GetAllCards()
      case Some(Fail) => Fail
      case Some(Ok(ids)) =>
        var all :- GetAllCards();
        Ok(SelectCards(all, ids))
    }

    /**
     * `getImageURL` / `getImageUrl` for a card record: an image with a quality
     * suffix is kept, any other image gets `/<quality>.webp`, and a card
     * without an image gets an asset URL of the current language.
     */
    function GetImageUrl(card: Card, quality: string): (r: string)
      reads this
      ensures card.image.Some? && HasQuality(card.image.value) ==> r == card.image.value
      ensures card.image.Some? && card.image.value != "" && !HasQuality(card.image.value) && EndsWith(card.image.value, "/") ==>
        r == card.image.value + quality + ".webp"
      ensures card.image.Some? && card.image.value != "" && !HasQuality(card.image.value) && !EndsWith(card.image.value, "/") ==>
        r == card.image.value + "/" + quality + ".webp"
      ensures card.image.None? || card.image.value == "" ==>
        r == AssetsHost + language + "/sv/" + FallbackSetId(card) + "/" + FallbackNumber(card) + "/" + quality + ".webp"
    {
      ImageUrl(card, quality, language)
    }

    /** `getCardImageUrl`, in the current language. */
    function GetCardImageUrl(cardId: string, setId: string, imageType: string): (r: string)
      reads this
      ensures r == CardImageUrl(language, cardId, setId, imageType)
    {
      CardImageUrl(language, cardId, setId, imageType)
    }

    /** `getCardImageUrlHigh`: the `high` image. */
    function GetCardImageUrlHigh(cardId: string, setId: string): (r: string)
      reads this
      ensures r == CardImageUrl(language, cardId, setId, "high")
    {
      GetCardImageUrl(cardId, setId, "high")
    }

    /** `getCardImageUrlLow`: the `low` image. */
    function GetCardImageUrlLow(cardId: string, setId: string): (r: string)
      reads this
      ensures r == CardImageUrl(language, cardId, setId, "low")
    {
      GetCardImageUrl(cardId, setId, "low")
    }
  }

  // ---------------------------------------------------------------------------
  // Properties of the service

  /**
   * With nothing saved (no entry or `""`), `getSeries` keeps exactly the
   * series whose id is `sv`, all of their copies, in order.
   */
  lemma DefaultSelectionIsSv(loaded: Loaded<Series>, language: string)
    requires loaded.list.Ok?
    requires SavedIds(loaded.store, SelectedSeriesKey(language)).None?
    ensures var r := SeriesResult(loaded, language, false);
      r.Ok? && IsSubseq(r.value, loaded.list.value)
      && forall s :: multiset(r.value)[s] == if s.id == "sv" then multiset(loaded.list.value)[s] else 0
  {
    assert forall id :: id in DefaultSeries <==> id == "sv";
  }

  /** The series list fetched on a miss is served from the cache for the next seven days. */
  lemma SeriesCachedForAWeek(store: Store, sdk: Option<Sdk>, baseUrl: string, http: Http, t: nat, now: nat,
                             readFault: StorageFault, sdk2: Option<Sdk>, http2: Http, writeFault2: StorageFault)
    requires Falsy(CachedRead(store, SeriesKey, SeriesDuration, t, readFault))
    requires FetchSeries(sdk, http, baseUrl).Ok?
    requires now - t < 7 * 24 * 60 * 60 * 1000
    ensures var first := SeriesLoad(store, sdk, baseUrl, http, t, readFault, NoFault);
      SeriesLoad(first.store, sdk2, baseUrl, http2, now, NoFault, writeFault2) == first
  {
    var xs := FetchSeries(sdk, http, baseUrl).value;
    SeriesListRoundTrip(xs);
    ServedFromCacheAfterFetch(store, SeriesKey, SeriesDuration, t, now, readFault, writeFault2,
                              FetchSeries(sdk, http, baseUrl), FetchSeries(sdk2, http2, baseUrl),
                              SeriesListToJson, SeriesListFromJson);
  }

  /** The same for the sets list, which `getSets` then filters and sorts again. */
  lemma SetsCachedForAWeek(store: Store, sdk: Option<Sdk>, baseUrl: string, http: Http, t: nat, now: nat,
                           readFault: StorageFault, sdk2: Option<Sdk>, http2: Http, writeFault2: StorageFault)
    requires Falsy(CachedRead(store, SetsKey, SetsDuration, t, readFault))
    requires FetchSets(sdk, http, baseUrl).Ok?
    requires now - t < 7 * 24 * 60 * 60 * 1000
    ensures var first := SetsLoad(store, sdk, baseUrl, http, t, readFault, NoFault);
      SetsLoad(first.store, sdk2, baseUrl, http2, now, NoFault, writeFault2) == first
      && SetsResult(first) == Ok(ArrangeSets(FetchSets(sdk, http, baseUrl).value))
  {
    var xs := FetchSets(sdk, http, baseUrl).value;
    SetListRoundTrip(xs);
    ServedFromCacheAfterFetch(store, SetsKey, SetsDuration, t, now, readFault, writeFault2,
                              FetchSets(sdk, http, baseUrl), FetchSets(sdk2, http2, baseUrl),
                              SetListToJson, SetListFromJson);
  }

  /** The cards of an expansion are served from the cache for one day, even without an SDK. */
  lemma CardsCachedForADay(store: Store, sdk: Option<Sdk>, baseUrl: string, http: Http, setId: string,
                           t: nat, now: nat, readFault: StorageFault, http2: Http, writeFault2: StorageFault)
    requires Falsy(CachedRead(store, CardsKey(setId), CardsDuration, t, readFault))
    requires FetchCards(sdk, http, baseUrl, setId).Ok?
    requires now - t < 24 * 60 * 60 * 1000
    ensures var first := CardsLoad(store, sdk, baseUrl, http, setId, t, readFault, NoFault);
      CardsLoad(first.store, None, baseUrl, http2, setId, now, NoFault, writeFault2) == first
  {
    var xs := FetchCards(sdk, http, baseUrl, setId).value;
    CardListRoundTrip(xs);
    ServedFromCacheAfterFetch(store, CardsKey(setId), CardsDuration, t, now, readFault, writeFault2,
                              FetchCards(sdk, http, baseUrl, setId), FetchCards(None, http2, baseUrl, setId),
                              CardListToJson, CardListFromJson);
  }

  /** Without an SDK and without a cached list, `getCardsBySet` throws and writes nothing. */
  lemma NoSdkNoCards(store: Store, baseUrl: string, http: Http, setId: string, now: nat,
                     readFault: StorageFault, writeFault: StorageFault)
    requires Falsy(CachedRead(store, CardsKey(setId), CardsDuration, now, readFault))
    ensures CardsLoad(store, None, baseUrl, http, setId, now, readFault, writeFault) == Loaded(Fail, store)
  {
  }

  /**
   * After the intended language switch, with any clearing step that removes
   * `cached_series`, `getSeries` goes to the remote source again and caches
   * what it fetched.
   */
  lemma SwitchRefetches(store: Store, clearLanguageCache: Store -> Store, sdk: Option<Sdk>, baseUrl: string,
                        http: Http, now: nat, readFault: StorageFault)
    requires SeriesKey !in clearLanguageCache(store)
    requires FetchSeries(sdk, http, baseUrl).Ok?
    ensures var cleared := clearLanguageCache(store);
      var loaded := SeriesLoad(cleared, sdk, baseUrl, http, now, readFault, NoFault);
      loaded.list == FetchSeries(sdk, http, baseUrl)
      && loaded.store == Written(cleared, SeriesKey, SeriesListToJson(FetchSeries(sdk, http, baseUrl).value), now, NoFault)
  {
  }

  /** `clearAllCache` is one such clearing step. */
  lemma ClearAllCacheRemovesSeries(store: Store)
    ensures SeriesKey !in Cleared(store)
  {
    FixedKeysValue();
  }
}
