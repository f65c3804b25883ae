# PokemonTCGExpo data layer, modelled in Dafny

This project models the data layer of the two Pokémon TCG catalogue
applications in the repository. The current one is under `ProjetoPokemon/`;
the earlier one sits at the repository root. Both show series, then their
expansions ("sets"), then the cards of one expansion, all drawn from the
TCGdex API.

What the model covers:

- **`CacheService`** (`cache_service.dfy`, module `CacheLayer`). The local
  cache over `AsyncStorage`: a JSON payload under a key, its write time under
  `key + "_timestamp"`, and validity by age against fixed durations (seven
  days for series and sets, one day for cards and the exchange rate). It also
  covers the cache-wide clear and the status snapshot. `AsyncStorage` is the
  `store` field of a class; `Date.now()` is a parameter. A storage call that
  throws is a `StorageFault` that names which call of the operation fails.
  The services and screens read the saved selections with a bare
  `AsyncStorage.getItem` outside any `try`; there a throwing read is a
  boolean parameter, and the operation fails.
- **The data service of `ProjetoPokemon`** (`tcgdex_service.dfy`, module
  `TcgdexApi`). The TCGdex SDK is tried first, with a plain HTTP fallback
  (`remote.dfy` describes both as pure functions). Lists are read through the
  cache. Series are filtered by the selection saved per language, and
  expansions are kept only when they have cards, sorted newest first. The
  module also covers the language switch and the selection-filtered lists.
- **The earlier data service** (`tcgdex_basic.dfy`, module `TcgdexBasic`). It
  uses fixed Portuguese HTTP endpoints and returns at most 50 detailed cards
  per expansion.
- **The shared list and URL rules** (`catalog.dfy`). Which sets are listed and
  in what order, which cards belong to an expansion, id selections, and card
  image URLs.
- **The screens' logic**:
  - `series_screen.dfy`: the series sort comparator and the logo rules.
  - `sets_screen.dfy`: the expansion list, with or without a saved selection.
  - `cards_screen.dfy`: cards sorted by number, the first 50 shown, and the
    name search.
  - `set_item.dfy`: the expansion tile's logo URL.
  - `language_config.dfy`: the language and collection screen, whose React
    state is a class with a field per hook.
  - `settings_screen.dfy`: the earlier settings screen.
  - `selection.dfy`: the toggle rule both settings screens share.
  - `settings.dfy`: the saved selection keys.

Supporting modules:

- `json.dfy` stands in for `JSON.stringify` / `JSON.parse` with its own codec
  over JSON-shaped values. It is an exact round trip, and it reports a
  corrupt text as `None`.
- `entities.dfy` holds the records and their cached layout.
- `text.dfy` holds string helpers, including `parseInt` on a leading run of
  digits.
- `lists.dfy` holds an order-preserving filter, and a stable sort by key with
  an in-place insertion sort proved against it. JavaScript's `Array.prototype.sort`
  has been stable since ES2019.
- `common.dfy` holds `Option` and `Outcome`. An `Outcome` `Fail` is a call
  that throws.

## Model

| member | source | states |
|---|---|---|
| CacheLayer.CacheService.constructor | ProjetoPokemon/services/CacheService.js:4-20 | The service starts over the given storage contents. |
| CacheLayer.Durations | ProjetoPokemon/services/CacheService.js:14-19 | Series and sets are cached for 604800000 ms (7 days), cards and the exchange rate for 86400000 ms (1 day); an hour is 3600000 ms. |
| CacheLayer.CacheService.IsCacheValid | ProjetoPokemon/services/CacheService.js:23-34 | Valid exactly when the timestamp read does not throw, a non-empty timestamp exists, it parses as an integer, and the age is strictly below the duration. |
| CacheLayer.ValidityIgnoresPayload | ProjetoPokemon/services/CacheService.js:23-34 | Validity depends only on `key_timestamp`: overwriting or removing the payload under `key` leaves it unchanged. |
| CacheLayer.CacheService.SetCache | ProjetoPokemon/services/CacheService.js:37-46 | The payload is written first, then the decimal write time; a throw on the first call leaves the store untouched, a throw on the second leaves only the payload. |
| CacheLayer.CacheService.GetCache | ProjetoPokemon/services/CacheService.js:49-61 | A throwing read, a missing key, an empty text or a text that does not parse gives `null`; a stored text that parses gives exactly its parsed value. |
| CacheLayer.CacheService.GetCachedSeries | ProjetoPokemon/services/CacheService.js:64-70 | `null` unless `cached_series` is valid for 7 days; when valid and the payload read does not throw, exactly what `getCache` gives; a throwing timestamp or payload read gives `null`. |
| CacheLayer.CacheService.GetCachedSets | ProjetoPokemon/services/CacheService.js:77-83 | The same for `cached_sets`, valid for 7 days; a throwing timestamp or payload read gives `null`. |
| CacheLayer.CacheService.GetCachedCards | ProjetoPokemon/services/CacheService.js:90-97 | The same for `cached_cards_<setId>`, valid for 1 day; a throwing timestamp or payload read gives `null`. |
| CacheLayer.CacheService.GetCachedExchangeRate | ProjetoPokemon/services/CacheService.js:105-111 | The same for `cached_exchange_rate`, valid for 1 day; a throwing timestamp or payload read gives `null`. |
| CacheLayer.WriteThenRead | ProjetoPokemon/services/CacheService.js:37-61 | Round trip: data written at time t reads back unchanged while now - t is below the duration, and as `null` from then on. |
| CacheLayer.FailedWriteNotValid | ProjetoPokemon/services/CacheService.js:37-46 | A write interrupted before its timestamp never makes an expired or missing entry readable; one interrupted at the first call changes nothing. |
| CacheLayer.SeriesRoundTrip | ProjetoPokemon/services/CacheService.js:64-74 | `setCachedSeries` followed by `getCachedSeries` returns the series for exactly 7 days. |
| CacheLayer.CacheService.SetCachedSeries | ProjetoPokemon/services/CacheService.js:72-74 | Writes the series under `cached_series` by the `setCache` rule. |
| CacheLayer.CacheService.SetCachedSets | ProjetoPokemon/services/CacheService.js:85-87 | Writes the sets under `cached_sets` by the `setCache` rule. |
| CacheLayer.CardsRoundTrip | ProjetoPokemon/services/CacheService.js:90-102 | `setCachedCards` followed by `getCachedCards` for the same expansion returns the cards for exactly 1 day. |
| CacheLayer.CacheService.SetCachedCards | ProjetoPokemon/services/CacheService.js:99-102 | Writes the cards under `cached_cards_<setId>` by the `setCache` rule. |
| CacheLayer.CardsKeyInjective | ProjetoPokemon/services/CacheService.js:90-102 | Different expansion ids have different card keys. |
| CacheLayer.CardsIsolation | ProjetoPokemon/services/CacheService.js:90-102 | Writing one expansion's cards never changes what another expansion's cards read as, unless one id is the other followed by `_timestamp`. |
| CacheLayer.CacheService.SetCachedExchangeRate | ProjetoPokemon/services/CacheService.js:113-115 | Writes the rate under `cached_exchange_rate` by the `setCache` rule. |
| CacheLayer.CacheService.ClearAllCache | ProjetoPokemon/services/CacheService.js:118-139 | Removes the five fixed keys, their timestamp keys and every `cached_cards_` key, and nothing else; a throw from `getAllKeys` or `multiRemove` changes nothing. |
| CacheLayer.ClearedReadsNull | ProjetoPokemon/services/CacheService.js:118-139 | After the clear, every category and every expansion's cards read as `null`. |
| CacheLayer.ClearedKeepsOthers | ProjetoPokemon/services/CacheService.js:118-139 | A key that is neither fixed nor a `cached_cards_` key survives the clear with its value. |
| CacheLayer.ClearKeepsSelection | ProjetoPokemon/services/CacheService.js:118-139 | The saved `selectedSeries_<lang>` survives the clear. |
| CacheLayer.CacheService.GetCacheInfo | ProjetoPokemon/services/CacheService.js:142-166 | The snapshot has one entry per category visited in order; a throw on any timestamp read gives `{}`. |
| CacheLayer.InfoOfCategories | ProjetoPokemon/services/CacheService.js:142-166 | A complete snapshot has exactly the five category names, each with its own entry. |
| CacheLayer.EntryAgreesWithValidity | ProjetoPokemon/services/CacheService.js:148-155 | For a category with a duration, `isValid` in the snapshot is the validity the getters use. |
| CacheLayer.LastUpdateValidOnceStored | ProjetoPokemon/services/CacheService.js:148-155 | `lastUpdate` has no duration, so it is reported valid whenever it exists. |
| CacheLayer.EntryAfterWrite | ProjetoPokemon/services/CacheService.js:148-155 | Right after a write at t, the snapshot reports `floor((now - t) / 3600000)` hours and validity against the duration. |
| CacheLayer.CardsInfoKey | ProjetoPokemon/services/CacheService.js:142-166 | The `cards` row reads `cached_cards_timestamp`, which no expansion's timestamp key equals; the only write that reaches it makes the age NaN and the entry invalid. |
| CacheLayer.CacheService.ForceRefreshCache | ProjetoPokemon/services/CacheService.js:169-172 | Has the same effect as `clearAllCache`. |
| Json.ParseOfStringify | ProjetoPokemon/services/CacheService.js:40-54 | Parsing the stringified payload gives back the payload. |
| Entities.SeriesListRoundTrip | ProjetoPokemon/services/TCGdexService.js:184-209 | A cached series list decodes to exactly the list that was written. |
| Entities.SetListRoundTrip | ProjetoPokemon/services/TCGdexService.js:242-267 | A cached set list decodes to exactly the list that was written. |
| Entities.CardListRoundTrip | ProjetoPokemon/services/TCGdexService.js:310-401 | A cached card list decodes to exactly the list that was written. |
| TcgdexApi.TCGdexService.constructor | ProjetoPokemon/services/TCGdexService.js:44-80 | Language, base URL `https://api.tcgdex.net/v2/<lang>`, and the SDK for that language (or none when constructing it threw). |
| TcgdexApi.TCGdexService.SetLanguage | ProjetoPokemon/services/TCGdexService.js:83-100 | As written: language and base URL change; on a real change it throws before the SDK is re-created, leaving an SDK of the old language. |
| TcgdexApi.TCGdexService.SetLanguageIntended | ProjetoPokemon/services/TCGdexService.js:83-100 | As intended: on a real change the store becomes the result of the language-cache clearing step, which is a parameter; the SDK is the new language's and the service stays consistent. Otherwise the store is untouched. |
| TcgdexApi.SwitchRefetches | ProjetoPokemon/services/TCGdexService.js:83-100 | After the intended switch with any clearing step that removes `cached_series`, `getSeries` fetches from the remote source again and writes what it fetched. |
| TcgdexApi.ClearAllCacheRemovesSeries | ProjetoPokemon/services/CacheService.js:118-139 | `clearAllCache` is such a clearing step: it removes `cached_series`. |
| TcgdexApi.FetchSeries | ProjetoPokemon/services/TCGdexService.js:186-206 | The SDK's `series.list()` result when it exists and does not throw, otherwise the HTTP `/series` response. |
| TcgdexApi.FetchSets | ProjetoPokemon/services/TCGdexService.js:244-264 | The SDK's `set.list()` result when it exists and does not throw, otherwise the HTTP `/sets` response. |
| TcgdexApi.ReadThrough | ProjetoPokemon/services/TCGdexService.js:184-213 | A failing load leaves the store alone; the store changes only when the fetched list is used and written to the cache. |
| TcgdexApi.HitIgnoresRemote | ProjetoPokemon/services/TCGdexService.js:184-213 | On a cache hit the result depends neither on the remote sources nor on write faults, and the store is unchanged. |
| TcgdexApi.ServedFromCacheAfterFetch | ProjetoPokemon/services/TCGdexService.js:184-213 | A list fetched on a miss is what the next call returns while fresh, with no new fetch and no new write. |
| TcgdexApi.SelectedSeriesIds | ProjetoPokemon/services/TCGdexService.js:216-223 | A throwing `getItem` fails; otherwise the ids saved under `selectedSeries_<lang>`, or `['sv']` when nothing is saved. |
| TcgdexApi.SeriesResult | ProjetoPokemon/services/TCGdexService.js:225-229 | `getSeries` succeeds exactly when the load and the selection read succeed; it returns the loaded series whose id is selected, in their loaded order and with every copy, and no other series. |
| TcgdexApi.TCGdexService.GetSeries | ProjetoPokemon/services/TCGdexService.js:179-234 | The store afterwards and the result are those of the read-through load of `cached_series`, filtered by the saved selection; a throwing selection read fails after the cache write. |
| TcgdexApi.DefaultSelectionIsSv | ProjetoPokemon/services/TCGdexService.js:220-226 | With no saved selection (absent or `""`) and a read that does not throw, `getSeries` succeeds and keeps exactly the `sv` series, in order and with every copy. |
| TcgdexApi.SeriesCachedForAWeek | ProjetoPokemon/services/TCGdexService.js:179-234 | A series list fetched once is served unchanged for the next 7 days, whatever the SDK and HTTP return then. |
| TcgdexApi.SetsResult | ProjetoPokemon/services/TCGdexService.js:273-282 | `getSets` succeeds exactly when the load succeeds, and then returns the loaded sets arranged: those with cards, newest first. |
| TcgdexApi.TCGdexService.GetSets | ProjetoPokemon/services/TCGdexService.js:237-287 | The read-through load of `cached_sets`, then the sets with cards sorted newest first. |
| TcgdexApi.SetsCachedForAWeek | ProjetoPokemon/services/TCGdexService.js:237-287 | A set list fetched once is served for 7 days, and `getSets` then gives the arranged fetched list. |
| TcgdexApi.TCGdexService.GetSetsBySeries | ProjetoPokemon/services/TCGdexService.js:290-307 | The sets of `getSets` whose id starts with the series id, with the same cache effect. |
| TcgdexApi.FetchCards | ProjetoPokemon/services/TCGdexService.js:310-401 | No SDK throws; a `set.get` with an array of cards gives that array. |
| TcgdexApi.FetchedCardsBelong | ProjetoPokemon/services/TCGdexService.js:310-401 | Without a card array from `set.get`, and assuming each detail fetch (`card.get` or `/cards/<id>`) that succeeds returns a card with the requested id, every returned card's id starts with `<setId>-`. The source passes the detail response on as it is. |
| TcgdexApi.TCGdexService.GetCardsBySet | ProjetoPokemon/services/TCGdexService.js:310-401 | The read-through load of `cached_cards_<setId>`. |
| TcgdexApi.CardsCachedForADay | ProjetoPokemon/services/TCGdexService.js:310-401 | Cards fetched once are served for 1 day, even with no SDK. |
| TcgdexApi.NoSdkNoCards | ProjetoPokemon/services/TCGdexService.js:310-401 | With no SDK and no cached cards, `getCardsBySet` throws and writes nothing. |
| TcgdexApi.TCGdexService.GetCard | ProjetoPokemon/services/TCGdexService.js:153-163 | No SDK throws; with an SDK, exactly the SDK's `card.get(id)` result. |
| TcgdexApi.TCGdexService.GetSet | ProjetoPokemon/services/TCGdexService.js:166-176 | No SDK throws; with an SDK, exactly the SDK's `set.get(id)` result. |
| TcgdexApi.TCGdexService.GetFilteredSets | ProjetoPokemon/services/TCGdexService.js:485-513 | A throwing read of the saved list fails. No saved `selectedExpansions_<lang>`: `getAllSets()` unfiltered. Otherwise it succeeds exactly when the saved list parses and `getAllSets()` succeeds, and returns every set whose id is selected, in order with every copy, and nothing else. |
| TcgdexApi.TCGdexService.GetFilteredCards | ProjetoPokemon/services/TCGdexService.js:516-545 | No SDK, or a throwing read of the saved list, fails. No saved selection: all cards. Otherwise it succeeds exactly when the list parses and `card.list` succeeds, and returns every card whose set id (`set.id`, else the id's head before `-`) is selected, in order with every copy, and nothing else. |
| TcgdexApi.TCGdexService.GetAllCards | ProjetoPokemon/services/TCGdexService.js:548-563 | No SDK throws; with an SDK, exactly the SDK's `card.list()` result. |
| TcgdexApi.TCGdexService.GetAllSeries | ProjetoPokemon/services/TCGdexService.js:419-449 | No cache: the SDK's `series.list()` when it exists and succeeds, otherwise the HTTP `<baseUrl>/series` response. |
| TcgdexApi.TCGdexService.GetAllSets | ProjetoPokemon/services/TCGdexService.js:452-482 | No cache, filter or sort: the SDK's `set.list()` when it exists and succeeds, otherwise the HTTP `<baseUrl>/sets` response. |
| TcgdexApi.TCGdexService.GetImageUrl | ProjetoPokemon/services/TCGdexService.js:103-150 | An image naming a quality is returned as it is; any other image gets `<quality>.webp` after a single `/`; a card without an image gets `https://assets.tcgdex.net/<language>/sv/<setId>/<number>/<quality>.webp` with the set id and number fallbacks. |
| TcgdexApi.TCGdexService.GetCardImageUrl | ProjetoPokemon/services/TCGdexService.js:404-406 | The card image URL in the service's current language. |
| TcgdexApi.TCGdexService.GetCardImageUrlHigh | ProjetoPokemon/services/TCGdexService.js:409-411 | The card image URL with type `high`. |
| TcgdexApi.TCGdexService.GetCardImageUrlLow | ProjetoPokemon/services/TCGdexService.js:414-416 | The card image URL with type `low`. |
| Catalog.ArrangeSets | ProjetoPokemon/services/TCGdexService.js:273-279 | The result is a permutation of the sets with `cardCount.total > 0`, every one has cards, and release dates never increase. |
| Catalog.ArrangeSetsInPlace | ProjetoPokemon/services/TCGdexService.js:273-279 | The filter and the in-place sort compute `ArrangeSets`. |
| Catalog.ArrangeSetsMembers | ProjetoPokemon/services/TCGdexService.js:273-279 | A set is listed exactly when it was fetched and has cards. |
| Catalog.ArrangeSetsStable | ProjetoPokemon/services/TCGdexService.js:279 | Sets with the same release date keep their fetched order. |
| Catalog.CompareByDateIsKeyOrder | ProjetoPokemon/services/TCGdexService.js:279 | The comparator `date(b) - date(a)` has the sign of the difference of the newest-first key. |
| Catalog.SetsOfSeries | ProjetoPokemon/services/TCGdexService.js:290-307 | An order-preserving subsequence holding every set whose id starts with the series id, with all of its copies, and no other set. |
| Catalog.SelectSeries | ProjetoPokemon/services/TCGdexService.js:226 | An order-preserving subsequence holding every series with a selected id, with all of its copies, and no other series. |
| Catalog.SelectSets | ProjetoPokemon/services/TCGdexService.js:485-513 | An order-preserving subsequence holding every set with a selected id, with all of its copies, and no other set. |
| Catalog.CardSetId | ProjetoPokemon/services/TCGdexService.js:516-545 | `card.set.id` when non-empty, else the card id up to its first `-`. |
| Catalog.SelectCards | ProjetoPokemon/services/TCGdexService.js:516-545 | An order-preserving subsequence holding every card whose set id is selected, with all of its copies, and no other card. |
| Catalog.CardsOfSet | ProjetoPokemon/services/TCGdexService.js:310-401 | An order-preserving subsequence holding every card whose id starts with `<setId>-`, with all of its copies, and no other card. |
| Catalog.CardInSetExact | ProjetoPokemon/services/TCGdexService.js:310-401 | For an expansion id without `-`, a card matches exactly when its id's head before the first `-` is the expansion id. |
| Catalog.Sv01DoesNotMatchSv010 | ProjetoPokemon/services/TCGdexService.js:310-401 | `sv010-1` is not a card of `sv01`, and `sv01-1` is. |
| Catalog.WithDetails | ProjetoPokemon/services/TCGdexService.js:310-401 | Same length; each card is replaced by its details when they load and kept as it is when they throw. |
| Catalog.WithQualityShape | ProjetoPokemon/services/TCGdexService.js:113-123 | An image that already names a quality is kept; otherwise exactly one `/` and then `<quality>.webp` are appended. |
| Catalog.WithQualityIdempotent | ProjetoPokemon/services/TCGdexService.js:113-123 | Applying the quality rule twice equals applying it once, for `high`, `medium` and `low`. |
| Catalog.ImageUrlIdempotent | ProjetoPokemon/services/TCGdexService.js:103-145 | Feeding a card's image URL back as its image gives the same URL. |
| Catalog.FallbackSetId | ProjetoPokemon/services/TCGdexService.js:133 | Never empty: the card's set id, else `sv01`. |
| Catalog.FallbackNumber | ProjetoPokemon/services/TCGdexService.js:134 | Never empty: `localId`, else `number`, else `1`. |
| Catalog.CardImageUrl | ProjetoPokemon/services/TCGdexService.js:404-416 | The URL is `https://assets.tcgdex.net/<lang>/<setId>/<cardId>/<type>.webp`. |
| Catalog.CardImageUrlInjective | ProjetoPokemon/services/TCGdexService.js:404-416 | When language, expansion and card contain no `/`, two card image URLs are equal exactly when language, expansion, card and image type all are. |
| TcgdexBasic.TCGdexService.constructor | services/TCGdexService.js:43-52 | As written: the SDK is always `null`. |
| TcgdexBasic.TCGdexService.WithSdk | services/TCGdexService.js:43-52 | As intended: the SDK is the one constructed for the language. |
| TcgdexBasic.TCGdexService.GetCard | services/TCGdexService.js:105-115 | With no SDK the call throws; otherwise it is the SDK's `card.get`. |
| TcgdexBasic.TCGdexService.GetSet | services/TCGdexService.js:118-128 | With no SDK the call throws; otherwise it is the SDK's `set.get`. |
| TcgdexBasic.TCGdexService.GetSets | services/TCGdexService.js:146-166 | The Portuguese `/sets` response, filtered to sets with cards and sorted newest first; a failing fetch throws. |
| TcgdexBasic.TCGdexService.GetSetsBySeries | services/TCGdexService.js:169-186 | Succeeds exactly when `/sets` does, giving the arranged sets whose id starts with the series id. |
| TcgdexBasic.FirstCardsOfSet | services/TCGdexService.js:189-229 | At most 50 cards: the first of the expansion's cards, each replaced by its details when they load. |
| TcgdexBasic.TCGdexService.GetCardsBySet | services/TCGdexService.js:189-229 | Succeeds exactly when `/cards` does, with at most 50 cards. |
| TcgdexBasic.FirstCardsBelong | services/TCGdexService.js:189-229 | Assuming each detail fetch that succeeds returns a card with the requested id, every returned card belongs to the expansion. The source passes the detail response on as it is. |
| TcgdexBasic.SmallSetsComplete | services/TCGdexService.js:189-229 | An expansion of at most 50 cards is returned complete. |
| TcgdexBasic.TCGdexService.GetImageUrl | services/TCGdexService.js:55-102 | The same image rule as the current service; a card without an image gets `https://assets.tcgdex.net/pt/sv/<setId>/<number>/<quality>.webp`, whatever the service's language. |
| TcgdexBasic.SameAsCurrentServiceInPt | services/TCGdexService.js:55-102 | Image URLs, card image URLs and the series list equal those of the current service in `pt` without an SDK, whatever the earlier service's language. |
| TcgdexBasic.TCGdexService.GetSeries | services/TCGdexService.js:131-143 | The response of `https://api.tcgdex.net/v2/pt/series`, whatever the language. |
| TcgdexBasic.TCGdexService.GetCardImageUrl | services/TCGdexService.js:232-234 | The card image URL, always in `pt`. |
| TcgdexBasic.TCGdexService.GetCardImageUrlHigh | services/TCGdexService.js:237-239 | The `pt` card image URL with type `high`. |
| TcgdexBasic.TCGdexService.GetCardImageUrlLow | services/TCGdexService.js:242-244 | The `pt` card image URL with type `low`. |
| SetItem.LogoUrl | components/SetItem.js:15-25 | No logo gives `null`; a logo naming `.webp`, `.png` or `.jpg` is used as it is; any other logo gets `.webp` appended. |
| SetItem.LogoUrlHasExtension | components/SetItem.js:15-25 | Every shown logo URL is non-empty and names an image format. |
| SetItem.LogoUrlIdempotent | components/SetItem.js:15-25 | The rule applied to its own result changes nothing. |
| SeriesScreen.IndexOf | ProjetoPokemon/screens/SeriesScreen.js:38-39 | `indexOf`: -1 exactly when absent, otherwise the first position holding the id. |
| SeriesScreen.Compare | ProjetoPokemon/screens/SeriesScreen.js:36-46 | Two unlisted ids tie; an unlisted id goes after a listed one; of two listed ids the one further down the order list goes first, and they tie only when equal. |
| SeriesScreen.CompareAgreesWithRank | ProjetoPokemon/screens/SeriesScreen.js:36-46 | Unlisted ids compare equal and after listed ones; two listed ids compare by `bIndex - aIndex`; the sign matches the rank key. |
| SeriesScreen.SortSeries | ProjetoPokemon/screens/SeriesScreen.js:36-46 | The in-place sort leaves the stable sort of the fetched series by that key. |
| SeriesScreen.SortedSeriesOrder | screens/SeriesScreen.js:33-43 | A permutation, unlisted series last, listed series by descending position in the order list. |
| SeriesScreen.UnlistedKeepOrder | ProjetoPokemon/screens/SeriesScreen.js:41 | Unlisted series keep their fetched order. |
| SeriesScreen.BaseBeforeSv | ProjetoPokemon/screens/SeriesScreen.js:35-45 | As written, `base` is placed before `sv`: oldest first. |
| SeriesScreen.SortSeriesNewestFirst | ProjetoPokemon/screens/SeriesScreen.js:35-45 | The intended comparator's sort, in place. |
| SeriesScreen.NewestFirstOrder | ProjetoPokemon/screens/SeriesScreen.js:35-45 | As intended: a permutation, unlisted last, listed series following the order list (newest first). |
| SeriesScreen.SvBeforeBase | ProjetoPokemon/screens/SeriesScreen.js:35-45 | As intended, `sv` comes before `base`. |
| SeriesScreen.SeriesLogoUrl | screens/SeriesScreen.js:70-80 | The series logo rule equals the expansion tile's: no logo gives `null`, an image format is kept, otherwise `.webp` is appended. |
| SeriesScreen.LocalLogo | ProjetoPokemon/screens/SeriesScreen.js:85-103 | There is never a bundled logo. |
| SetsScreen.SelectedOfSeries | ProjetoPokemon/screens/SetsScreen.js:46-49 | An order-preserving subsequence holding every set of the series whose id is selected, with all of its copies, and no other set. |
| SetsScreen.LoadSets | ProjetoPokemon/screens/SetsScreen.js:36-55 | A throwing read of `selectedExpansions` fails. Nothing saved: the sets of `getSetsBySeries`. A saved list that does not parse, or a failing `getAllSets()`, fails; otherwise exactly the selected sets of the series from `getAllSets()`. |
| SetsScreen.SelectionIgnoresCardCount | ProjetoPokemon/screens/SetsScreen.js:46-49 | A selected set of the series is shown even without cards. |
| SetsScreen.SavedSelectionIsUsed | ProjetoPokemon/screens/SetsScreen.js:36-55 | After a selection is saved, the screen shows its filter. |
| SetsScreen.SetCardCount | ProjetoPokemon/screens/SetsScreen.js:83 | The set's `cardCount.total`, or 0 when it has none. |
| CardsScreen.CardNumberValues | screens/CardsScreen.js:43-44 | `"12"` and `"12a"` sort as 12; a missing id, or one that does not start with a digit, sorts as 0. |
| CardsScreen.CardNumber | screens/CardsScreen.js:43-44 | The value of the leading digits of `localId`; 0 when it is missing or does not start with a digit. |
| CardsScreen.LoadCards | screens/CardsScreen.js:39-52 | Sorts the array in place, stably by card number, and shows its first `min(50, n)` cards. |
| CardsScreen.ShownCards | screens/CardsScreen.js:42-49 | The sort is a permutation; at most 50 cards are shown, in ascending number order, all drawn from the fetched cards. |
| CardsScreen.SameNumberKeepsOrder | screens/CardsScreen.js:42-46 | Cards with the same number keep their fetched order. |
| CardsScreen.FilterCards | screens/CardsScreen.js:71-80 | A blank search shows every card; otherwise every card whose lower-cased name contains the lower-cased text, in order and with all of its copies, and no other card. |
| CardsScreen.UntrimmedSearch | screens/CardsScreen.js:75-77 | The text is lower-cased but not trimmed: `" pikachu"` matches nothing and `"PIKA"` matches `pikachu`. |
| CardsScreen.NoLongerContains | screens/CardsScreen.js:76 | A text longer than a name is never contained in it. |
| Settings.SavedIds | ProjetoPokemon/services/TCGdexService.js:216-223 | Nothing saved (absent or empty) is `None`; a saved text that parses to an array gives the strings among its items; any other saved text fails. |
| Settings.SaveThenRead | screens/SettingsScreen.js:145 | A saved id list is read back exactly. |
| Settings.SelectionKeysDistinct | ProjetoPokemon/services/TCGdexService.js:217 | Per-language selection keys never collide across languages or across the two kinds. |
| Selection.Toggle | screens/SettingsScreen.js:135-138 | Selecting an absent id appends it; toggling a present id removes every copy, keeps the rest in order and changes no other membership. |
| Selection.ToggleKeepsOthers | ProjetoPokemon/screens/LanguageConfigScreen.js:124-132 | Apart from the toggled id, the list is unchanged. |
| Selection.ToggleTwiceRestores | screens/SettingsScreen.js:135-141 | Toggling an unselected id twice gives back the original list. |
| LanguageConfig.ConfigScreen.constructor | ProjetoPokemon/screens/LanguageConfigScreen.js:15-23 | Every selection and the loaded expansions start empty. |
| LanguageConfig.ConfigScreen.ToggleSeries | ProjetoPokemon/screens/LanguageConfigScreen.js:104-122 | The series toggle; deselecting also drops the series' loaded expansions and every selected expansion whose id starts with the series id. |
| LanguageConfig.DeselectCascade | ProjetoPokemon/screens/LanguageConfigScreen.js:113-115 | The kept expansions are an order-preserving subsequence holding every expansion not of the series, with all of its copies, and none of the series'. |
| LanguageConfig.ConfigScreen.ToggleExpansion | ProjetoPokemon/screens/LanguageConfigScreen.js:124-132 | The toggle on the selected expansions; nothing else changes. |
| LanguageConfig.ConfigScreen.LoadExpansions | ProjetoPokemon/screens/LanguageConfigScreen.js:79-102 | The loaded map is built one selected series after the other; the selections are unchanged. |
| LanguageConfig.ExpansionsOfEntries | ProjetoPokemon/screens/LanguageConfigScreen.js:82-92 | One entry per selected series and no other: the loaded list, or `[]` when the load threw. |
| LanguageConfig.SeriesName | ProjetoPokemon/screens/LanguageConfigScreen.js:156-159 | The name of the first series with the id, or the id itself when there is none. |
| LanguageConfig.SaveSettings | ProjetoPokemon/screens/LanguageConfigScreen.js:134-138 | Storage calls write `selectedLanguage`, `selectedSeries` and `selectedExpansions` in that order; a failing call stops the save there with the error result, keeping the earlier writes. Success exactly when all three go through; every other key keeps its value. |
| LanguageConfig.SaveSettingsRead | ProjetoPokemon/screens/LanguageConfigScreen.js:134-138 | After a save without faults, the language and both lists read back under the plain keys; the service's `selectedSeries_<lang>` is left as it was. |
| SettingsScreen.LoadSelectedSeries | screens/SettingsScreen.js:51-64 | A throwing read, nothing saved, or unparsable text gives `['sv']`; a saved array of strings gives exactly those strings in order; anything else is not an id list. |
| SettingsScreen.SaveThenLoad | screens/SettingsScreen.js:51-64 | A saved selection, the empty one included, is loaded back exactly. |
| SettingsScreen.SaveSettings | screens/SettingsScreen.js:143-165 | As written: the selection and the language are written, then the call to a missing `setLanguage` makes the save always report an error. |
| SettingsScreen.SaveSettingsIntended | screens/SettingsScreen.js:143-165 | As intended: success is reported exactly when both writes go through. |
| SettingsScreen.SaveReportsErrorAfterWrites | screens/SettingsScreen.js:143-165 | With both writes done, the selection loads back and the language is stored, yet as written the save reports an error. |
| SettingsScreen.SelectAll | screens/SettingsScreen.js:167-169 | The ids of all series, in their order. |
| SettingsScreen.SelectAllSelectsEvery | screens/SettingsScreen.js:167-169 | Every series shows as selected; saving is possible exactly when there is at least one series. |
| SettingsScreen.SelectNone | screens/SettingsScreen.js:171-173 | The empty selection. |
| SettingsScreen.SelectNoneDisablesSave | screens/SettingsScreen.js:298-300 | After `selectNone` no series is selected and the save button is disabled. |
| SettingsScreen.DefaultSelection | screens/SettingsScreen.js:57-58 | The default `['sv']` can be saved; deselecting `sv` from it disables saving. |

## Left out

- **Unmodelled pieces:**
  - I/O, timing and the UI: asynchrony, logging, alerts, navigation,
    loading flags, refresh controls and rendering.
  - React's batching of state updates: each setter is one assignment in
    program order.
  - `Promise.all` runs its detail fetches one after another, and each fetch
    is a pure function of the card id.
- **The card objects' own SDK method `getImageURL`:** records decoded from
  the cache or from HTTP do not carry it, so `ImageUrl` covers only the
  `image` branch and the manual fallback branch.
- **The `try`/`catch` fallback URL of `getImageURL`:** it is the same URL as
  the manual branch. Besides a throwing log call, the catch is reached when
  `card.image` is truthy but not a string, or when the card's own SDK
  `getImageURL` throws. The model's `image` is always a string and that SDK
  method is left out, so it never takes the catch.
- **Release dates:** `new Date(releaseDate)` is an abstract integer date
  key; date-string parsing is not modelled.
- **Text:**
  - Strings carry no Unicode case folding: `ToLower` maps only A–Z.
  - `trim` removes only the ASCII space and the characters 9 to 13.
  - `parseInt` reads only a leading run of decimal digits: no sign, no
    leading whitespace, no `0x`.
- **`JSON.stringify` / `JSON.parse`:** both are a tagged codec with the same
  round-trip behaviour, not JSON text. Its numbers are integers, so it cannot
  hold the floating-point exchange rate that `setCachedExchangeRate` stores.
- **TcgdexApi.ReadThrough: remote payloads of the wrong shape.** The remote
  sources return typed lists, so such a payload is a failing fetch that
  writes nothing. The source behaves differently:
  - `getSeries` and `getSets` cache the raw payload before `.filter` throws
    (for example an error object from `response.json()`), so every call
    throws for the next 7 days.
  - `getCardsBySet` returns a cached value as it is, without `.filter`; the
    model, whose results are card lists, reports a cached value that does not
    decode to cards as a failure.
- **Settings.SavedIds:** any saved value that is not an array is a failure.
  In the source a parsed string has a substring `includes`, so a saved
  string filters by substring instead of failing. The `&&` in the expansions
  screen also reaches `includes` only for sets of the series.
- **Default arguments:** callers always pass `quality` (default `'high'`),
  `imageType` (default `'high'`) and the constructor's `language` (default
  `'pt'`); `getImageURL`'s `extension` (default `'png'`) only feeds the card
  objects' own SDK method, which is left out.
- **CacheLayer.CardsIsolation:** it requires that neither expansion id is the
  other followed by `_timestamp`. In that case one expansion's payload key is
  the other's timestamp key, so the source does not isolate them either.
- **The keys carry no language:** `getCachedSeries(language)` and the other
  getters receive a language that `CacheService` ignores, so the model has no
  language parameter on them.
- **`CacheService.clearLanguageCache`:** the data service calls it, but it
  does not exist on `CacheService`. `SetLanguage` models the throw;
  `SetLanguageIntended` takes the clearing step as a parameter, and
  `SwitchRefetches` holds for any step that removes `cached_series`, such as
  `clearAllCache`.
- **The SDK constructor (`initializeSDK`):** it is a parameter. `None` means
  `new TCGdex(language)` threw.
- **`LanguageConfig.ConfigScreen.LoadExpansions`:**
  - `getSetsBySeries` is a pure fetch function, so its cache writes are not
    threaded through the loop.
  - The effect that runs it only while `selectedSeries.length > 0` is not
    modelled.
- **Screen setup not modelled** (plain storage reads and service calls whose
  parts are modelled elsewhere):
  - `loadSavedSettings` and `loadSeries` of `LanguageConfigScreen`;
  - `loadSeries`, `loadLanguage` and `loadCacheInfo` of `SettingsScreen`.
- **SettingsScreen.LoadSelectedSeries:**
  - A read fault is a boolean.
  - A saved value that parses but is not an array of strings is `None`: the
    screen would hold that value as it is.
- **Context files not modelled:** `CardItem.js`, `MainScreen.js`, the earlier
  `SetsScreen.js`, the two `App.js` files and the Python scripts are not part
  of this model.
- **TcgdexApi.FetchCards:** its contract states the no-SDK and card-array
  branches; the list-and-details branches are stated by
  `FetchedCardsBelong` and `Catalog.WithDetails`.

## Findings

| source | as written | input that shows it | evidently intended | confidence | as-written member | corrected member |
|---|---|---|---|---|---|---|
| ProjetoPokemon/services/TCGdexService.js:91-96 | `setLanguage` calls `CacheService.clearLanguageCache`, which `CacheService` does not define, so on a real language change it throws before `initializeSDK` runs. | A service in `pt` with an SDK, then `setLanguage('en')`: language and base URL are `en` but the SDK stays `pt`. | Clear the previous language's cache and re-create the SDK for the new language. | not executed | TcgdexApi.TCGdexService.SetLanguage | TcgdexApi.TCGdexService.SetLanguageIntended |
| services/TCGdexService.js:46 | `new tcgdex(language)` names an identifier that does not exist (the import is `TCGdex`); the `ReferenceError` is caught and the SDK is `null`, so `getCard`, `getSet` and the SDK branches always throw. | `new TCGdexService('pt')`, then `getCard('sv01-1')`: it throws. | `new TCGdex(language)`. | not executed | TcgdexBasic.TCGdexService.constructor | TcgdexBasic.TCGdexService.WithSdk |
| ProjetoPokemon/screens/SeriesScreen.js:45 | The comparator returns `bIndex - aIndex`, which sorts listed series by descending position in `['sv', …, 'base']`: oldest first. The same comparator is at screens/SeriesScreen.js:42. | The series `[sv, base]` sorts to `[base, sv]`. | The comment says newest first: `aIndex - bIndex`, giving `[sv, base]`. | not executed | SeriesScreen.BaseBeforeSv | SeriesScreen.SvBeforeBase |
| screens/SettingsScreen.js:149 | `saveSettings` calls `TCGdexService.setLanguage`, but the imported service (services/TCGdexService.js) has no `setLanguage`, so every save shows the error alert after both writes. | Any save with working storage: the selection and the language are stored, yet "Não foi possível salvar" is shown. | The success alert for a save whose writes succeed. | not executed | SettingsScreen.SaveSettings | SettingsScreen.SaveSettingsIntended |
