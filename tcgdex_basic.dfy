/**
 * The earlier, cache-free data service (`services/TCGdexService.js`): every
 * list comes from fixed Portuguese HTTP endpoints, whatever the language, and
 * at most 50 cards of an expansion get their details fetched.
 */
module TcgdexBasic {
  import opened Common
  import opened Text
  import opened Lists
  import opened Entities
  import opened Remote
  import opened Catalog
  import TcgdexApi

  const PtRoot := "https://api.tcgdex.net/v2/pt"

  /** How many cards of an expansion `getCardsBySet` returns at most. */
  const DetailLimit := 50

  function Min(a: int, b: int): int {
    if a <= b then a else b
  }

  /** The cards `getCardsBySet` returns for the fetched list `all`. */
  function FirstCardsOfSet(all: seq<Card>, setId: string, get: string -> Outcome<Card>): (r: seq<Card>)
    ensures |r| == Min(DetailLimit, |CardsOfSet(all, setId)|)
    ensures forall i :: 0 <= i < |r| ==>
      var basic := CardsOfSet(all, setId)[i];
      r[i] == if get(CardIdText(basic)).Ok? then get(CardIdText(basic)).value else basic
  {
    var kept := CardsOfSet(all, setId);
    WithDetails(kept[..Min(DetailLimit, |kept|)], get)
  }

  /** The detail fetch of `getCardsBySet`. */
  function PtCardAt(http: Http): string -> Outcome<Card> {
    id => http.card(PtRoot + "/cards/" + id)
  }

  class TCGdexService {
    var language: string
    var tcgdex: Option<Sdk>

    /**
     * `new TCGdexService(language)` as written: the constructor calls
     * `new tcgdex(language)`, but the imported name is `TCGdex`, so the call
     * throws a `ReferenceError`, which is caught, and the SDK is always `null`.
     */
    constructor (language: string)
      ensures this.language == language && tcgdex.None?
    {
      this.language := language;
      this.tcgdex := None;
    }

    /** The constructor as evidently intended: `this.tcgdex = new TCGdex(language)`. */
    constructor WithSdk(language: string, sdk: Option<Sdk>)
      requires sdk.Some? ==> sdk.value.lang == language
      ensures this.language == language && tcgdex == sdk
      ensures tcgdex.Some? ==> tcgdex.value.lang == language
    {
      this.language := language;
      this.tcgdex := sdk;
    }

    /** `getCard`: `this.tcgdex.card.get(cardId)`; with a `null` SDK this throws. */
    function GetCard(cardId: string): (r: Outcome<Card>)
      reads this
      ensures tcgdex.None? ==> r.Fail?
      ensures tcgdex.Some? ==> r == tcgdex.value.cardGet(cardId)
    {
      if tcgdex.None? then Fail else tcgdex.value.cardGet(cardId)
    }

    /** `getSet`: `this.tcgdex.set.get(setId)`; with a `null` SDK this throws. */
    function GetSet(setId: string): (r: Outcome<SetDetail>)
      reads this
      ensures tcgdex.None? ==> r.Fail?
      ensures tcgdex.Some? ==> r == tcgdex.value.setGet(setId)
    {
      if tcgdex.None? then Fail else tcgdex.value.setGet(setId)
    }

    /** `getSeries`: the Portuguese series list, whatever `language` is. */
    function GetSeries(http: Http): (r: Outcome<seq<Series>>)
      reads this
      ensures r == http.series("https://api.tcgdex.net/v2/pt/series")
    {
      assert PtRoot + "/series" == "https://api.tcgdex.net/v2/pt/series";
      http.series(PtRoot + "/series")
    }

    /** `getSets`: the Portuguese sets with cards, sorted in place newest first. */
    method GetSets(http: Http) returns (r: Outcome<seq<SetInfo>>)
      ensures r == if http.sets(PtRoot + "/sets").Fail? then Fail else Ok(ArrangeSets(http.sets(PtRoot + "/sets").value))
    {
      var sets := http.sets(PtRoot + "/sets");
      if sets.Fail? {
        return Fail;
      }
      var arranged := ArrangeSetsInPlace(sets.value);
      r := Ok(arranged);
    }

    /** `getSetsBySeries`: the sets of `getSets` whose id starts with the series id. */
    method GetSetsBySeries(http: Http, seriesId: string) returns (r: Outcome<seq<SetInfo>>)
      ensures r.Ok? <==> http.sets(PtRoot + "/sets").Ok?
      ensures r.Ok? ==> r.value == SetsOfSeries(ArrangeSets(http.sets(PtRoot + "/sets").value), seriesId)
    {
      var all := GetSets(http);
      if all.Fail? {
        return Fail;
      }
      r := Ok(SetsOfSeries(all.value, seriesId));
    }

    /** `getCardsBySet`: the first 50 cards of the expansion, each with its details when they load. */
    function GetCardsBySet(http: Http, setId: string): (r: Outcome<seq<Card>>)
      reads this
      ensures r.Ok? <==> http.cards(PtRoot + "/cards").Ok?
      ensures r.Ok? ==> |r.value| <= DetailLimit
      ensures r.Ok? ==> r.value == FirstCardsOfSet(http.cards(PtRoot + "/cards").value, setId, PtCardAt(http))
    {
      match http.cards(PtRoot + "/cards")
      case Fail => Fail
      case Ok(all) => Ok(FirstCardsOfSet(all, setId, PtCardAt(http)))
    }

    /**
     * `getImageURL` / `getImageUrl`: the image rule of the current service,
     * but the manual fallback always uses the Portuguese assets.
     */
    function GetImageUrl(card: Card, quality: string): (r: string)
      reads this
      ensures card.image.Some? && HasQuality(card.image.value) ==> r == card.image.value
      ensures card.image.Some? && card.image.value != "" && !HasQuality(card.image.value) && EndsWith(card.image.value, "/") ==>
        r == card.image.value + quality + ".webp"
      ensures card.image.Some? && card.image.value != "" && !HasQuality(card.image.value) && !EndsWith(card.image.value, "/") ==>
        r == card.image.value + "/" + quality + ".webp"
      ensures card.image.None? || card.image.value == "" ==>
        r == "https://assets.tcgdex.net/pt/sv/" + FallbackSetId(card) + "/" + FallbackNumber(card) + "/" + quality + ".webp"
    {
      ImageUrl(card, quality, "pt")
    }

    /** `getCardImageUrl`: always the Portuguese assets. */
    function GetCardImageUrl(cardId: string, setId: string, imageType: string): (r: string)
      reads this
      ensures r == CardImageUrl("pt", cardId, setId, imageType)
    {
      CardImageUrl("pt", cardId, setId, imageType)
    }

    /** `getCardImageUrlHigh`: the `high` image. */
    function GetCardImageUrlHigh(cardId: string, setId: string): (r: string)
      reads this
      ensures r == CardImageUrl("pt", cardId, setId, "high")
    {
      GetCardImageUrl(cardId, setId, "high")
    }

    /** `getCardImageUrlLow`: the `low` image. */
    function GetCardImageUrlLow(cardId: string, setId: string): (r: string)
      reads this
      ensures r == CardImageUrl("pt", cardId, setId, "low")
    {
      GetCardImageUrl(cardId, setId, "low")
    }
  }

  /**
   * The earlier service gives the same image URLs, card image URLs and series
   * list as the current service does in Portuguese without an SDK, whatever
   * its own `language` is.
   */
  lemma SameAsCurrentServiceInPt(b: TCGdexService, a: TcgdexApi.TCGdexService, card: Card, quality: string,
                                 cardId: string, setId: string, imageType: string, http: Http)
    requires a.language == "pt" && a.Consistent() && a.tcgdex.None?
    ensures b.GetImageUrl(card, quality) == a.GetImageUrl(card, quality)
    ensures b.GetCardImageUrl(cardId, setId, imageType) == a.GetCardImageUrl(cardId, setId, imageType)
    ensures b.GetSeries(http) == a.GetAllSeries(http)
  {
    assert a.baseUrl + "/series" == "https://api.tcgdex.net/v2/pt/series";
  }

  /** Every card `getCardsBySet` fetched details for belongs to the expansion when the details keep the id. */
  lemma FirstCardsBelong(all: seq<Card>, setId: string, get: string -> Outcome<Card>)
    requires forall id :: get(id).Ok? ==> get(id).value.id == Some(id)
    ensures var r := FirstCardsOfSet(all, setId, get);
      forall i :: 0 <= i < |r| ==> StartsWith(CardIdText(r[i]), setId + "-")
  {
    var kept := CardsOfSet(all, setId);
    var r := FirstCardsOfSet(all, setId, get);
    forall i | 0 <= i < |r| ensures StartsWith(CardIdText(r[i]), setId + "-") {
      if get(CardIdText(kept[i])).Ok? {
        assert r[i].id == Some(CardIdText(kept[i]));
      }
    }
  }

  /** For an expansion of at most 50 cards nothing is cut off. */
  lemma SmallSetsComplete(all: seq<Card>, setId: string, get: string -> Outcome<Card>)
    requires |CardsOfSet(all, setId)| <= DetailLimit
    ensures FirstCardsOfSet(all, setId, get) == WithDetails(CardsOfSet(all, setId), get)
  {
    var kept := CardsOfSet(all, setId);
    assert kept[..Min(DetailLimit, |kept|)] == kept;
  }
}
