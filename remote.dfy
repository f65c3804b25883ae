/**
 * The remote sources the services read: the TCGdex SDK object and plain HTTP
 * `fetch(url).json()`, both as pure descriptions of what each call returns.
 * `Fail` is a call that throws (network error, bad JSON, SDK error).
 */
module Remote {
  import opened Common
  import opened Entities

  /**
   * A constructed SDK (`new TCGdex(lang)`). `seriesList`/`setList` are `None`
   * when `series.list`/`set.list` is not a function on the object.
   */
  datatype Sdk = Sdk(
    lang: string,
    seriesList: Option<Outcome<seq<Series>>>,
    setList: Option<Outcome<seq<SetInfo>>>,
    setGet: string -> Outcome<SetDetail>,
    cardList: Outcome<seq<Card>>,
    cardGet: string -> Outcome<Card>)

  /** `fetch(url).json()` for the four kinds of response, keyed by URL. */
  datatype Http = Http(
    series: string -> Outcome<seq<Series>>,
    sets: string -> Outcome<seq<SetInfo>>,
    cards: string -> Outcome<seq<Card>>,
    card: string -> Outcome<Card>)

  const ApiRoot := "https://api.tcgdex.net/v2/"

  /** `https://api.tcgdex.net/v2/${language}`. */
  function BaseUrl(language: string): string {
    ApiRoot + language
  }
}
