/**
 * The per-language selections the settings screens save in `AsyncStorage` and
 * the services read back: `selectedSeries_<lang>` and
 * `selectedExpansions_<lang>`, each the JSON text of an array of ids.
 */
module Settings {
  import opened Common
  import opened Json
  import opened Entities
  import opened CacheLayer

  function SelectedSeriesKey(language: string): string {
    "selectedSeries_" + language
  }

  function SelectedExpansionsKey(language: string): string {
    "selectedExpansions_" + language
  }

  /** The series selected when nothing is saved. */
  const DefaultSeries := ["sv"]

  /**
   * `JSON.parse(await AsyncStorage.getItem(key))` used as an id list: `None`
   * when nothing is saved (absent or `""`), `Some(Fail)` when parsing throws or
   * the parsed value is not an array. For a non-array the model fails at once;
   * JavaScript fails only where `includes` is reached on a value without it,
   * and a parsed string has a substring `includes`.
   */
  function SavedIds(store: Store, key: string): (r: Option<Outcome<seq<string>>>)
    ensures r.None? <==> key !in store || store[key] == ""
    ensures r.Some? && r.value.Ok? ==> exists items :: Parse(store[key]) == Some(Arr(items))
    ensures key in store && store[key] != "" && Parse(store[key]).Some? && Parse(store[key]).value.Arr? ==>
      r == Some(Ok(StringsOf(Parse(store[key]).value.items)))
    ensures key in store && store[key] != "" && (Parse(store[key]).None? || !Parse(store[key]).value.Arr?) ==>
      r == Some(Fail)
  {
    if key !in store || store[key] == "" then None
    else match Parse(store[key])
      case Some(Arr(items)) => Some(Ok(StringsOf(items)))
      case _ => Some(Fail)
  }

  /** `setItem(key, JSON.stringify(ids))`. */
  function SaveIds(store: Store, key: string, ids: seq<string>): Store {
    store[key := Stringify(StrListToJson(ids))]
  }

  /** Saving a list and reading it back gives the same list. */
  lemma SaveThenRead(store: Store, key: string, ids: seq<string>)
    ensures SavedIds(SaveIds(store, key, ids), key) == Some(Ok(ids))
  {
    ParseOfStringify(StrListToJson(ids));
    StringsOfStrList(ids);
  }

  /** The selection keys of different languages, and of the two kinds, never collide. */
  lemma SelectionKeysDistinct(a: string, b: string)
    ensures SelectedSeriesKey(a) == SelectedSeriesKey(b) <==> a == b
    ensures SelectedExpansionsKey(a) == SelectedExpansionsKey(b) <==> a == b
    ensures SelectedSeriesKey(a) != SelectedExpansionsKey(b)
  {
    if SelectedSeriesKey(a) == SelectedSeriesKey(b) {
      assert a == SelectedSeriesKey(a)[15..];
    }
    if SelectedExpansionsKey(a) == SelectedExpansionsKey(b) {
      assert a == SelectedExpansionsKey(a)[19..];
    }
    assert SelectedSeriesKey(a)[9] != SelectedExpansionsKey(b)[9];
  }
}
