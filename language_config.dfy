/**
 * The language and collection settings screen of the ProjetoPokemon
 * application (`LanguageConfigScreen`): the series and expansions the user
 * picks, the expansions loaded for every picked series, and the save step.
 * The React state hooks are the fields of `ConfigScreen`; each setter call is
 * an assignment to one of them.
 */
module LanguageConfig {
  import opened Common
  import opened Text
  import opened Lists
  import opened Json
  import opened Entities
  import opened CacheLayer
  import opened Settings
  import opened Selection
  import opened SetsScreen
  import opened TcgdexApi

  /** The selected expansions that do not belong to `seriesId` by id prefix. */
  function NotOfSeries(seriesId: string): string -> bool {
    expId => !StartsWith(expId, seriesId)
  }

  /** `expansionsData[seriesId]` after one round of `loadExpansions`: `[]` when the load throws. */
  function LoadedOrEmpty(fetch: string -> Outcome<seq<SetInfo>>, seriesId: string): seq<SetInfo> {
    if fetch(seriesId).Ok? then fetch(seriesId).value else []
  }

  /** The object `loadExpansions` builds for the ids `ids`, one key after the other. */
  function ExpansionsOf(ids: seq<string>, fetch: string -> Outcome<seq<SetInfo>>): map<string, seq<SetInfo>>
    decreases |ids|
  {
    if ids == [] then map[]
    else ExpansionsOf(ids[..|ids| - 1], fetch)[ids[|ids| - 1] := LoadedOrEmpty(fetch, ids[|ids| - 1])]
  }

  /**
   * There is an entry for every selected series and for nothing else; it holds
   * the loaded expansions, and it is `[]` only for a failed load or an empty list.
   */
  lemma {:induction false} ExpansionsOfEntries(ids: seq<string>, fetch: string -> Outcome<seq<SetInfo>>)
    ensures ExpansionsOf(ids, fetch).Keys == set id | id in ids
    ensures forall id :: id in ids && fetch(id).Ok? ==> ExpansionsOf(ids, fetch)[id] == fetch(id).value
    ensures forall id :: id in ids && fetch(id).Fail? ==> ExpansionsOf(ids, fetch)[id] == []
    decreases |ids|
  {
    if ids != [] {
      var init, last := ids[..|ids| - 1], ids[|ids| - 1];
      ExpansionsOfEntries(init, fetch);
      assert ids == init + [last];
      assert forall id :: id in ids <==> id in init || id == last;
    }
  }

  /** `getSeriesName`: the name of the first series with the id, else the id itself. */
  function SeriesName(series: seq<Series>, seriesId: string): (r: string)
    ensures (forall i :: 0 <= i < |series| ==> series[i].id != seriesId) ==> r == seriesId
    ensures (exists i :: 0 <= i < |series| && series[i].id == seriesId) ==>
      exists i :: 0 <= i < |series| && series[i].id == seriesId && r == series[i].name
        && forall j :: 0 <= j < i ==> series[j].id != seriesId
  {
    if series == [] then seriesId
    else if series[0].id == seriesId then series[0].name
    else
      var r := SeriesName(series[1..], seriesId);
      assert forall i :: 0 < i < |series| ==> series[i] == series[1..][i - 1];
      assert (exists i :: 0 <= i < |series| && series[i].id == seriesId) ==>
        exists i :: 0 <= i < |series[1..]| && series[1..][i].id == seriesId;
      r
  }

  // ---------------------------------------------------------------------------
  // Saving

  const SelectedLanguageKey := "selectedLanguage"
  const SelectedSeriesPlainKey := "selectedSeries"

  /** The keys `saveSettings` writes. */
  const SettingsKeys := {SelectedLanguageKey, SelectedSeriesPlainKey, SelectedExpansionsPlainKey}

  /** `key` has the same entry, or the same absence, in both stores. */
  predicate SameEntry(a: Store, b: Store, key: string) {
    (key in a <==> key in b) && (key in a ==> a[key] == b[key])
  }

  /**
   * `saveSettings`: storage call 0 writes the language, call 1 the series and
   * call 2 the expansions, under language-free keys. A failing call ends the
   * save there and shows the error alert; the writes before it stay.
   */
  function SaveSettings(store: Store, language: string, selectedSeries: seq<string>,
                        selectedExpansions: seq<string>, fault: StorageFault): (r: (Store, Outcome<()>))
    ensures r.1.Ok? <==> !FailsBefore(fault, 3)
    ensures forall k :: k !in SettingsKeys ==> SameEntry(r.0, store, k)
    ensures r.0.Keys <= store.Keys + SettingsKeys
    ensures FailsBefore(fault, 1) ==> r.0 == store
    ensures !FailsBefore(fault, 1) ==> SelectedLanguageKey in r.0 && r.0[SelectedLanguageKey] == language
    ensures FailsBefore(fault, 2) ==> SameEntry(r.0, store, SelectedSeriesPlainKey)
    ensures !FailsBefore(fault, 2) ==>
      SelectedSeriesPlainKey in r.0 && r.0[SelectedSeriesPlainKey] == Stringify(StrListToJson(selectedSeries))
    ensures FailsBefore(fault, 3) ==> SameEntry(r.0, store, SelectedExpansionsPlainKey)
    ensures !FailsBefore(fault, 3) ==>
      SelectedExpansionsPlainKey in r.0 && r.0[SelectedExpansionsPlainKey] == Stringify(StrListToJson(selectedExpansions))
  {
    if FailsBefore(fault, 1) then (store, Fail)
    else
      var s1 := store[SelectedLanguageKey := language];
      if FailsBefore(fault, 2) then (s1, Fail)
      else
        var s2 := SaveIds(s1, SelectedSeriesPlainKey, selectedSeries);
        if FailsBefore(fault, 3) then (s2, Fail)
        else (SaveIds(s2, SelectedExpansionsPlainKey, selectedExpansions), Ok(()))
  }

  /**
   * What a save without faults stores is read back under the same keys (the
   * expansions screen reads `selectedExpansions`), but the data service reads
   * the selection of `selectedSeries_<lang>`, which saving never touches.
   */
  lemma SaveSettingsRead(store: Store, language: string, selectedSeries: seq<string>,
                         selectedExpansions: seq<string>, lang: string)
    ensures var s := SaveSettings(store, language, selectedSeries, selectedExpansions, NoFault).0;
      s[SelectedLanguageKey] == language
      && SavedIds(s, SelectedSeriesPlainKey) == Some(Ok(selectedSeries))
      && SavedIds(s, SelectedExpansionsPlainKey) == Some(Ok(selectedExpansions))
      && SelectedSeriesIds(s, lang, false) == SelectedSeriesIds(store, lang, false)
  {
    var s1 := store[SelectedLanguageKey := language];
    var s2 := SaveIds(s1, SelectedSeriesPlainKey, selectedSeries);
    SaveThenRead(s1, SelectedSeriesPlainKey, selectedSeries);
    SaveThenRead(s2, SelectedExpansionsPlainKey, selectedExpansions);
    var k := SelectedSeriesKey(lang);
    assert k[8] == 'S' && SelectedLanguageKey[8] == 'L' && SelectedExpansionsPlainKey[8] == 'E';
    assert |k| > |SelectedSeriesPlainKey|;
    assert SelectedSeriesPlainKey != SelectedExpansionsPlainKey;
  }

  // ---------------------------------------------------------------------------
  // The screen state

  class ConfigScreen {
    var series: seq<Series>
    var selectedSeries: seq<string>
    var expansions: map<string, seq<SetInfo>>
    var selectedExpansions: seq<string>

    /** The initial state of the hooks. */
    constructor ()
      ensures series == [] && selectedSeries == [] && expansions == map[] && selectedExpansions == []
    {
      series := [];
      selectedSeries := [];
      expansions := map[];
      selectedExpansions := [];
    }

    /**
     * `toggleSeries`: an unselected series is appended; a selected one is
     * removed together with its loaded expansions and with every selected
     * expansion whose id starts with the series id.
     */
    method ToggleSeries(seriesId: string)
      modifies this
      ensures series == old(series)
      ensures selectedSeries == Toggle(old(selectedSeries), seriesId)
      ensures seriesId in old(selectedSeries) ==>
        expansions == old(expansions) - {seriesId}
        && selectedExpansions == Filter(old(selectedExpansions), NotOfSeries(seriesId))
      ensures seriesId !in old(selectedSeries) ==>
        expansions == old(expansions) && selectedExpansions == old(selectedExpansions)
    {
      if seriesId in selectedSeries {
        var newExpansions := expansions;
        newExpansions := newExpansions - {seriesId};
        expansions := newExpansions;
        selectedExpansions := Filter(selectedExpansions, NotOfSeries(seriesId));
        selectedSeries := Filter(selectedSeries, Other(seriesId));
      } else {
        selectedSeries := selectedSeries + [seriesId];
      }
    }

    /** `toggleExpansion`: the toggle rule on the selected expansions. */
    method ToggleExpansion(expansionId: string)
      modifies this
      ensures selectedExpansions == Toggle(old(selectedExpansions), expansionId)
      ensures series == old(series) && selectedSeries == old(selectedSeries) && expansions == old(expansions)
    {
      selectedExpansions := Toggle(selectedExpansions, expansionId);
    }

    /** `loadExpansions`: one `getSetsBySeries` per selected series, in order. */
    method LoadExpansions(fetch: string -> Outcome<seq<SetInfo>>)
      modifies this
      ensures expansions == ExpansionsOf(selectedSeries, fetch)
      ensures series == old(series) && selectedSeries == old(selectedSeries)
      ensures selectedExpansions == old(selectedExpansions)
    {
      var data: map<string, seq<SetInfo>> := map[];
      var i := 0;
      while i < |selectedSeries|
        invariant 0 <= i <= |selectedSeries|
        invariant data == ExpansionsOf(selectedSeries[..i], fetch)
      {
        var seriesId := selectedSeries[i];
        var loaded := fetch(seriesId);
        if loaded.Ok? {
          data := data[seriesId := loaded.value];
        } else {
          data := data[seriesId := []];
        }
        assert selectedSeries[..i + 1][..i] == selectedSeries[..i];
        i := i + 1;
      }
      assert selectedSeries[..i] == selectedSeries;
      expansions := data;
    }
  }

  /**
   * Deselecting a series keeps every other selected expansion, in order and
   * with all of its copies, and none of the series' own.
   */
  lemma {:induction false} DeselectCascade(prev: seq<string>, seriesId: string)
    ensures var r := Filter(prev, NotOfSeries(seriesId));
      IsSubseq(r, prev)
      && (forall e :: e in r <==> e in prev && !StartsWith(e, seriesId))
      && forall e :: multiset(r)[e] == if StartsWith(e, seriesId) then 0 else multiset(prev)[e]
  {
    FilterIsSubseq(prev, NotOfSeries(seriesId));
    FilterCounts(prev, NotOfSeries(seriesId));
  }
}
