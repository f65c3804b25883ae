/**
 * The expansions screen of the ProjetoPokemon application. With a saved
 * expansion selection (under the language-free key `selectedExpansions`) it
 * takes every set of `getAllSets()` that belongs to the series and is
 * selected; without one it shows `getSetsBySeries(seriesId)`.
 */
module SetsScreen {
  import opened Common
  import opened Text
  import opened Lists
  import opened Entities
  import opened CacheLayer
  import opened Settings

  const SelectedExpansionsPlainKey := "selectedExpansions"

  function InSeriesAndSelected(seriesId: string, ids: seq<string>): SetInfo -> bool {
    (s: SetInfo) => StartsWith(s.id, seriesId) && s.id in ids
  }

  /** The `setsData` filter of `loadSets`. */
  function SelectedOfSeries(all: seq<SetInfo>, seriesId: string, ids: seq<string>): (r: seq<SetInfo>)
    ensures IsSubseq(r, all)
    ensures forall i :: 0 <= i < |r| ==> StartsWith(r[i].id, seriesId) && r[i].id in ids
    ensures forall i :: 0 <= i < |all| && StartsWith(all[i].id, seriesId) && all[i].id in ids ==> all[i] in r
    ensures forall s :: multiset(r)[s] == if StartsWith(s.id, seriesId) && s.id in ids then multiset(all)[s] else 0
  {
    FilterIsSubseq(all, InSeriesAndSelected(seriesId, ids));
    FilterCounts(all, InSeriesAndSelected(seriesId, ids));
    Filter(all, InSeriesAndSelected(seriesId, ids))
  }

  /**
   * `loadSets`: `allSets` and `bySeries` are what `getAllSets()` and
   * `getSetsBySeries(seriesId)` would give; only the branch taken calls its
   * service. `readThrows` is a failing read of the saved selection.
   */
  function LoadSets(store: Store, seriesId: string, readThrows: bool, allSets: Outcome<seq<SetInfo>>,
                    bySeries: Outcome<seq<SetInfo>>): (r: Outcome<seq<SetInfo>>)
    ensures readThrows ==> r.Fail?
    ensures !readThrows && SavedIds(store, SelectedExpansionsPlainKey).None? ==> r == bySeries
    ensures !readThrows && SavedIds(store, SelectedExpansionsPlainKey).Some? ==>
      var ids := SavedIds(store, SelectedExpansionsPlainKey).value;
      (ids.Fail? || allSets.Fail? ==> r.Fail?)
      && (ids.Ok? && allSets.Ok? ==> r == Ok(SelectedOfSeries(allSets.value, seriesId, ids.value)))
  {
    if readThrows then Fail
    else match SavedIds(store, SelectedExpansionsPlainKey)
    case None => bySeries
    case Some(Fail) => Fail
    case Some(Ok(ids)) =>
      var all :- allSets;
      Ok(SelectedOfSeries(all, seriesId, ids))
  }

  /**
   * In the selection branch the card count plays no part: a selected set of
   * the series without any cards is still shown.
   */
  lemma SelectionIgnoresCardCount(all: seq<SetInfo>, seriesId: string, ids: seq<string>, i: nat)
    requires i < |all| && StartsWith(all[i].id, seriesId) && all[i].id in ids
    requires all[i].cardCount.None? || all[i].cardCount.value.total <= 0
    ensures all[i] in SelectedOfSeries(all, seriesId, ids)
  {
    var r := SelectedOfSeries(all, seriesId, ids);
    assert all[i] in r;
  }

  /** After saving a selection, `loadSets` uses it. */
  lemma SavedSelectionIsUsed(store: Store, seriesId: string, ids: seq<string>,
                             all: seq<SetInfo>, bySeries: Outcome<seq<SetInfo>>)
    ensures LoadSets(SaveIds(store, SelectedExpansionsPlainKey, ids), seriesId, false, Ok(all), bySeries)
         == Ok(SelectedOfSeries(all, seriesId, ids))
  {
    SaveThenRead(store, SelectedExpansionsPlainKey, ids);
  }

  /** `set.cardCount?.total || 0`, passed to the cards screen. */
  function SetCardCount(s: SetInfo): (r: int)
    ensures s.cardCount.Some? ==> r == s.cardCount.value.total
    ensures s.cardCount.None? ==> r == 0
  {
    if s.cardCount.Some? && s.cardCount.value.total != 0 then s.cardCount.value.total else 0
  }
}
