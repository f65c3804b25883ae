/**
 * The collection settings screen of the earlier application
 * (`screens/SettingsScreen`): the selected series ids, kept under the
 * language-free key `selectedSeries`, with `['sv']` as the default.
 */
module SettingsScreen {
  import opened Common
  import opened Json
  import opened Entities
  import opened CacheLayer
  import opened Settings
  import opened Selection

  const SavedSeriesKey := "selectedSeries"

  /** Every item of a parsed array is a string. */
  predicate AllStrings(items: seq<Value>) {
    forall i :: 0 <= i < |items| ==> items[i].Str?
  }

  /**
   * `loadSelectedSeries`. `readFails` is a throwing `getItem`. `None` is a
   * saved value that parses but is not a list of ids: the screen then holds
   * that value as it is, which the model does not represent.
   */
  function LoadSelectedSeries(store: Store, readFails: bool): (r: Option<seq<string>>)
    ensures readFails || SavedSeriesKey !in store || store[SavedSeriesKey] == "" ==> r == Some(DefaultSeries)
    ensures !readFails && SavedSeriesKey in store && Parse(store[SavedSeriesKey]).None? ==> r == Some(DefaultSeries)
    ensures !readFails && SavedSeriesKey in store && store[SavedSeriesKey] != "" ==>
      var parsed := Parse(store[SavedSeriesKey]);
      (r.None? <==> parsed.Some? && !(parsed.value.Arr? && AllStrings(parsed.value.items)))
      && (parsed.Some? && parsed.value.Arr? && AllStrings(parsed.value.items) ==>
            r.Some? && |r.value| == |parsed.value.items|
            && forall i :: 0 <= i < |r.value| ==> parsed.value.items[i] == Str(r.value[i]))
  {
    if readFails || SavedSeriesKey !in store || store[SavedSeriesKey] == "" then Some(DefaultSeries)
    else match Parse(store[SavedSeriesKey])
      case None => Some(DefaultSeries)
      case Some(Arr(items)) =>
        if AllStrings(items) then
          StringsOfAllStrings(items);
          Some(StringsOf(items))
        else None
      case Some(_) => None
  }

  /** The `selectedSeries` write of `saveSettings`. */
  function SaveSelectedSeries(store: Store, selected: seq<string>): Store {
    SaveIds(store, SavedSeriesKey, selected)
  }

  /** A saved selection is loaded back as it was, the empty one included. */
  lemma SaveThenLoad(store: Store, selected: seq<string>)
    ensures LoadSelectedSeries(SaveSelectedSeries(store, selected), false) == Some(selected)
  {
    var s := SaveSelectedSeries(store, selected);
    SaveThenRead(store, SavedSeriesKey, selected);
    ParseOfStringify(StrListToJson(selected));
    StringsOfStrList(selected);
  }

  const LanguageKey := "language"

  /** The store after `saveSettings`: storage call 0 writes the selection, call 1 the language. */
  function SavedStore(store: Store, selected: seq<string>, language: string, fault: StorageFault): Store {
    if fault == FailOnCall(0) then store
    else if fault == FailOnCall(1) then SaveSelectedSeries(store, selected)
    else SaveSelectedSeries(store, selected)[LanguageKey := language]
  }

  /**
   * `saveSettings` as written: after the two writes it calls
   * `TCGdexService.setLanguage`, which the service this screen imports does
   * not define, so the call always throws and the error alert is shown.
   */
  function SaveSettings(store: Store, selected: seq<string>, language: string, fault: StorageFault): (r: (Store, Outcome<()>))
    ensures r.1 == Fail
    ensures r.0 == SavedStore(store, selected, language, fault)
  {
    (SavedStore(store, selected, language, fault), Fail)
  }

  /** `saveSettings` as evidently intended: the success alert follows exactly the writes that went through. */
  function SaveSettingsIntended(store: Store, selected: seq<string>, language: string, fault: StorageFault): (r: (Store, Outcome<()>))
    ensures r.1.Ok? <==> !FailsBefore(fault, 2)
    ensures r.0 == SavedStore(store, selected, language, fault)
  {
    (SavedStore(store, selected, language, fault), if FailsBefore(fault, 2) then Fail else Ok(()))
  }

  /**
   * A save whose writes all succeed stores the selection, which loads back,
   * and the language; as written it still reports an error, as intended it
   * reports success.
   */
  lemma SaveReportsErrorAfterWrites(store: Store, selected: seq<string>, language: string)
    ensures var r := SaveSettings(store, selected, language, NoFault);
      r.1 == Fail
      && LoadSelectedSeries(r.0, false) == Some(selected)
      && r.0[LanguageKey] == language
    ensures SaveSettingsIntended(store, selected, language, NoFault).1 == Ok(())
  {
    var s := SaveSelectedSeries(store, selected);
    SaveThenLoad(store, selected);
    assert SavedSeriesKey != LanguageKey;
    assert SavedStore(store, selected, language, NoFault) == s[LanguageKey := language];
    assert SavedStore(store, selected, language, NoFault)[SavedSeriesKey] == s[SavedSeriesKey];
    assert SavedSeriesKey in s;
  }

  /** `selectAll`: the ids of all series, in their order. */
  function SelectAll(allSeries: seq<Series>): (r: seq<string>)
    ensures |r| == |allSeries|
    ensures forall i :: 0 <= i < |r| ==> r[i] == allSeries[i].id
  {
    seq(|allSeries|, i requires 0 <= i < |allSeries| => allSeries[i].id)
  }

  /** `selectNone`. */
  function SelectNone(): (r: seq<string>)
    ensures |r| == 0
  {
    []
  }

  /** The save button is enabled exactly when something is selected. */
  predicate CanSave(selected: seq<string>) {
    |selected| != 0
  }

  /** After `selectAll` every series shows as selected, and saving is possible unless there are none. */
  lemma SelectAllSelectsEvery(allSeries: seq<Series>)
    ensures forall s :: s in allSeries ==> s.id in SelectAll(allSeries)
    ensures CanSave(SelectAll(allSeries)) <==> allSeries != []
  {
    var r := SelectAll(allSeries);
    forall s | s in allSeries ensures s.id in r {
      var i :| 0 <= i < |allSeries| && allSeries[i] == s;
      assert r[i] == s.id;
    }
  }

  /** After `selectNone` nothing shows as selected and saving is disabled. */
  lemma SelectNoneDisablesSave(allSeries: seq<Series>)
    ensures forall s :: s in allSeries ==> s.id !in SelectNone()
    ensures !CanSave(SelectNone())
  {
  }

  /** The default selection can be saved; deselecting its only series disables saving. */
  lemma DefaultSelection()
    ensures CanSave(DefaultSeries)
    ensures !CanSave(Toggle(DefaultSeries, "sv"))
  {
    assert "sv" in DefaultSeries;
    assert "sv" !in Toggle(DefaultSeries, "sv");
    assert forall x :: x in Toggle(DefaultSeries, "sv") ==> x == "sv";
  }
}
