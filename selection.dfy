/**
 * The toggle rule both settings screens use for a list of selected ids:
 * `prev.includes(id) ? prev.filter(x => x !== id) : [...prev, id]`.
 */
module Selection {
  import opened Lists

  /** The ids other than `id`. */
  function Other(id: string): string -> bool {
    x => x != id
  }

  /** Selecting an unselected id appends it; toggling a selected id removes every copy of it. */
  function Toggle(prev: seq<string>, id: string): (r: seq<string>)
    ensures id !in prev ==> r == prev + [id]
    ensures id in prev ==> id !in r && IsSubseq(r, prev)
    ensures forall x :: x != id ==> (x in r <==> x in prev)
  {
    if id in prev then
      FilterIsSubseq(prev, Other(id));
      Filter(prev, Other(id))
    else prev + [id]
  }

  /** Every other id keeps its place: the toggle only adds or drops `id`. */
  lemma ToggleKeepsOthers(prev: seq<string>, id: string)
    ensures Filter(Toggle(prev, id), Other(id)) == Filter(prev, Other(id))
  {
    if id !in prev {
      FilterConcat(prev, [id], Other(id));
      assert Filter([id], Other(id)) == [];
    }
  }

  /** Toggling an unselected id twice gives back the original list. */
  lemma ToggleTwiceRestores(prev: seq<string>, id: string)
    requires id !in prev
    ensures Toggle(Toggle(prev, id), id) == prev
  {
    ToggleKeepsOthers(prev, id);
    assert id in prev + [id];
    assert forall i :: 0 <= i < |prev| ==> Other(id)(prev[i]);
  }
}
