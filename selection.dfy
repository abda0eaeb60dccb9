/** The selection list the fines and reservations pages keep for bulk actions:
    an array of record ids changed by toggle, select-all and clear. */
module Selection {
  import opened Views

  /** Toggles one id: drops it (every occurrence) when selected, appends it otherwise. */
  function Toggled(sel: seq<int>, id: int): (r: seq<int>)
    ensures forall x :: x in r <==> (if x == id then id !in sel else x in sel)
    ensures NoDup(sel) ==> NoDup(r)
    ensures id in sel ==> IsSubsequence(r, sel)
    ensures id !in sel ==> |r| == |sel| + 1 && r[..|sel|] == sel && r[|sel|] == id
  {
    if id in sel then
      var r := Filter(sel, x => x != id);
      FilterIsSubsequence(sel, x => x != id);
      r
    else sel + [id]
  }

  /** Toggling an id twice gives back the same set of ids; when the id was not
      selected it gives back the very same list (a selected id instead moves to
      the end of the list). */
  lemma ToggleTwice(sel: seq<int>, id: int)
    ensures forall x :: x in Toggled(Toggled(sel, id), id) <==> x in sel
    ensures id !in sel ==> Toggled(Toggled(sel, id), id) == sel
  {
    if id !in sel {
      var once := sel + [id];
      FilterAppend(sel, [id], x => x != id);
      FilterKeepsAll(sel, x => x != id);
      assert Filter([id], x => x != id) == [];
    }
  }

  /** The select-all checkbox: if the selection is as long as the view, clear;
      otherwise select exactly the ids of the view, in view order. */
  function SelectAll(sel: seq<int>, viewIds: seq<int>): (r: seq<int>)
    ensures |sel| == |viewIds| ==> r == []
    ensures |sel| != |viewIds| ==> r == viewIds
  {
    if |sel| == |viewIds| then [] else viewIds
  }

  /** Pressing select-all twice on an unchanged view ends with nothing selected,
      unless the first press cleared a selection of the view's size. */
  lemma SelectAllTwice(sel: seq<int>, viewIds: seq<int>)
    requires |sel| != |viewIds| || viewIds == []
    ensures SelectAll(SelectAll(sel, viewIds), viewIds) == []
  {
  }

  /** An id larger than every id of `s`. */
  function Above(s: seq<int>): (b: int)
    ensures forall i :: 0 <= i < |s| ==> s[i] < b
    decreases |s|
  {
    if s == [] then 0
    else
      var rest := Above(s[..|s| - 1]);
      var last := s[|s| - 1];
      if last < rest then rest else last + 1
  }

  /** The comparison is by count only: for every non-empty view there is a
      selection of distinct ids, none of them shown, that select-all clears
      instead of selecting the view. */
  lemma {:induction false} SelectAllComparesCounts(viewIds: seq<int>)
    requires viewIds != []
    ensures exists sel :: |sel| == |viewIds| && NoDup(sel) && (forall i :: 0 <= i < |sel| ==> sel[i] !in viewIds)
                          && SelectAll(sel, viewIds) == [] && SelectAll(sel, viewIds) != viewIds
  {
    var b := Above(viewIds);
    var sel := seq(|viewIds|, i => b + i);
    assert forall i :: 0 <= i < |sel| ==> sel[i] !in viewIds;
    assert NoDup(sel);
  }
}
