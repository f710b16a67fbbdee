/** The dashboard of PredictionDashboard.tsx: the drag reorder of the
    widget layout, the score colour and the grid span of each widget. */
module Dashboard {
  import opened Wrappers
  import opened Seqs
  import opened Types
  import opened Bands

  /** `newLayout.splice(i, 1)` then `newLayout.splice(j, 0, item)`: the
      element at `i` moved so that it lands at index `j`. */
  function Moved<T>(s: seq<T>, i: nat, j: nat): seq<T>
    requires i < |s| && j < |s|
  {
    InsertAt(RemoveAt(s, i), j, s[i])
  }

  /** A move is a permutation: same length, same elements with the same
      multiplicities. */
  lemma MovedIsPermutation<T>(s: seq<T>, i: nat, j: nat)
    requires i < |s| && j < |s|
    ensures |Moved(s, i, j)| == |s|
    ensures multiset(Moved(s, i, j)) == multiset(s)
  {
    var rest := RemoveAt(s, i);
    assert s == s[..i] + [s[i]] + s[i + 1..];
    assert multiset(s) == multiset(rest) + multiset{s[i]};
    assert rest == rest[..j] + rest[j..];
    assert multiset(Moved(s, i, j)) == multiset(rest[..j]) + multiset{s[i]} + multiset(rest[j..]);
  }

  /** The dragged element lands at index `j`, and the other elements keep
      their relative order. */
  lemma MovedPlacesItem<T>(s: seq<T>, i: nat, j: nat)
    requires i < |s| && j < |s|
    ensures Moved(s, i, j)[j] == s[i]
    ensures RemoveAt(Moved(s, i, j), j) == RemoveAt(s, i)
  {
    var rest := RemoveAt(s, i);
    var r := Moved(s, i, j);
    assert r[..j] == rest[..j];
    assert r[j + 1..] == rest[j..];
  }

  /** Dropping an element on its own position changes nothing. */
  lemma MovedInPlace<T>(s: seq<T>, i: nat)
    requires i < |s|
    ensures Moved(s, i, i) == s
  {
    assert Moved(s, i, i) == s[..i] + [s[i]] + s[i + 1..];
  }

  /** The two drag references `dragItem` and `dragOverItem` of the
      dashboard; the layout itself belongs to the application shell. */
  class DragState {
    var dragItem: Option<nat>
    var dragOverItem: Option<nat>

    constructor()
      ensures dragItem == None && dragOverItem == None
    {
      dragItem := None;
      dragOverItem := None;
    }

    /** `onDragStart` on the widget at `index`. */
    method DragStart(index: nat)
      modifies this
      ensures dragItem == Some(index) && dragOverItem == old(dragOverItem)
    {
      dragItem := Some(index);
    }

    /** `onDragEnter` on the widget at `index`. */
    method DragEnter(index: nat)
      modifies this
      ensures dragOverItem == Some(index) && dragItem == old(dragItem)
    {
      dragOverItem := Some(index);
    }

    /** `handleDragSort`. With either reference unset nothing happens and
        no new layout is produced; otherwise the result is the move from
        `dragItem` to `dragOverItem` and both references are reset. The
        references are indices of the rendered `layout`. */
    method DragSort(layout: seq<DashboardComponentId>) returns (newLayout: Option<seq<DashboardComponentId>>)
      requires dragItem.Some? ==> dragItem.value < |layout|
      requires dragOverItem.Some? ==> dragOverItem.value < |layout|
      modifies this
      ensures old(dragItem).None? || old(dragOverItem).None? ==>
        newLayout.None? && dragItem == old(dragItem) && dragOverItem == old(dragOverItem)
      ensures old(dragItem).Some? && old(dragOverItem).Some? ==>
        newLayout == Some(Moved(layout, old(dragItem).value, old(dragOverItem).value))
        && dragItem.None? && dragOverItem.None?
    {
      if dragItem.None? || dragOverItem.None? {
        return None;
      }
      var i, j := dragItem.value, dragOverItem.value;
      var copy := layout;
      var dragged := copy[i];
      copy := copy[..i] + copy[i + 1..];
      copy := copy[..j] + [dragged] + copy[j..];
      dragItem := None;
      dragOverItem := None;
      newLayout := Some(copy);
    }
  }

  /** `getLevelColor`: the text colour of the predicted score. */
  function LevelColor(score: real): string {
    ["text-green-400", "text-sky-400", "text-yellow-400", "text-orange-400", "text-red-400"][Band(score)]
  }

  /** Two scores get the same colour exactly when they are in the same
      band, and the top colour is given exactly from 90 up. */
  lemma LevelColorClassifies(a: real, b: real)
    ensures LevelColor(a) == LevelColor(b) <==> Band(a) == Band(b)
    ensures LevelColor(a) == "text-green-400" <==> a >= 90.0
    ensures LevelColor(a) == "text-red-400" <==> a < 60.0
  {
  }

  /** `getGridSpan`: the grid columns a widget spans. */
  function GridSpan(id: DashboardComponentId): (r: string)
    ensures r == "xl:col-span-1" <==> id == Radar
    ensures r == "xl:col-span-2" <==> id == StrengthsWeaknesses
    ensures r == "xl:col-span-3" <==> id != Radar && id != StrengthsWeaknesses
  {
    match id
    case Radar => "xl:col-span-1"
    case StrengthsWeaknesses => "xl:col-span-2"
    case _ => "xl:col-span-3"
  }
}
