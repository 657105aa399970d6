// The search box (frontend/src/MapSearch.jsx): the dropdown's visibility, the highlighted
// suggestion and the keyboard, mouse and focus events, forwarding queries, clears and
// choices to the map component.
module SearchBox {
  import opened Optional
  import opened Selections
  import opened Search
  import opened MapView

  datatype Key = ArrowDown | ArrowUp | Enter | Escape | OtherKey

  /** ArrowDown: one suggestion further, stopping at the last. */
  function Down(h: int, n: nat): (r: int)
    ensures -1 <= h < n ==> -1 <= r < n
    ensures h < n - 1 ==> r == h + 1
  {
    if h < n - 1 then h + 1 else h
  }

  /** ArrowUp: one suggestion back; from the first (or nothing) to nothing highlighted. */
  function Up(h: int): (r: int)
    ensures r >= -1
    ensures h >= 0 ==> r < h
  {
    if h > 0 then h - 1 else -1
  }

  /** ArrowUp undoes an ArrowDown that moved. */
  lemma UpUndoesDown(h: int, n: nat)
    requires -1 <= h < n - 1
    ensures Up(Down(h, n)) == h
  {
  }

  /** ArrowDown undoes an ArrowUp from a highlighted suggestion. */
  lemma DownUndoesUp(h: int, n: nat)
    requires 0 <= h < n
    ensures Down(Up(h), n) == h
  {
  }

  /** Enough ArrowDowns from anywhere in the list reach the last suggestion, and stay there. */
  lemma {:induction false} DownReachesLast(h: int, n: nat, k: nat)
    requires n > 0 && -1 <= h < n && k >= n - 1 - h
    ensures Repeat(h, n, k) == n - 1
    decreases k
  {
    if k > 0 {
      DownReachesLast(Down(h, n), n, k - 1);
    }
  }

  function Repeat(h: int, n: nat, k: nat): int
    decreases k
  {
    if k == 0 then h else Repeat(Down(h, n), n, k - 1)
  }

  class MapSearchBox {
    const host: MapComponent
    var highlighted: int
    var shown: bool

    predicate Valid()
      reads this, host, host.leaflet
    {
      host.Valid() && highlighted >= -1
    }

    /** The dropdown is rendered (139). */
    predicate DropdownShown()
      reads this, host
    {
      shown && |host.suggestions| > 0
    }

    constructor (h: MapComponent)
      requires h.Valid()
      ensures host == h && highlighted == -1 && !shown && Valid()
    {
      host := h;
      highlighted := -1;
      shown := false;
    }

    /** handleKeyPress: ignored while the list is hidden; Enter picks the highlighted
        suggestion when there is one, and keeps the highlight. */
    method KeyDown(key: Key)
      requires Valid()
      modifies this, host, host.leaflet
      ensures Valid()
      ensures !old(shown) || key == OtherKey ==>
        shown == old(shown) && highlighted == old(highlighted) && host.selected == old(host.selected) && host.query == old(host.query)
      ensures old(shown) && key == ArrowDown ==> highlighted == Down(old(highlighted), |host.suggestions|) && shown
      ensures old(shown) && key == ArrowUp ==> highlighted == Up(old(highlighted)) && shown
      ensures old(shown) && key == Escape ==> !shown && highlighted == old(highlighted)
      ensures old(shown) && key == Enter ==>
        highlighted == old(highlighted)
        && (0 <= old(highlighted) < |old(host.suggestions)| ==>
              !shown && host.suggestions == [] && host.selected.Some?
              && host.selected.value.id == old(host.suggestions)[old(highlighted)].id
              && host.query == old(host.suggestions)[FirstWithId(old(host.suggestions), old(host.suggestions)[old(highlighted)].id)].title)
        && (!(0 <= old(highlighted) < |old(host.suggestions)|) ==> shown && host.selected == old(host.selected))
      ensures host.applied == old(host.applied) && host.guard == old(host.guard)
    {
      if !shown {
        return;
      }
      match key
      case ArrowDown => highlighted := Down(highlighted, |host.suggestions|);
      case ArrowUp => highlighted := Up(highlighted);
      case Enter =>
        if 0 <= highlighted < |host.suggestions| {
          var s := host.suggestions[highlighted];
          assert host.suggestions[highlighted].id == s.id;
          host.ChooseSuggestion(s);
          shown := false;
        }
      case Escape => shown := false;
      case OtherKey =>
    }

    /** handleInputChange: the query goes to the component, the list shows for a non-empty
        value, and nothing is highlighted. */
    method InputChange(value: string)
      requires Valid()
      modifies this, host, host.leaflet
      ensures Valid()
      ensures shown == (|value| > 0) && highlighted == -1
      ensures host.query == value && host.suggestions == Suggestions(host.projects, value) && host.selected == None
    {
      host.SearchChange(value);
      shown := |value| > 0;
      highlighted := -1;
    }

    /** A click on the suggestion at index i (156) goes through handleSuggestionClick. */
    method ClickSuggestion(i: nat)
      requires Valid() && DropdownShown() && i < |host.suggestions|
      modifies this, host, host.leaflet
      ensures Valid() && !shown && highlighted == -1
      ensures host.suggestions == [] && host.selected.Some? && host.selected.value.id == old(host.suggestions)[i].id
      ensures var k := FirstWithId(old(host.suggestions), old(host.suggestions)[i].id);
        k <= i && host.query == old(host.suggestions)[k].title
      ensures host.applied == old(host.applied) && host.guard == old(host.guard)
    {
      var s := host.suggestions[i];
      assert host.suggestions[i].id == s.id;
      host.ChooseSuggestion(s);
      shown := false;
      highlighted := -1;
    }

    /** onFocus: the list shows again when there is a query. */
    method Focus()
      requires Valid()
      modifies this
      ensures Valid() && shown == (|host.query| > 0) && highlighted == old(highlighted)
    {
      shown := |host.query| > 0;
    }

    /** A document click outside the input (16-20). */
    method ClickOutside()
      requires Valid()
      modifies this
      ensures Valid() && !shown && highlighted == old(highlighted)
    {
      shown := false;
    }

    /** The clear button (100-102), shown while there is a query; the click also reaches the
        document listener, which hides the list. */
    method ClearButton()
      requires Valid() && host.query != ""
      modifies this, host, host.leaflet
      ensures Valid() && !shown && highlighted == old(highlighted)
      ensures host.query == "" && host.suggestions == [] && host.selected == None
    {
      host.ClearSearch();
      shown := false;
    }

    /** Hovering the suggestion at index i (166). */
    method MouseEnter(i: nat)
      requires Valid() && DropdownShown() && i < |host.suggestions|
      modifies this
      ensures Valid() && highlighted == i && shown
    {
      highlighted := i;
    }

    /** Leaving a suggestion (167). */
    method MouseLeave()
      requires Valid()
      modifies this
      ensures Valid() && highlighted == -1 && shown == old(shown)
    {
      highlighted := -1;
    }
  }
}
