/** The "Compare Colors" dialog: whether it is open, and the list of colour
    ids picked for side-by-side comparison, which clicking a colour toggles. */
module CompareColors {
  import opened Sequences

  datatype Color = Color(id: int, name: string, hexCode: string)

  const EscapeKey := "Escape"

  /** `prev.filter((x) => x !== id)`: every occurrence of `id` dropped. */
  function Without(selected: seq<int>, id: int): (r: seq<int>)
    ensures forall x :: x in r <==> x in selected && x != id
    ensures |r| <= |selected|
  {
    if selected == [] then []
    else if selected[0] != id then [selected[0]] + Without(selected[1..], id)
    else Without(selected[1..], id)
  }

  /** The new selection computed by `toggleColor`: an id is selected
      afterwards when it was selected before or it is the toggled one, but
      not both. */
  function Toggled(selected: seq<int>, id: int): (r: seq<int>)
    ensures forall x :: x in r <==> ((x in selected) != (x == id))
  {
    if id in selected then Without(selected, id) else selected + [id]
  }

  /** `colors.filter((c) => selectedColors.includes(c.id))`: exactly the
      catalogue colours whose id is selected. */
  function SelectedColorObjects(colors: seq<Color>, selected: seq<int>): (r: seq<Color>)
    ensures forall c :: c in r <==> c in colors && c.id in selected
  {
    if colors == [] then []
    else if colors[0].id in selected then [colors[0]] + SelectedColorObjects(colors[1..], selected)
    else SelectedColorObjects(colors[1..], selected)
  }

  /** The side-by-side grid needs at least two picks. */
  predicate ShowsComparison(selected: seq<int>)
  {
    |selected| >= 2
  }

  /** The "select at least 2" warning. */
  predicate ShowsWarning(selected: seq<int>)
  {
    |selected| < 2
  }

  lemma {:induction false} WithoutAbsent(selected: seq<int>, id: int)
    requires id !in selected
    ensures Without(selected, id) == selected
  {
    if selected != [] {
      WithoutAbsent(selected[1..], id);
      assert selected == [selected[0]] + selected[1..];
    }
  }

  lemma {:induction false} WithoutAppend(selected: seq<int>, x: int, id: int)
    ensures Without(selected + [x], id) == Without(selected, id) + (if x == id then [] else [x])
  {
    if selected != [] {
      assert (selected + [x])[1..] == selected[1..] + [x];
      WithoutAppend(selected[1..], x, id);
    }
  }

  lemma {:induction false} WithoutKeepsNoDuplicates(selected: seq<int>, id: int)
    requires NoDuplicates(selected)
    ensures NoDuplicates(Without(selected, id))
  {
    if selected != [] {
      var rest := Without(selected[1..], id);
      WithoutKeepsNoDuplicates(selected[1..], id);
      if selected[0] != id {
        assert selected[0] !in selected[1..];
        assert selected[0] !in rest;
        var r := [selected[0]] + rest;
        forall i, j | 0 <= i < j < |r|
          ensures r[i] != r[j]
        {
          if i > 0 {
            assert r[i] == rest[i - 1] && r[j] == rest[j - 1];
          } else {
            assert r[j] in rest;
          }
        }
      }
    }
  }

  /** `toggleColor` keeps the selection free of duplicates. */
  lemma ToggleKeepsNoDuplicates(selected: seq<int>, id: int)
    requires NoDuplicates(selected)
    ensures NoDuplicates(Toggled(selected, id))
  {
    if id in selected {
      WithoutKeepsNoDuplicates(selected, id);
    }
  }

  /** Toggling an unselected colour twice gives back the same list. */
  lemma ToggleTwiceAbsent(selected: seq<int>, id: int)
    requires id !in selected
    ensures Toggled(Toggled(selected, id), id) == selected
  {
    WithoutAppend(selected, id, id);
    WithoutAbsent(selected, id);
  }

  /** Toggling a selected colour twice gives back the same colours, with
      that one moved to the end. */
  lemma ToggleTwicePresent(selected: seq<int>, id: int)
    requires id in selected
    ensures Toggled(Toggled(selected, id), id) == Without(selected, id) + [id]
    ensures forall x :: x in Toggled(Toggled(selected, id), id) <==> x in selected
  {
  }

  /** They come in catalogue order. */
  lemma {:induction false} SelectedInCatalogueOrder(colors: seq<Color>, selected: seq<int>)
    ensures IsSubsequence(SelectedColorObjects(colors, selected), colors)
  {
    if colors != [] {
      SelectedInCatalogueOrder(colors[1..], selected);
      var rest := SelectedColorObjects(colors[1..], selected);
      if colors[0].id in selected {
        assert ([colors[0]] + rest)[1..] == rest;
      }
    }
  }

  /** Only which ids are selected matters, not the order they were picked in. */
  lemma {:induction false} SelectionOrderIrrelevant(colors: seq<Color>, s: seq<int>, t: seq<int>)
    requires forall x :: x in s <==> x in t
    ensures SelectedColorObjects(colors, s) == SelectedColorObjects(colors, t)
  {
    if colors != [] {
      SelectionOrderIrrelevant(colors[1..], s, t);
    }
  }

  /** Exactly one of the grid and the warning is shown. */
  lemma ExactlyOnePanel(selected: seq<int>)
    ensures ShowsComparison(selected) != ShowsWarning(selected)
  {
  }

  /** The dialog's state. The catalogue colours are fixed; the selection
      starts empty and never holds an id twice. */
  class ColorComparison {
    const colors: seq<Color>
    var isOpen: bool
    var selectedColors: seq<int>

    ghost predicate Valid()
      reads this
    {
      NoDuplicates(selectedColors)
    }

    constructor (colors: seq<Color>)
      ensures Valid()
      ensures this.colors == colors && !isOpen && selectedColors == []
    {
      this.colors := colors;
      isOpen := false;
      selectedColors := [];
    }

    /** The "Compare Colors" button. */
    method Open()
      requires Valid()
      modifies this
      ensures Valid()
      ensures isOpen && selectedColors == old(selectedColors)
    {
      isOpen := true;
    }

    /** A click on the backdrop, on the close cross or on "Done". */
    method Close()
      requires Valid()
      modifies this
      ensures Valid()
      ensures !isOpen && selectedColors == old(selectedColors)
    {
      isOpen := false;
    }

    /** A key press; the listener is attached only while the dialog is open,
        and Escape closes it. */
    method KeyDown(key: string)
      requires Valid()
      modifies this
      ensures Valid()
      ensures isOpen == (old(isOpen) && key != EscapeKey)
      ensures selectedColors == old(selectedColors)
    {
      if isOpen && key == EscapeKey {
        isOpen := false;
      }
    }

    /** A click on a colour; the colour buttons exist only while the dialog is open. */
    method ToggleColor(id: int)
      requires Valid() && isOpen
      modifies this
      ensures Valid()
      ensures selectedColors == Toggled(old(selectedColors), id)
      ensures isOpen == old(isOpen)
    {
      ToggleKeepsNoDuplicates(selectedColors, id);
      if id in selectedColors {
        selectedColors := Without(selectedColors, id);
      } else {
        selectedColors := selectedColors + [id];
      }
    }

    /** The "Clear Selection" button, shown only while the dialog is open. */
    method ClearSelection()
      requires Valid() && isOpen
      modifies this
      ensures Valid()
      ensures selectedColors == [] && isOpen == old(isOpen)
    {
      selectedColors := [];
    }
  }
}
