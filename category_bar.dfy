/**
 * The category bar of the home screen: five buttons, the one matching the
 * current selection highlighted, and a press that stores `null` for "All"
 * and the category itself otherwise.
 */
module CategoryBar {
  import opened Wrappers
  import opened Text

  const Categories: seq<string> := ["All", "Starters", "Mains", "Desserts", "Drinks"]

  /** A button is highlighted when it equals the selection, and "All" also when nothing is selected. */
  predicate IsSelected(selected: Option<string>, category: string)
  {
    selected == Some(category) || (category == "All" && !Truthy(selected))
  }

  /** The selection a press of `category` stores. */
  function Press(category: string): (r: Option<string>)
    ensures r.None? <==> category == "All"
    ensures r.Some? ==> r.value == category
    ensures r != Some("All")
  {
    if category == "All" then None else Some(category)
  }

  /** The buttons among `buttons` that are drawn highlighted, in order. */
  function HighlightedAmong(buttons: seq<string>, selected: Option<string>): (r: seq<string>)
    ensures forall c :: c in r <==> c in buttons && IsSelected(selected, c)
    ensures forall i :: 0 <= i < |r| ==> IsSelected(selected, r[i])
    decreases |buttons|
  {
    if buttons == [] then []
    else
      var rest := HighlightedAmong(buttons[1..], selected);
      assert buttons == [buttons[0]] + buttons[1..];
      if IsSelected(selected, buttons[0]) then [buttons[0]] + rest else rest
  }

  function Highlighted(selected: Option<string>): seq<string>
  {
    HighlightedAmong(Categories, selected)
  }

  lemma NoneHighlighted(buttons: seq<string>, selected: Option<string>)
    requires forall c :: c in buttons ==> !IsSelected(selected, c)
    ensures HighlightedAmong(buttons, selected) == []
  {
  }

  /** At most one button is highlighted when the labels are distinct and none is empty. */
  lemma {:induction false} AtMostOneAmongDistinct(buttons: seq<string>, selected: Option<string>)
    requires forall i, j :: 0 <= i < j < |buttons| ==> buttons[i] != buttons[j]
    requires forall i :: 0 <= i < |buttons| ==> buttons[i] != ""
    ensures |HighlightedAmong(buttons, selected)| <= 1
    decreases |buttons|
  {
    if buttons != [] {
      AtMostOneAmongDistinct(buttons[1..], selected);
      if IsSelected(selected, buttons[0]) {
        // A later button differs from the head and is not empty, so the
        // selection cannot highlight both.
        forall c | c in buttons[1..] ensures !IsSelected(selected, c) {
          var j :| 0 <= j < |buttons[1..]| && buttons[1..][j] == c;
          assert buttons[j + 1] == c;
        }
        NoneHighlighted(buttons[1..], selected);
      }
    }
  }

  /**
   * Exactly one button is highlighted precisely when the selection is unset
   * (or empty) or is one of the five categories, and none otherwise. For
   * any selection a press can store, "All" is the highlighted button
   * exactly when the selection is falsy.
   */
  lemma ExactlyOneHighlighted(selected: Option<string>)
    ensures |Highlighted(selected)| == 1 <==> !Truthy(selected) || selected.value in Categories
    ensures Truthy(selected) && selected.value !in Categories ==> Highlighted(selected) == []
    ensures selected != Some("All") ==> ("All" in Highlighted(selected) <==> !Truthy(selected))
  {
    var h := Highlighted(selected);
    AtMostOneAmongDistinct(Categories, selected);
    if !Truthy(selected) {
      assert IsSelected(selected, "All");
      assert "All" in h;
    } else if selected.value in Categories {
      assert IsSelected(selected, selected.value);
      assert selected.value in h;
    }
  }

  /** After pressing a button, that button and no other is highlighted. */
  lemma PressHighlightsOnlyIt(category: string)
    requires category in Categories
    ensures Highlighted(Press(category)) == [category]
  {
    var h := Highlighted(Press(category));
    ExactlyOneHighlighted(Press(category));
    assert IsSelected(Press(category), category);
    assert category in h;
  }
}
