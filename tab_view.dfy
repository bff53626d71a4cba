/**
 * The tab bar: a list of titled terminal views and the index of the selected
 * one.  Inserting selects the new last tab; in one frame of the tab bar a
 * click selects a tab and a close button removes one, after which the
 * selection is pulled back into range if it fell off the end.
 */
module TabBar {
  import opened Wrappers

  /** The last position whose flag is set, if any. */
  function LastSet(flags: seq<bool>): (r: Option<nat>)
    ensures r.Some? ==>
      && r.value < |flags| && flags[r.value]
      && forall j :: r.value < j < |flags| ==> !flags[j]
    ensures r.None? <==> forall j :: 0 <= j < |flags| ==> !flags[j]
  {
    if flags == [] then None
    else if flags[|flags| - 1] then Some(|flags| - 1)
    else LastSet(flags[..|flags| - 1])
  }

  /** `s` with position `r` taken out; the others keep their order. */
  function RemoveAt<X>(s: seq<X>, r: nat): (t: seq<X>)
    requires r < |s|
    ensures |t| == |s| - 1
    ensures forall j :: 0 <= j < r ==> t[j] == s[j]
    ensures forall j :: r <= j < |t| ==> t[j] == s[j + 1]
  {
    s[..r] + s[r + 1..]
  }

  /** One more flag extends the search by one position. */
  lemma LastSetStep(flags: seq<bool>, i: nat)
    requires i < |flags|
    ensures LastSet(flags[..i + 1]) == if flags[i] then Some(i) else LastSet(flags[..i])
  {
    assert flags[..i + 1][..i] == flags[..i];
  }

  class TabView<T> {
    var items: seq<(string, T)>
    var selected: nat

    /** The selection points at a tab, or the bar is empty and the selection is 0. */
    ghost predicate Valid()
      reads this
    {
      selected < |items| || (|items| == 0 && selected == 0)
    }

    constructor ()
      ensures Valid() && items == [] && selected == 0
    {
      items := [];
      selected := 0;
    }

    /** `insert`: appends a tab and selects it. */
    method Insert(title: string, term: T)
      requires Valid()
      modifies this
      ensures Valid()
      ensures items == old(items) + [(title, term)]
      ensures selected == |old(items)|
    {
      items := items + [(title, term)];
      selected := |items| - 1;
    }

    /** The tab whose view is shown below the bar: the selected one, if it exists. */
    function Shown(): (r: Option<(string, T)>)
      reads this
      requires Valid()
      ensures r.None? <==> items == []
      ensures r.Some? ==> r.value == items[selected]
    {
      if selected < |items| then Some(items[selected]) else None
    }

    /** `paint_tab_bar` for one frame, where `closes[i]` and `clicks[i]` say whether tab `i`'s
      * close button and title were clicked.  The last click selects; the last close removes
      * that tab; the selection is then clamped to the last tab only if it is past the end,
      * and is otherwise left where it was, even when an earlier tab was removed. */
    method PaintTabBar(closes: seq<bool>, clicks: seq<bool>)
      requires Valid()
      requires |closes| == |items| && |clicks| == |items|
      modifies this
      ensures Valid()
      ensures var clicked := LastSet(clicks);
        var picked := if clicked.Some? then clicked.value else old(selected);
        var removed := LastSet(closes);
        && (removed.None? ==> items == old(items) && selected == picked)
        && (removed.Some? ==>
              && items == RemoveAt(old(items), removed.value)
              && selected == if picked >= |items| && |items| > 0 then |items| - 1 else picked)
    {
      var remove: Option<nat> := None;
      assert closes[..0] == [] && clicks[..0] == [];
      for i := 0 to |items|
        invariant items == old(items)
        invariant remove == LastSet(closes[..i])
        invariant selected == if LastSet(clicks[..i]).Some? then LastSet(clicks[..i]).value else old(selected)
      {
        LastSetStep(closes, i);
        LastSetStep(clicks, i);
        if closes[i] {
          remove := Some(i);
        }
        if clicks[i] {
          selected := i;
        }
      }
      assert closes[..|items|] == closes && clicks[..|items|] == clicks;
      if remove.Some? {
        var i := remove.value;
        items := items[..i] + items[i + 1..];
        if selected >= |items| && |items| > 0 {
          selected := |items| - 1;
        }
      }
    }
  }
}
