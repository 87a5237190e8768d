/** Delivery checklists: one selected checklist whose items are ticked off, the counts beside it, the
    progress percentage and the "complete" banner. */
module Checklist {
  import opened Wrappers
  import opened Seqs
  import opened Numbers

  datatype Item = Item(id: string, text: string, checked: bool)

  datatype Checklist = Checklist(id: string, project: string, client: string, createdAt: string, items: seq<Item>)

  datatype State = State(checklists: seq<Checklist>, selected: string)

  /** The selection the page starts with: the first checklist's id, or "". */
  function InitialState(checklists: seq<Checklist>): (st: State)
    ensures st.checklists == checklists
    ensures checklists == [] ==> st.selected == ""
    ensures checklists != [] ==> st.selected == checklists[0].id
  {
    State(checklists, if checklists != [] then checklists[0].id else "")
  }

  /** checklists.find(c => c.id === selectedChecklist) */
  function SelectedChecklist(st: State): (r: Option<Checklist>)
    ensures r.Some? ==> r.value in st.checklists && r.value.id == st.selected
    ensures r.None? <==> forall c :: c in st.checklists ==> c.id != st.selected
  {
    Find(st.checklists, (c: Checklist) => c.id == st.selected)
  }

  function IsChecked(i: Item): bool
  {
    i.checked
  }

  function IsOpen(i: Item): bool
  {
    !i.checked
  }

  /** The items of the selected checklist; none without one. */
  function Items(st: State): seq<Item>
  {
    match SelectedChecklist(st)
    case None => []
    case Some(c) => c.items
  }

  /** totalCount */
  function TotalCount(st: State): (n: nat)
    ensures SelectedChecklist(st).None? ==> n == 0
    ensures SelectedChecklist(st).Some? ==> n == |SelectedChecklist(st).value.items|
  {
    |Items(st)|
  }

  /** completedCount: the checked items of the selected checklist. */
  function CompletedCount(st: State): (n: nat)
    ensures n <= TotalCount(st)
    ensures n == 0 <==> forall i :: i in Items(st) ==> !i.checked
    ensures n == TotalCount(st) <==> forall i :: i in Items(st) ==> i.checked
  {
    Count(Items(st), IsChecked)
  }

  /** The "Pendentes" figure, totalCount - completedCount, is the number of unchecked items. */
  lemma PendingIsUnchecked(st: State)
    ensures TotalCount(st) - CompletedCount(st) == Count(Items(st), IsOpen)
  {
    CountSplit(Items(st), IsChecked, IsOpen);
  }

  /** Math.round(c / t * 100) for 0 <= c <= t, t > 0, in integer arithmetic. */
  function Percent(c: nat, t: nat): (r: int)
    requires c <= t && t > 0
    ensures 0 <= r <= 100
    ensures r == JsRound(c as real / t as real * 100.0)
  {
    RoundDivBounds(100 * c, t, 0, 100);
    PercentOfQuotient(c, t);
    RoundDiv(100 * c, t)
  }

  lemma PercentOfQuotient(c: nat, t: nat)
    requires t > 0
    ensures (100 * c) as real / t as real == c as real / t as real * 100.0
  {
    var q := c as real / t as real;
    assert q * t as real == c as real;
    assert (q * 100.0) * t as real == (100 * c) as real;
    QuotientOfProduct((100 * c) as real, t as real, q * 100.0);
  }

  /** progress: Math.round(completed / total * 100), or 0 without items. */
  function Progress(st: State): (r: int)
    ensures 0 <= r <= 100
    ensures TotalCount(st) == 0 ==> r == 0
    ensures TotalCount(st) > 0 ==>
              r == JsRound(CompletedCount(st) as real / TotalCount(st) as real * 100.0)
  {
    if TotalCount(st) > 0 then Percent(CompletedCount(st), TotalCount(st)) else 0
  }

  /** A non-empty checklist with every item ticked is at 100%. */
  lemma CompleteIsHundred(st: State)
    requires TotalCount(st) > 0 && forall i :: i in Items(st) ==> i.checked
    ensures Progress(st) == 100
  {
    FullIsHundred(TotalCount(st));
  }

  lemma FullIsHundred(t: nat)
    requires t > 0
    ensures Percent(t, t) == 100
  {
    assert t as real / t as real == 1.0;
  }

  /** The banner as the page renders it: whenever the rounded progress reads 100. */
  predicate ShowsBannerAsWritten(st: State)
  {
    Progress(st) == 100
  }

  /** With 200 items or more, one unchecked item still rounds to 100% and the page announces a
      complete checklist. */
  lemma NearlyCompleteShowsBanner(st: State)
    requires TotalCount(st) >= 200 && CompletedCount(st) == TotalCount(st) - 1
    ensures ShowsBannerAsWritten(st)
    ensures exists i :: i in Items(st) && !i.checked
  {
    OneShortRoundsUp(TotalCount(st));
  }

  /** (t - 1) / t * 100 lies in [99.5, 100) once t >= 200, so it rounds to 100. */
  lemma OneShortRoundsUp(t: nat)
    requires t >= 200
    ensures JsRound((t - 1) as real / t as real * 100.0) == 100
  {
    var d := t as real;
    var x := (t - 1) as real / d * 100.0;
    var q := 100.0 / d;
    assert q * d == 100.0;
    assert ((t - 1) as real / d) * d == d - 1.0;
    assert x == 100.0 - q by {
      assert (100.0 - q) * d == 100.0 * d - 100.0;
      assert x * d == 100.0 * d - 100.0;
    }
    assert q <= 0.5;
  }

  /** The banner as intended: every item of a non-empty checklist is ticked. */
  predicate ShowsBanner(st: State)
  {
    TotalCount(st) > 0 && CompletedCount(st) == TotalCount(st)
  }

  /** The intended banner shows exactly when the checklist is complete, and then the progress bar is
      full too. */
  lemma BannerIffComplete(st: State)
    ensures ShowsBanner(st) <==> Items(st) != [] && forall i :: i in Items(st) ==> i.checked
    ensures ShowsBanner(st) ==> ShowsBannerAsWritten(st)
  {
    if ShowsBanner(st) {
      CompleteIsHundred(st);
    }
  }

  /** The one item flipped, in a checklist's item list. */
  function Toggled(items: seq<Item>, itemId: string): (r: seq<Item>)
    ensures |r| == |items|
    ensures forall k :: 0 <= k < |items| ==>
              && r[k].id == items[k].id && r[k].text == items[k].text
              && r[k].checked == (if items[k].id == itemId then !items[k].checked else items[k].checked)
  {
    seq(|items|, k requires 0 <= k < |items| =>
          if items[k].id == itemId then items[k].(checked := !items[k].checked) else items[k])
  }

  /** toggleItem: flips the matching items of the selected checklist; every other checklist, and every
      field other than the items, stays as it was. */
  function ToggleItem(st: State, itemId: string): (r: State)
    ensures r.selected == st.selected && |r.checklists| == |st.checklists|
    ensures forall k :: 0 <= k < |st.checklists| ==>
              r.checklists[k] == if st.checklists[k].id == st.selected
                                 then st.checklists[k].(items := Toggled(st.checklists[k].items, itemId))
                                 else st.checklists[k]
  {
    var cs := st.checklists;
    State(seq(|cs|, k requires 0 <= k < |cs| =>
                if cs[k].id == st.selected then cs[k].(items := Toggled(cs[k].items, itemId)) else cs[k]),
          st.selected)
  }

  /** Flipping an item twice restores the list. */
  lemma ToggledTwice(items: seq<Item>, itemId: string)
    ensures Toggled(Toggled(items, itemId), itemId) == items
  {
    var r := Toggled(Toggled(items, itemId), itemId);
    forall k | 0 <= k < |items| ensures r[k] == items[k] {
    }
  }

  /** Toggling the same item twice is the identity. */
  lemma ToggleTwice(st: State, itemId: string)
    ensures ToggleItem(ToggleItem(st, itemId), itemId) == st
  {
    var r := ToggleItem(ToggleItem(st, itemId), itemId);
    forall k | 0 <= k < |st.checklists| ensures r.checklists[k] == st.checklists[k] {
      ToggledTwice(st.checklists[k].items, itemId);
    }
  }

  /** Toggling never changes how many items there are, only how many are checked. */
  lemma ToggleKeepsTotal(st: State, itemId: string)
    ensures TotalCount(ToggleItem(st, itemId)) == TotalCount(st)
  {
    var r := ToggleItem(st, itemId);
    var p := (c: Checklist) => c.id == st.selected;
    var m1, m2 := FindFirst(st.checklists, p), FindFirst(r.checklists, p);
    assert forall k :: 0 <= k < |st.checklists| ==> r.checklists[k].id == st.checklists[k].id;
    if m1.Some? {
      FindFirstAt(r.checklists, p, m1.value);
    } else {
      assert m2.None?;
    }
  }
}
