/** The sidebar's menu preferences: the ordered menu items, each in one section and visible or hidden,
    plus four display settings. */
module MenuPreferences {
  import opened Wrappers
  import opened Seqs

  datatype Section = Gestao | Cadastro | Planejamento | Recursos | Sistema

  datatype IconSize = Small | Medium | Large

  /** A sidebar entry; `title` holds the entry's label (`label` is a keyword in Dafny). */
  datatype MenuItem = MenuItem(id: string, title: string, path: string, section: Section, visible: bool)

  datatype Preferences = Preferences(
    items: seq<MenuItem>, compactMode: bool, showLabels: bool, showIcons: bool, iconSize: IconSize)

  /** The fields an updateSettings call gives; None for the ones it leaves out. */
  datatype SettingsPatch = SettingsPatch(
    compactMode: Option<bool>, showLabels: Option<bool>, showIcons: Option<bool>, iconSize: Option<IconSize>)

  datatype Direction = Up | Down

  const DefaultItems: seq<MenuItem> := [
    MenuItem("dashboard", "Dashboard", "/", Gestao, true),
    MenuItem("orcamentos", "Orçamentos", "/orcamentos", Gestao, true),
    MenuItem("financeiro", "Financeiro", "/financeiro", Gestao, true),
    MenuItem("relatorios", "Relatórios", "/relatorios", Gestao, true),
    MenuItem("clientes", "Clientes", "/clientes", Cadastro, true),
    MenuItem("servicos", "Serviços", "/servicos", Cadastro, true),
    MenuItem("fornecedores", "Fornecedores", "/fornecedores", Cadastro, true),
    MenuItem("profissionais", "Profissionais", "/profissionais", Cadastro, true),
    MenuItem("agenda", "Agenda", "/agenda", Planejamento, true),
    MenuItem("cronograma", "Cronograma", "/cronograma", Planejamento, true),
    MenuItem("checklist", "Checklist", "/checklist", Planejamento, true),
    MenuItem("galeria", "Galeria", "/galeria", Recursos, true),
    MenuItem("ferramentas", "Ferramentas", "/ferramentas", Recursos, true),
    MenuItem("assistente-ia", "Assistente IA", "/assistente-ia", Recursos, true),
    MenuItem("empresa", "Empresa", "/empresa", Sistema, true),
    MenuItem("configuracoes", "Configurações", "/configuracoes", Sistema, true)
  ]

  const DefaultPreferences := Preferences(DefaultItems, false, true, true, Medium)

  function HasId(id: string): MenuItem -> bool
  {
    (i: MenuItem) => i.id == id
  }

  function InSection(section: Section): MenuItem -> bool
  {
    (i: MenuItem) => i.section == section
  }

  predicate UniqueIds(items: seq<MenuItem>)
  {
    forall i, j :: 0 <= i < j < |items| ==> items[i].id != items[j].id
  }

  lemma DefaultIdsUnique()
    ensures UniqueIds(DefaultItems)
  {
  }

  /** moveItem as the hook computes it: locate the item, list its section's items, and swap it with the
      previous (Up) or next (Down) member of that list, located again by id. */
  function MovedItems(items: seq<MenuItem>, itemId: string, dir: Direction): (r: seq<MenuItem>)
    ensures |r| == |items| && multiset(r) == multiset(items)
    ensures (forall i :: 0 <= i < |items| ==> items[i].id != itemId) ==> r == items
  {
    match FindFirst(items, HasId(itemId))
    case None => items
    case Some(index) => MoveAt(items, index, dir)
  }

  function MoveAt(items: seq<MenuItem>, index: nat, dir: Direction): (r: seq<MenuItem>)
    requires index < |items|
    ensures |r| == |items| && multiset(r) == multiset(items)
  {
    var sectionItems := Filter(items, InSection(items[index].section));
    match FindFirst(sectionItems, HasId(items[index].id))
    case None => items
    case Some(sectionIndex) =>
      if dir == Up && sectionIndex > 0 then SwapWithId(items, index, sectionItems[sectionIndex - 1].id)
      else if dir == Down && sectionIndex < |sectionItems| - 1 then SwapWithId(items, index, sectionItems[sectionIndex + 1].id)
      else items
  }

  /** The destructuring swap with the slot findIndex gives for otherId. */
  function SwapWithId(items: seq<MenuItem>, index: nat, otherId: string): (r: seq<MenuItem>)
    requires index < |items|
    ensures |r| == |items| && multiset(r) == multiset(items)
  {
    match FindFirst(items, HasId(otherId))
    case None => items
    case Some(other) => Swap(items, index, other)
  }

  /** The item's section-mates before it and after it, and where it sits among them. */
  lemma SectionSplit(items: seq<MenuItem>, k: nat)
    requires UniqueIds(items) && k < |items|
    ensures FindFirst(items, HasId(items[k].id)) == Some(k)
    ensures var p := InSection(items[k].section);
            var before := Filter(items[..k], p);
            && Filter(items, p) == before + [items[k]] + Filter(items[k + 1..], p)
            && FindFirst(Filter(items, p), HasId(items[k].id)) == Some(|before|)
  {
    FindUnique(items, k);
    var p := InSection(items[k].section);
    var before := Filter(items[..k], p);
    FilterAt(items, p, k);
    var all := Filter(items, p);
    assert all[|before|] == items[k];
    forall m | 0 <= m < |before| ensures !HasId(items[k].id)(all[m]) {
      OtherIdBefore(items, k, before, m);
      assert all[m] == before[m];
    }
    FindFirstAt(all, HasId(items[k].id), |before|);
  }

  /** What is filtered out of the items before k carries another id than items[k]. */
  lemma OtherIdBefore(items: seq<MenuItem>, k: nat, before: seq<MenuItem>, m: nat)
    requires UniqueIds(items) && k < |items|
    requires before == Filter(items[..k], InSection(items[k].section)) && m < |before|
    ensures before[m].id != items[k].id
  {
    assert before[m] in items[..k];
    var i :| 0 <= i < k && items[..k][i] == before[m];
    assert items[i] == before[m];
  }

  /** With unique ids the search by id finds the one item with that id. */
  lemma FindUnique(items: seq<MenuItem>, k: nat)
    requires UniqueIds(items) && k < |items|
    ensures FindFirst(items, HasId(items[k].id)) == Some(k)
  {
    FindFirstAt(items, HasId(items[k].id), k);
  }

  /** Up swaps the item with the nearest earlier item of its section, and changes nothing when there is
      none (the first item of a section stays put). */
  lemma {:induction false} MoveUpSwapsWithPrevious(items: seq<MenuItem>, k: nat)
    requires UniqueIds(items) && k < |items|
    ensures var prev := LastBefore(items, InSection(items[k].section), k);
            && (prev.None? ==> MovedItems(items, items[k].id, Up) == items)
            && (prev.Some? ==> MovedItems(items, items[k].id, Up) == Swap(items, k, prev.value))
  {
    var p := InSection(items[k].section);
    SectionSplit(items, k);
    FilterPrefixLast(items, p, k);
    match LastBefore(items, p, k)
    case None =>
    case Some(j) =>
      var before := Filter(items[..k], p);
      var all := Filter(items, p);
      assert all[|before| - 1] == items[j];
      FindUnique(items, j);
      assert SwapWithId(items, k, items[j].id) == Swap(items, k, j);
      assert MoveAt(items, k, Up) == Swap(items, k, j);
  }

  /** Down swaps the item with the nearest later item of its section, and changes nothing when there is
      none (the last item of a section stays put). */
  lemma {:induction false} MoveDownSwapsWithNext(items: seq<MenuItem>, k: nat)
    requires UniqueIds(items) && k < |items|
    ensures var next := FindFrom(items, InSection(items[k].section), k + 1);
            && (next.None? ==> MovedItems(items, items[k].id, Down) == items)
            && (next.Some? ==> MovedItems(items, items[k].id, Down) == Swap(items, k, next.value))
  {
    var p := InSection(items[k].section);
    SectionSplit(items, k);
    match FindFrom(items, p, k + 1)
    case None =>
      FilterSuffixNone(items, p, k + 1);
    case Some(j) =>
      FilterSuffixFirst(items, p, k + 1, j);
      var before := Filter(items[..k], p);
      var all := Filter(items, p);
      var head, after := before + [items[k]], Filter(items[k + 1..], p);
      assert after[0] == items[j];
      assert all == head + after;
      assert all[|head|] == after[0];
      assert |head| == |before| + 1;
      assert |before| < |all| - 1;
      assert all[|before| + 1] == items[j];
      FindUnique(items, j);
      assert SwapWithId(items, k, all[|before| + 1].id) == Swap(items, k, j);
      MoveAtDown(items, k, |before|);
  }

  lemma MoveAtDown(items: seq<MenuItem>, k: nat, si: nat)
    requires k < |items|
    requires var all := Filter(items, InSection(items[k].section));
             FindFirst(all, HasId(items[k].id)) == Some(si) && si < |all| - 1
    ensures var all := Filter(items, InSection(items[k].section));
            MoveAt(items, k, Down) == SwapWithId(items, k, all[si + 1].id)
  {
  }

  /** Swapping two slots keeps the ids unique. */
  lemma SwapKeepsUnique(items: seq<MenuItem>, i: nat, j: nat)
    requires UniqueIds(items) && i < |items| && j < |items|
    ensures UniqueIds(Swap(items, i, j))
  {
    var r := Swap(items, i, j);
    forall x, y | 0 <= x < y < |r| ensures r[x].id != r[y].id {
      var sx := if x == i then j else if x == j then i else x;
      var sy := if y == i then j else if y == j then i else y;
      assert r[x] == items[sx] && r[y] == items[sy];
    }
  }

  lemma {:induction false} MovedKeepsUnique(items: seq<MenuItem>, itemId: string, dir: Direction)
    requires UniqueIds(items)
    ensures UniqueIds(MovedItems(items, itemId, dir))
  {
    match FindFirst(items, HasId(itemId))
    case None =>
    case Some(k) =>
      if dir == Up {
        UpKeepsUnique(items, k);
      } else {
        DownKeepsUnique(items, k);
      }
  }

  lemma {:induction false} UpKeepsUnique(items: seq<MenuItem>, k: nat)
    requires UniqueIds(items) && k < |items|
    ensures UniqueIds(MovedItems(items, items[k].id, Up))
  {
    MoveUpSwapsWithPrevious(items, k);
    match LastBefore(items, InSection(items[k].section), k)
    case None =>
    case Some(j) => SwapKeepsUnique(items, k, j);
  }

  lemma {:induction false} DownKeepsUnique(items: seq<MenuItem>, k: nat)
    requires UniqueIds(items) && k < |items|
    ensures UniqueIds(MovedItems(items, items[k].id, Down))
  {
    MoveDownSwapsWithNext(items, k);
    match FindFrom(items, InSection(items[k].section), k + 1)
    case None =>
    case Some(j) => SwapKeepsUnique(items, k, j);
  }

  /** toggleVisibility */
  function Toggled(items: seq<MenuItem>, itemId: string): (r: seq<MenuItem>)
    ensures |r| == |items|
    ensures forall i :: 0 <= i < |r| ==>
              if items[i].id == itemId then r[i] == items[i].(visible := !items[i].visible) else r[i] == items[i]
  {
    seq(|items|, i requires 0 <= i < |items| =>
      if items[i].id == itemId then items[i].(visible := !items[i].visible) else items[i])
  }

  lemma {:induction false} ToggleTwice(items: seq<MenuItem>, itemId: string)
    ensures Toggled(Toggled(items, itemId), itemId) == items
  {
    var r := Toggled(Toggled(items, itemId), itemId);
    assert forall i :: 0 <= i < |items| ==> r[i] == items[i];
  }

  /** moveToSection */
  function Resectioned(items: seq<MenuItem>, itemId: string, section: Section): (r: seq<MenuItem>)
    ensures |r| == |items|
    ensures forall i :: 0 <= i < |r| ==>
              if items[i].id == itemId then r[i] == items[i].(section := section) else r[i] == items[i]
  {
    seq(|items|, i requires 0 <= i < |items| => if items[i].id == itemId then items[i].(section := section) else items[i])
  }

  /** Moving to a section keeps the menu order: the ids read the same before and after. */
  lemma ResectionedKeepsOrder(items: seq<MenuItem>, itemId: string, section: Section)
    ensures forall i :: 0 <= i < |items| ==> Resectioned(items, itemId, section)[i].id == items[i].id
    ensures UniqueIds(items) ==> UniqueIds(Resectioned(items, itemId, section))
  {
  }

  /** reorderItems: the active item taken out and put back at the over item's index. */
  function Reordered(items: seq<MenuItem>, activeId: string, overId: string): (r: seq<MenuItem>)
    ensures |r| == |items| && multiset(r) == multiset(items)
    ensures FindFirst(items, HasId(activeId)).None? || FindFirst(items, HasId(overId)).None? ==> r == items
  {
    match (FindFirst(items, HasId(activeId)), FindFirst(items, HasId(overId)))
    case (Some(a), Some(o)) => InsertAt(RemoveAt(items, a), o, items[a])
    case _ => items
  }

  /** Where row t of the reordered list comes from. */
  function SpliceSource(a: nat, o: nat, t: nat): nat
  {
    if a <= o then (if t < a || t > o then t else if t == o then a else t + 1)
    else (if t < o || t > a then t else if t == o then a else t - 1)
  }

  /** The active item lands at the over index and the other items keep their relative order. */
  lemma ReorderedMoves(items: seq<MenuItem>, a: nat, o: nat)
    requires a < |items| && o < |items|
    ensures var r := InsertAt(RemoveAt(items, a), o, items[a]);
            && r[o] == items[a]
            && RemoveAt(r, o) == RemoveAt(items, a)
            && forall t :: 0 <= t < |items| ==> SpliceSource(a, o, t) < |items| && r[t] == items[SpliceSource(a, o, t)]
  {
    RemoveInserted(RemoveAt(items, a), o, items[a]);
  }

  lemma ReorderedKeepsUnique(items: seq<MenuItem>, activeId: string, overId: string)
    requires UniqueIds(items)
    ensures UniqueIds(Reordered(items, activeId, overId))
  {
    match (FindFirst(items, HasId(activeId)), FindFirst(items, HasId(overId)))
    case (Some(a), Some(o)) =>
      ReorderedMoves(items, a, o);
      var r := Reordered(items, activeId, overId);
      forall x, y | 0 <= x < y < |r| ensures r[x].id != r[y].id {
        SpliceSourceInjective(a, o, x, y);
        DistinctRowsDistinctIds(items, SpliceSource(a, o, x), SpliceSource(a, o, y));
      }
    case _ =>
  }

  lemma SpliceSourceInjective(a: nat, o: nat, x: nat, y: nat)
    requires x < y
    ensures SpliceSource(a, o, x) != SpliceSource(a, o, y)
  {
  }

  lemma DistinctRowsDistinctIds(items: seq<MenuItem>, x: nat, y: nat)
    requires UniqueIds(items) && x < |items| && y < |items| && x != y
    ensures items[x].id != items[y].id
  {
    if y < x {
      assert items[y].id != items[x].id;
    }
  }

  /** updateSettings: `{ ...prev, ...settings }` without items. */
  function Patched(p: Preferences, patch: SettingsPatch): (r: Preferences)
    ensures r.items == p.items
    ensures r.compactMode == patch.compactMode.GetOr(p.compactMode)
    ensures r.showLabels == patch.showLabels.GetOr(p.showLabels)
    ensures r.showIcons == patch.showIcons.GetOr(p.showIcons)
    ensures r.iconSize == patch.iconSize.GetOr(p.iconSize)
  {
    Preferences(p.items, patch.compactMode.GetOr(p.compactMode), patch.showLabels.GetOr(p.showLabels),
                patch.showIcons.GetOr(p.showIcons), patch.iconSize.GetOr(p.iconSize))
  }

  /** An empty patch changes nothing, and applying a patch twice is applying it once. */
  lemma PatchedLaws(p: Preferences, patch: SettingsPatch)
    ensures Patched(p, SettingsPatch(None, None, None, None)) == p
    ensures Patched(Patched(p, patch), patch) == Patched(p, patch)
  {
  }

  /** `[items[i], items[j]] = [items[j], items[i]]` on an array copy of the items. */
  method SwapSlots(items: seq<MenuItem>, i: nat, j: nat) returns (r: seq<MenuItem>)
    requires i < |items| && j < |items|
    ensures r == Swap(items, i, j)
  {
    var a := new MenuItem[|items|](k requires 0 <= k < |items| => items[k]);
    a[i], a[j] := a[j], a[i];
    r := a[..];
  }

  /** `const [removed] = a.splice(ai, 1); a.splice(oi, 0, removed)` on an array copy of the items: the
      slots between the two indices shift by one towards ai and the removed item lands at oi. */
  method SpliceMove(items: seq<MenuItem>, ai: nat, oi: nat) returns (r: seq<MenuItem>)
    requires ai < |items| && oi < |items|
    ensures r == InsertAt(RemoveAt(items, ai), oi, items[ai])
  {
    var a := new MenuItem[|items|](k requires 0 <= k < |items| => items[k]);
    assert a[..] == items;
    var removed := a[ai];
    if ai <= oi {
      ShiftLeft(a, ai, oi);
      a[oi] := removed;
      r := a[..];
      assert forall x :: 0 <= x < |r| && !(ai <= x <= oi) ==> r[x] == items[x];
      assert forall x :: ai <= x < oi ==> r[x] == items[x + 1];
      SplicedBySource(items, ai, oi, r);
    } else {
      ShiftRight(a, oi, ai);
      a[oi] := removed;
      r := a[..];
      assert forall x :: 0 <= x < |r| && !(oi <= x <= ai) ==> r[x] == items[x];
      assert forall x :: oi < x <= ai ==> r[x] == items[x - 1];
      SplicedBySource(items, ai, oi, r);
    }
  }

  /** a[lo..hi] := old a[lo + 1..hi + 1] */
  method ShiftLeft(a: array<MenuItem>, lo: nat, hi: nat)
    requires lo <= hi < a.Length
    modifies a
    ensures forall x :: 0 <= x < a.Length && !(lo <= x < hi) ==> a[x] == old(a[x])
    ensures forall x :: lo <= x < hi ==> a[x] == old(a[x + 1])
  {
    var t := lo;
    while t < hi
      invariant lo <= t <= hi
      invariant forall x :: 0 <= x < a.Length && !(lo <= x < t) ==> a[x] == old(a[x])
      invariant forall x :: lo <= x < t ==> a[x] == old(a[x + 1])
    {
      a[t] := a[t + 1];
      t := t + 1;
    }
  }

  /** a[lo + 1..hi + 1] := old a[lo..hi] */
  method ShiftRight(a: array<MenuItem>, lo: nat, hi: nat)
    requires lo <= hi < a.Length
    modifies a
    ensures forall x :: 0 <= x < a.Length && !(lo < x <= hi) ==> a[x] == old(a[x])
    ensures forall x :: lo < x <= hi ==> a[x] == old(a[x - 1])
  {
    var t := hi;
    while t > lo
      invariant lo <= t <= hi
      invariant forall x :: 0 <= x < a.Length && !(t < x <= hi) ==> a[x] == old(a[x])
      invariant forall x :: t < x <= hi ==> a[x] == old(a[x - 1])
    {
      a[t] := a[t - 1];
      t := t - 1;
    }
  }

  /** A list whose every row comes from the place SpliceSource names is the spliced list. */
  lemma SplicedBySource(items: seq<MenuItem>, ai: nat, oi: nat, r: seq<MenuItem>)
    requires ai < |items| && oi < |items| && |r| == |items|
    requires ai <= oi ==> (forall x :: 0 <= x < |r| && !(ai <= x <= oi) ==> r[x] == items[x])
                          && (forall x :: ai <= x < oi ==> r[x] == items[x + 1]) && r[oi] == items[ai]
    requires oi < ai ==> (forall x :: 0 <= x < |r| && !(oi <= x <= ai) ==> r[x] == items[x])
                         && (forall x :: oi < x <= ai ==> r[x] == items[x - 1]) && r[oi] == items[ai]
    ensures r == InsertAt(RemoveAt(items, ai), oi, items[ai])
  {
    ReorderedMoves(items, ai, oi);
    var target := InsertAt(RemoveAt(items, ai), oi, items[ai]);
    forall x | 0 <= x < |r| ensures r[x] == target[x] {
      assert target[x] == items[SpliceSource(ai, oi, x)];
    }
  }

  /** The hook's state. */
  class MenuStore {
    var preferences: Preferences

    ghost predicate Valid()
      reads this
    {
      UniqueIds(preferences.items)
    }

    constructor ()
      ensures Valid() && preferences == DefaultPreferences
    {
      DefaultIdsUnique();
      preferences := DefaultPreferences;
    }

    /** moveItem: copies the items into an array and swaps two slots in it. */
    method MoveItem(itemId: string, dir: Direction)
      requires Valid()
      modifies this
      ensures Valid()
      ensures preferences == old(preferences).(items := MovedItems(old(preferences).items, itemId, dir))
    {
      var items := preferences.items;
      MovedKeepsUnique(items, itemId, dir);
      var found := FindFirst(items, HasId(itemId));
      if found.None? {
        return;
      }
      var index := found.value;
      assert items[index].id == itemId;
      var sectionItems := Filter(items, InSection(items[index].section));
      var sectionIndex := FindFirst(sectionItems, HasId(itemId));
      if sectionIndex.None? {
        return;
      }
      var si := sectionIndex.value;
      var otherId: Option<string> := None;
      if dir == Up && si > 0 {
        otherId := Some(sectionItems[si - 1].id);
      } else if dir == Down && si < |sectionItems| - 1 {
        otherId := Some(sectionItems[si + 1].id);
      }
      if otherId.None? {
        return;
      }
      assert MovedItems(items, itemId, dir) == SwapWithId(items, index, otherId.value);
      var other := FindFirst(items, HasId(otherId.value));
      if other.None? {
        return;
      }
      var swapped := SwapSlots(items, index, other.value);
      preferences := preferences.(items := swapped);
    }

    method ToggleVisibility(itemId: string)
      requires Valid()
      modifies this
      ensures Valid()
      ensures preferences == old(preferences).(items := Toggled(old(preferences).items, itemId))
    {
      preferences := preferences.(items := Toggled(preferences.items, itemId));
    }

    method MoveToSection(itemId: string, section: Section)
      requires Valid()
      modifies this
      ensures Valid()
      ensures preferences == old(preferences).(items := Resectioned(old(preferences).items, itemId, section))
    {
      ResectionedKeepsOrder(preferences.items, itemId, section);
      preferences := preferences.(items := Resectioned(preferences.items, itemId, section));
    }

    method UpdateSettings(patch: SettingsPatch)
      requires Valid()
      modifies this
      ensures Valid()
      ensures preferences == Patched(old(preferences), patch)
    {
      preferences := Patched(preferences, patch);
    }

    /** reorderItems: removes the active item from an array copy, shifting the slots between the two
        indices by one, and writes it back at the over index. */
    method ReorderItems(activeId: string, overId: string)
      requires Valid()
      modifies this
      ensures Valid()
      ensures preferences == old(preferences).(items := Reordered(old(preferences).items, activeId, overId))
    {
      var items := preferences.items;
      ReorderedKeepsUnique(items, activeId, overId);
      var fa, fo := FindFirst(items, HasId(activeId)), FindFirst(items, HasId(overId));
      if fa.None? || fo.None? {
        return;
      }
      var moved := SpliceMove(items, fa.value, fo.value);
      preferences := preferences.(items := moved);
    }

    method ResetToDefault()
      modifies this
      ensures Valid()
      ensures preferences == DefaultPreferences
    {
      DefaultIdsUnique();
      preferences := DefaultPreferences;
    }
  }
}
