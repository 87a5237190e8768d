/** The budget registry: status changes, deletion behind a confirmation, the search and status filter,
    and the figures above the table. */
module Orcamentos {
  import opened Wrappers
  import opened Seqs
  import opened Text

  datatype Status = Rascunho | Enviado | Aprovado | Recusado | EmAndamento | Concluido

  datatype Budget = Budget(id: string, number: string, client: string, project: string, value: real,
                           status: Status, createdAt: string, validUntil: string)

  /** The status select: "all" or one status. */
  datatype StatusFilter = All | Only(status: Status)

  /** The four cards above the table. */
  datatype Stats = Stats(total: nat, approved: nat, pending: nat, value: real)

  function HasId(id: string): Budget -> bool
  {
    (b: Budget) => b.id == id
  }

  function HasStatus(s: Status): Budget -> bool
  {
    (b: Budget) => b.status == s
  }

  function ValueOf(b: Budget): real
  {
    b.value
  }

  /** handleStatusChange: the budgets with that id get the new status; nothing else changes. */
  function StatusChanged(bs: seq<Budget>, id: string, s: Status): (r: seq<Budget>)
    ensures |r| == |bs|
    ensures forall i :: 0 <= i < |bs| ==> r[i].(status := bs[i].status) == bs[i]
    ensures forall i :: 0 <= i < |bs| && bs[i].id == id ==> r[i].status == s
    ensures forall i :: 0 <= i < |bs| && bs[i].id != id ==> r[i] == bs[i]
  {
    seq(|bs|, i requires 0 <= i < |bs| => if bs[i].id == id then bs[i].(status := s) else bs[i])
  }

  /** The last status change of a budget is the one that counts. */
  lemma StatusChangedTwice(bs: seq<Budget>, id: string, s: Status, t: Status)
    ensures StatusChanged(StatusChanged(bs, id, s), id, t) == StatusChanged(bs, id, t)
  {
    var a, b := StatusChanged(StatusChanged(bs, id, s), id, t), StatusChanged(bs, id, t);
    forall i | 0 <= i < |bs| ensures a[i] == b[i] {
      assert StatusChanged(bs, id, s)[i].id == bs[i].id;
    }
  }

  /** Approving a budget that was waiting for an answer moves it from the pending card to the approved
      card, when ids are unique. */
  lemma ApproveMovesCount(bs: seq<Budget>, id: string)
    requires Count(bs, HasId(id)) == 1
    requires forall b :: b in bs && b.id == id ==> b.status == Enviado
    ensures var r := StatusChanged(bs, id, Aprovado);
            && Count(r, HasStatus(Aprovado)) == Count(bs, HasStatus(Aprovado)) + 1
            && Count(r, HasStatus(Enviado)) + 1 == Count(bs, HasStatus(Enviado))
  {
    ChangeShiftsCount(bs, id, Enviado, Aprovado, Aprovado);
    ChangeShiftsCount(bs, id, Enviado, Aprovado, Enviado);
  }

  /** Changing the status of the one budget with that id from s to t adds one to the count of t and takes
      one from the count of s. */
  lemma {:induction false} ChangeShiftsCount(bs: seq<Budget>, id: string, s: Status, t: Status, u: Status)
    requires s != t
    requires Count(bs, HasId(id)) == 1
    requires forall b :: b in bs && b.id == id ==> b.status == s
    ensures Count(StatusChanged(bs, id, t), HasStatus(u)) ==
            Count(bs, HasStatus(u)) + (if u == t then 1 else 0) - (if u == s then 1 else 0)
  {
    var x, rest := bs[0], bs[1..];
    assert bs == [x] + rest;
    ChangedCons(x, rest, id, t);
    CountCons(x, rest, HasId(id));
    CountCons(x, rest, HasStatus(u));
    CountCons(if x.id == id then x.(status := t) else x, StatusChanged(rest, id, t), HasStatus(u));
    if x.id == id {
      UntouchedWithoutId(rest, id, t);
    } else {
      ChangeShiftsCount(rest, id, s, t, u);
    }
  }

  lemma ChangedCons(x: Budget, rest: seq<Budget>, id: string, s: Status)
    ensures StatusChanged([x] + rest, id, s) ==
            [if x.id == id then x.(status := s) else x] + StatusChanged(rest, id, s)
  {
    var a, b := StatusChanged([x] + rest, id, s), [if x.id == id then x.(status := s) else x] + StatusChanged(rest, id, s);
    assert |a| == |b|;
    forall i | 0 <= i < |a| ensures a[i] == b[i] {
      if i > 0 { assert ([x] + rest)[i] == rest[i - 1]; }
    }
  }

  lemma UntouchedWithoutId(bs: seq<Budget>, id: string, s: Status)
    requires Count(bs, HasId(id)) == 0
    ensures StatusChanged(bs, id, s) == bs
  {
    assert forall i :: 0 <= i < |bs| ==> !HasId(id)(bs[i]);
  }

  /** handleConfirmDelete: the pending budget's id is filtered out; with nothing pending, nothing
      changes. */
  function ConfirmDelete(bs: seq<Budget>, pending: Option<Budget>): (r: seq<Budget>)
    ensures pending.None? ==> r == bs
    ensures pending.Some? ==> forall b :: b in r <==> b in bs && b.id != pending.value.id
    ensures pending.Some? ==> |r| + Count(bs, HasId(pending.value.id)) == |bs|
  {
    match pending
    case None => bs
    case Some(b) =>
      var keep := (x: Budget) => x.id != b.id;
      CountSplit(bs, HasId(b.id), keep);
      Filter(bs, keep)
  }

  /** Confirming the same deletion again changes nothing more. */
  lemma ConfirmDeleteIdempotent(bs: seq<Budget>, pending: Option<Budget>)
    ensures ConfirmDelete(ConfirmDelete(bs, pending), pending) == ConfirmDelete(bs, pending)
  {
    if pending.Some? {
      FilterIdempotent(bs, (x: Budget) => x.id != pending.value.id);
    }
  }

  /** The search box and the status select of the table. */
  predicate Listed(b: Budget, search: string, filter: StatusFilter)
  {
    && (Matches(b.client, search) || Matches(b.project, search) || Matches(b.number, search))
    && (filter.All? || b.status == filter.status)
  }

  function IsListed(search: string, filter: StatusFilter): Budget -> bool
  {
    (b: Budget) => Listed(b, search, filter)
  }

  /** filteredBudgets: the listed budgets, in registry order. */
  function FilteredBudgets(bs: seq<Budget>, search: string, filter: StatusFilter): (r: seq<Budget>)
    ensures forall b :: b in r <==> b in bs && Listed(b, search, filter)
    ensures forall b :: multiset(r)[b] == if Listed(b, search, filter) then multiset(bs)[b] else 0
  {
    FilterMultiset(bs, IsListed(search, filter));
    Filter(bs, IsListed(search, filter))
  }

  /** With an empty search and "all" selected, the table shows the whole registry. */
  lemma EmptySearchListsAll(bs: seq<Budget>)
    ensures FilteredBudgets(bs, "", All) == bs
  {
    forall b | b in bs ensures IsListed("", All)(b) {
      MatchesEmpty(b.client);
    }
    FilterAll(bs, IsListed("", All));
  }

  /** totalValue: the sum of the values of the listed budgets. */
  function TotalValue(bs: seq<Budget>, search: string, filter: StatusFilter): (r: real)
    ensures r == Sum(bs, (b: Budget) => if Listed(b, search, filter) then b.value else 0.0)
  {
    SumFilter(bs, IsListed(search, filter), ValueOf, (b: Budget) => if Listed(b, search, filter) then b.value else 0.0);
    Sum(FilteredBudgets(bs, search, filter), ValueOf)
  }

  /** With nonnegative values, the total of the listed budgets lies between 0 and the registry's total. */
  lemma TotalValueBounds(bs: seq<Budget>, search: string, filter: StatusFilter)
    requires forall b :: b in bs ==> b.value >= 0.0
    ensures 0.0 <= TotalValue(bs, search, filter) <= Sum(bs, ValueOf)
  {
    var g := (b: Budget) => if Listed(b, search, filter) then b.value else 0.0;
    SumFilter(bs, IsListed(search, filter), ValueOf, g);
    SumMonotone(bs, g, ValueOf);
    SumNonNegative(bs, g);
  }

  /** The stats cards: all budgets, approved ones, ones sent and awaiting an answer, and the listed
      total. */
  function BudgetStats(bs: seq<Budget>, search: string, filter: StatusFilter): (r: Stats)
    ensures r.total == |bs| && r.value == TotalValue(bs, search, filter)
    ensures r.approved == Count(bs, HasStatus(Aprovado)) && r.pending == Count(bs, HasStatus(Enviado))
    ensures r.approved + r.pending <= r.total
    ensures r.approved == 0 <==> forall b :: b in bs ==> b.status != Aprovado
    ensures r.pending == 0 <==> forall b :: b in bs ==> b.status != Enviado
  {
    CountDisjoint(bs, HasStatus(Aprovado), HasStatus(Enviado));
    Stats(|bs|, Count(bs, HasStatus(Aprovado)), Count(bs, HasStatus(Enviado)), TotalValue(bs, search, filter))
  }
}
