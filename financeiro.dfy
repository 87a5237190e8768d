/** The cash ledger: income (entrada) and expense (saída) transactions, kept sorted by date, newest first,
    with month filtering, category tabs, totals and a per-month summary. */
module Financeiro {
  import opened Wrappers
  import opened Seqs
  import opened Text

  datatype Kind = Entrada | Saida

  datatype Category = Material | Ferramenta | Pagamento | Vale | Recebimento

  /** `received` means received for an entrada and paid for a saída. */
  datatype Transaction = Transaction(id: string, kind: Kind, category: Category, description: string,
                                     value: real, date: string, project: Option<string>, received: bool)

  /** The dialog's fields; the value is still the text typed in. */
  datatype Form = Form(kind: Kind, category: Category, description: string, value: string, date: string,
                       project: string, received: bool)

  /** One row of the monthly summary. */
  datatype MonthRow = MonthRow(month: string, entradas: real, saidas: real, saldo: real)

  datatype Totals = Totals(entradas: real, entradasRecebidas: real, saidas: real, saidasPagas: real, saldo: real, projetado: real)

  const MonthNames: seq<string> := ["Janeiro", "Fevereiro", "Março", "Abril", "Maio", "Junho",
                                    "Julho", "Agosto", "Setembro", "Outubro", "Novembro", "Dezembro"]

  // ---------------------------------------------------------------------------------------------
  // Dates and month keys

  function DigitValue(c: char): (n: nat)
    requires IsDigit(c)
    ensures n < 10
  {
    c as int - '0' as int
  }

  /** A calendar date as the date input produces it: YYYY-MM-DD with month 1..12 and day 1..31. */
  predicate IsIsoDate(d: string)
  {
    && |d| == 10 && d[4] == '-' && d[7] == '-'
    && IsDigit(d[0]) && IsDigit(d[1]) && IsDigit(d[2]) && IsDigit(d[3])
    && IsDigit(d[5]) && IsDigit(d[6]) && IsDigit(d[8]) && IsDigit(d[9])
    && 1 <= Month(d) <= 12 && 1 <= Day(d) <= 31
  }

  function Year(d: string): nat
    requires |d| == 10 && IsDigit(d[0]) && IsDigit(d[1]) && IsDigit(d[2]) && IsDigit(d[3])
  {
    1000 * DigitValue(d[0]) + 100 * DigitValue(d[1]) + 10 * DigitValue(d[2]) + DigitValue(d[3])
  }

  function Month(d: string): nat
    requires |d| == 10 && IsDigit(d[5]) && IsDigit(d[6])
  {
    10 * DigitValue(d[5]) + DigitValue(d[6])
  }

  function Day(d: string): nat
    requires |d| == 10 && IsDigit(d[8]) && IsDigit(d[9])
  {
    10 * DigitValue(d[8]) + DigitValue(d[9])
  }

  /** String(month).padStart(2, "0") for a month number. */
  function Pad2(m: nat): (r: string)
    requires 1 <= m <= 12
    ensures |r| == 2 && IsDigit(r[0]) && IsDigit(r[1]) && 10 * DigitValue(r[0]) + DigitValue(r[1]) == m
  {
    if m < 10 then ['0', DigitChar(m)] else ['1', DigitChar(m - 10)]
  }

  /** String(year) for a year that may have gone below zero. */
  function YearText(y: int): string
  {
    if y >= 0 then NatToString(y) else "-" + NatToString(-y)
  }

  /** `${year}-${month padded}`, the key the page groups by. */
  function Key(y: int, m: nat): (r: string)
    requires 1 <= m <= 12
    ensures |r| >= 3 && r[|r| - 3] == '-' && r[|r| - 2..] == Pad2(m)
  {
    YearText(y) + "-" + Pad2(m)
  }

  /** The year and month of the date as the page computes them: the date is parsed as midnight UTC and
      read back in local time, so west of UTC the first day of a month lands in the previous month. */
  function MonthKeyAsWritten(d: string, westOfUtc: bool): (r: string)
    ensures !IsIsoDate(d) ==> r == "NaN-NaN"
    ensures IsIsoDate(d) && (!westOfUtc || Day(d) != 1) ==> r == Key(Year(d), Month(d))
    ensures IsIsoDate(d) && westOfUtc && Day(d) == 1 && Month(d) == 1 ==> r == Key(Year(d) - 1, 12)
    ensures IsIsoDate(d) && westOfUtc && Day(d) == 1 && Month(d) > 1 ==> r == Key(Year(d), Month(d) - 1)
  {
    if !IsIsoDate(d) then "NaN-NaN"
    else if !westOfUtc || Day(d) != 1 then Key(Year(d), Month(d))
    else if Month(d) == 1 then Key(Year(d) - 1, 12)
    else Key(Year(d), Month(d) - 1)
  }

  /** The month a date is written in, the grouping the page intends. */
  function MonthKey(d: string): (r: string)
    ensures !IsIsoDate(d) ==> r == "NaN-NaN"
    ensures IsIsoDate(d) ==> r == Key(Year(d), Month(d))
  {
    if IsIsoDate(d) then Key(Year(d), Month(d)) else "NaN-NaN"
  }

  /** Everywhere west of UTC, a transaction dated on the first of a month is counted in another month than
      the one it is dated in. */
  lemma FirstOfMonthMisfiled(d: string)
    requires IsIsoDate(d) && Day(d) == 1
    ensures MonthKeyAsWritten(d, true) != MonthKey(d)
  {
    var r, k := MonthKeyAsWritten(d, true), MonthKey(d);
    var m' := if Month(d) == 1 then 12 else Month(d) - 1;
    assert r[|r| - 2..] == Pad2(m');
    assert k[|k| - 2..] == Pad2(Month(d));
  }

  /** The concrete case: 1 March 2024 in Brasília time is filed under February. */
  lemma FirstOfMarchExample()
    ensures MonthKeyAsWritten("2024-03-01", true) == "2024-02"
    ensures MonthKey("2024-03-01") == "2024-03"
  {
    assert IsIsoDate("2024-03-01");
    assert Year("2024-03-01") == 2024;
    assert NatToString(2) == "2" && NatToString(20) == "20" && NatToString(202) == "202";
    assert NatToString(2024) == "2024";
  }

  /** Is the character not a decimal digit. */
  predicate IsDash(c: char)
  {
    c == '-'
  }

  /** monthNames[parseInt(month) - 1], "undefined" when that is no index of the list. */
  function MonthName(n: Option<int>): (r: string)
    ensures n.Some? && 1 <= n.value <= 12 ==> r == MonthNames[n.value - 1]
    ensures !(n.Some? && 1 <= n.value <= 12) ==> r == "undefined"
  {
    if n.Some? && 1 <= n.value <= 12 then MonthNames[n.value - 1] else "undefined"
  }

  /** formatMonthYear: split the key at its dashes and name the month of the second piece. */
  function FormatMonthYear(monthYear: string): (r: string)
    ensures FindFirst(monthYear, IsDash).None? ==> r == "undefined " + monthYear
  {
    match FindFirst(monthYear, IsDash)
    case None => "undefined " + monthYear
    case Some(i) =>
      var rest := monthYear[i + 1..];
      var month := match FindFirst(rest, IsDash) case None => rest case Some(j) => rest[..j];
      MonthName(ParseIntPrefix(month)) + " " + monthYear[..i]
  }

  /** In a key built from a year of digits, the first dash is the one after the year. */
  lemma {:induction false} KeyFirstDash(y: nat, m: nat)
    requires 1 <= m <= 12
    ensures FindFirst(Key(y, m), IsDash) == Some(|NatToString(y)|)
  {
    var t := NatToString(y);
    var key := Key(y, m);
    assert key == t + "-" + Pad2(m);
    assert forall j :: 0 <= j < |t| ==> key[j] == t[j];
    FindFirstAt(key, IsDash, |t|);
  }

  /** The two digits of a padded month read back as that month. */
  lemma {:induction false} Pad2Parses(m: nat)
    requires 1 <= m <= 12
    ensures FindFirst(Pad2(m), IsDash).None?
    ensures ParseIntPrefix(Pad2(m)) == Some(m)
  {
    var p := Pad2(m);
    assert forall i :: 0 <= i < |p| ==> IsDigit(p[i]);
    assert p[..1] == [p[0]] && p[..1][..0] == [];
    assert ParseDigits(p[..1]) == DigitValue(p[0]);
    assert ParseDigits(p) == 10 * DigitValue(p[0]) + DigitValue(p[1]);
  }

  /** With one dash, formatMonthYear names the month after it and shows the year before it. */
  lemma {:induction false} FormatAtDash(s: string, i: nat)
    requires FindFirst(s, IsDash) == Some(i) && FindFirst(s[i + 1..], IsDash).None?
    ensures FormatMonthYear(s) == MonthName(ParseIntPrefix(s[i + 1..])) + " " + s[..i]
  {
  }

  /** formatMonthYear names the month and the year of any key built from a year and a month. */
  lemma {:induction false} FormatKey(y: nat, m: nat)
    requires 1 <= m <= 12
    ensures FormatMonthYear(Key(y, m)) == MonthNames[m - 1] + " " + NatToString(y)
  {
    var t := NatToString(y);
    KeySplit(y, m);
    Pad2Parses(m);
    FormatAtDash(Key(y, m), |t|);
  }

  /** A key splits at its first dash into the year's digits and the padded month. */
  lemma {:induction false} KeySplit(y: nat, m: nat)
    requires 1 <= m <= 12
    ensures FindFirst(Key(y, m), IsDash) == Some(|NatToString(y)|)
    ensures Key(y, m)[|NatToString(y)| + 1..] == Pad2(m) && Key(y, m)[..|NatToString(y)|] == NatToString(y)
  {
    var t := NatToString(y);
    var key := Key(y, m);
    KeyFirstDash(y, m);
    assert key == t + "-" + Pad2(m);
    assert key[|t| + 1..] == Pad2(m);
    assert key[..|t|] == t;
  }

  /** For a real date, formatMonthYear of its key gives the month's Portuguese name and the year. */
  lemma FormatMonthKey(d: string)
    requires IsIsoDate(d)
    ensures FormatMonthYear(MonthKey(d)) == MonthNames[Month(d) - 1] + " " + NatToString(Year(d))
  {
    FormatKey(Year(d), Month(d));
  }

  // ---------------------------------------------------------------------------------------------
  // Saving, deleting and settling transactions

  /** value.replace(",", "."): only the first comma becomes a point. */
  function CommaToPoint(s: string): (r: string)
    ensures |r| == |s|
    ensures FindFirst(s, IsComma).None? ==> r == s
    ensures FindFirst(s, IsComma).Some? ==>
              var i := FindFirst(s, IsComma).value;
              r[i] == '.' && forall j :: 0 <= j < |s| && j != i ==> r[j] == s[j]
  {
    match FindFirst(s, IsComma)
    case None => s
    case Some(i) => s[i := '.']
  }

  predicate IsComma(c: char)
  {
    c == ','
  }

  /** handleSave up to the sort: the validation errors, in order, or the transaction to store. `parse`
      stands for parseFloat, None for NaN. */
  function BuildTransaction(form: Form, editing: Option<Transaction>, newId: string, parse: string -> Option<real>)
    : (r: Result<Transaction, string>)
    ensures IsBlank(form.description) || form.value == "" || form.date == "" ==>
              r == Failure("Preencha todos os campos obrigatórios")
    ensures !(IsBlank(form.description) || form.value == "" || form.date == "") ==>
              var v := parse(CommaToPoint(form.value));
              (v.None? || v.value <= 0.0 ==> r == Failure("Valor inválido"))
              && (v.Some? && v.value > 0.0 ==> r.Success? && r.value.value == v.value)
    ensures r.Success? ==>
              && r.value.value > 0.0
              && r.value.id == (if editing.Some? && editing.value.id != "" then editing.value.id else newId)
              && r.value.kind == form.kind && r.value.category == form.category
              && r.value.description == Trim(form.description) && r.value.description != ""
              && r.value.date == form.date && r.value.received == form.received
              && (r.value.project.None? <==> IsBlank(form.project))
              && (r.value.project.Some? ==> r.value.project.value == Trim(form.project))
  {
    if IsBlank(form.description) || form.value == "" || form.date == "" then
      Failure("Preencha todos os campos obrigatórios")
    else match parse(CommaToPoint(form.value))
      case None => Failure("Valor inválido")
      case Some(v) =>
        if v <= 0.0 then Failure("Valor inválido")
        else
          var id := if editing.Some? && editing.value.id != "" then editing.value.id else newId;
          var project := if Trim(form.project) == "" then None else Some(Trim(form.project));
          Success(Transaction(id, form.kind, form.category, Trim(form.description), v, form.date, project, form.received))
  }

  /** The list before sorting: the edited transaction replaced, or the new one appended. */
  function Updated(ts: seq<Transaction>, t: Transaction, editing: Option<Transaction>): (r: seq<Transaction>)
    ensures editing.None? ==> r == ts + [t]
    ensures editing.Some? ==> |r| == |ts| && forall i :: 0 <= i < |ts| ==>
              r[i] == if ts[i].id == editing.value.id then t else ts[i]
  {
    match editing
    case None => ts + [t]
    case Some(e) => seq(|ts|, i requires 0 <= i < |ts| => if ts[i].id == e.id then t else ts[i])
  }

  /** Newest first: no transaction is dated after one that precedes it. */
  predicate DateDesc(s: seq<Transaction>)
  {
    forall i, j :: 0 <= i < j < |s| ==> LexLe(s[j].date, s[i].date)
  }

  /** handleConfirmDelete: every transaction with the pending one's id goes, or nothing when none is pending. */
  function Deleted(ts: seq<Transaction>, target: Option<Transaction>): (r: seq<Transaction>)
    ensures target.None? ==> r == ts
    ensures target.Some? ==> forall t :: t in r <==> t in ts && t.id != target.value.id
  {
    match target
    case None => ts
    case Some(x) => Filter(ts, (t: Transaction) => t.id != x.id)
  }

  /** Deleting keeps the ledger newest first. */
  lemma {:induction false} FilterKeepsDateDesc(ts: seq<Transaction>, p: Transaction -> bool)
    requires DateDesc(ts)
    ensures DateDesc(Filter(ts, p))
  {
    if ts != [] {
      assert DateDesc(ts[1..]) by {
        forall i, j | 0 <= i < j < |ts| - 1 ensures LexLe(ts[1..][j].date, ts[1..][i].date) {
          assert ts[1..][i] == ts[i + 1] && ts[1..][j] == ts[j + 1];
        }
      }
      FilterKeepsDateDesc(ts[1..], p);
      var rest := Filter(ts[1..], p);
      if p(ts[0]) {
        var r := [ts[0]] + rest;
        forall i, j | 0 <= i < j < |r| ensures LexLe(r[j].date, r[i].date) {
          if i == 0 {
            assert r[j] in ts[1..];
            var k :| 0 <= k < |ts[1..]| && ts[1..][k] == r[j];
            assert ts[k + 1] == r[j];
          } else {
            assert r[i] == rest[i - 1] && r[j] == rest[j - 1];
          }
        }
      }
    }
  }

  lemma DeletedKeepsDateDesc(ts: seq<Transaction>, target: Option<Transaction>)
    requires DateDesc(ts)
    ensures DateDesc(Deleted(ts, target))
  {
    if target.Some? {
      FilterKeepsDateDesc(ts, (t: Transaction) => t.id != target.value.id);
    }
  }

  /** handleToggleReceived: flip `received` of the transactions with that id. */
  function Toggled(ts: seq<Transaction>, id: string): (r: seq<Transaction>)
    ensures |r| == |ts|
    ensures forall i :: 0 <= i < |ts| ==>
              r[i] == if ts[i].id == id then ts[i].(received := !ts[i].received) else ts[i]
  {
    seq(|ts|, i requires 0 <= i < |ts| => if ts[i].id == id then ts[i].(received := !ts[i].received) else ts[i])
  }

  /** Toggling twice is the identity, and toggling keeps the ledger newest first. */
  lemma ToggleTwice(ts: seq<Transaction>, id: string)
    ensures Toggled(Toggled(ts, id), id) == ts
    ensures DateDesc(ts) ==> DateDesc(Toggled(ts, id))
  {
    assert forall i :: 0 <= i < |ts| ==> Toggled(ts, id)[i].id == ts[i].id;
  }

  // ---------------------------------------------------------------------------------------------
  // Sorting by date, newest first, in place

  /** Sinks a[i] into the sorted prefix a[..i], passing only strictly older transactions, so that equal
      dates keep their order. */
  method InsertDown(a: array<Transaction>, i: nat)
    requires i < a.Length && DateDesc(a[..i])
    modifies a
    ensures DateDesc(a[..i + 1])
    ensures multiset(a[..]) == multiset(old(a[..]))
    ensures a[i + 1..] == old(a[i + 1..])
  {
    var j := i;
    SinkStart(a[..], i);
    while j > 0 && !LexLe(a[j].date, a[j - 1].date)
      invariant 0 <= j <= i
      invariant multiset(a[..]) == multiset(old(a[..]))
      invariant a[i + 1..] == old(a[i + 1..])
      invariant Sinking(a[..], i, j)
      decreases j
    {
      SinkStep(a[..], i, j);
      ghost var before := a[..];
      a[j - 1], a[j] := a[j], a[j - 1];
      assert a[..] == Swap(before, j - 1, j);
      j := j - 1;
    }
    SinkDone(a[..], i, j);
  }

  /** Midway through InsertDown: the slots up to i other than j are newest first, and everything after j
      is no newer than the transaction at j. */
  predicate Sinking(s: seq<Transaction>, i: nat, j: nat)
    requires j <= i < |s|
  {
    && (forall k, m :: 0 <= k < m <= i && k != j && m != j ==> LexLe(s[m].date, s[k].date))
    && (forall m :: j < m <= i ==> LexLe(s[m].date, s[j].date))
  }

  lemma SinkStart(s: seq<Transaction>, i: nat)
    requires i < |s| && DateDesc(s[..i])
    ensures Sinking(s, i, i)
  {
    forall k, m | 0 <= k < m <= i && k != i && m != i ensures LexLe(s[m].date, s[k].date) {
      assert s[..i][k] == s[k] && s[..i][m] == s[m];
    }
  }

  lemma SinkStep(s: seq<Transaction>, i: nat, j: nat)
    requires 0 < j <= i < |s| && Sinking(s, i, j) && !LexLe(s[j].date, s[j - 1].date)
    ensures Sinking(Swap(s, j - 1, j), i, j - 1)
  {
    LexLeTotal(s[j].date, s[j - 1].date);
    var r := Swap(s, j - 1, j);
    forall m | j - 1 < m <= i ensures LexLe(r[m].date, r[j - 1].date) {
      if m > j {
        LexLeTrans(s[m].date, s[j - 1].date, s[j].date);
      }
    }
  }

  lemma SinkDone(s: seq<Transaction>, i: nat, j: nat)
    requires j <= i < |s| && Sinking(s, i, j) && (j == 0 || LexLe(s[j].date, s[j - 1].date))
    ensures DateDesc(s[..i + 1])
  {
    forall k | 0 <= k < j ensures LexLe(s[j].date, s[k].date) {
      if k < j - 1 {
        LexLeTrans(s[j].date, s[j - 1].date, s[k].date);
      }
    }
    var p := s[..i + 1];
    forall k, m | 0 <= k < m < |p| ensures LexLe(p[m].date, p[k].date) {
      assert p[k] == s[k] && p[m] == s[m];
    }
  }

  /** updatedTransactions.sort(by date descending) */
  method SortByDateDesc(a: array<Transaction>)
    modifies a
    ensures DateDesc(a[..])
    ensures multiset(a[..]) == multiset(old(a[..]))
  {
    var i := 0;
    while i < a.Length
      invariant 0 <= i <= a.Length
      invariant DateDesc(a[..i])
      invariant multiset(a[..]) == multiset(old(a[..]))
    {
      InsertDown(a, i);
      i := i + 1;
    }
    assert a[..a.Length] == a[..];
  }

  // ---------------------------------------------------------------------------------------------
  // Month filter, totals and category tabs

  function ValueOf(t: Transaction): real
  {
    t.value
  }

  function IsKind(k: Kind): Transaction -> bool
  {
    (t: Transaction) => t.kind == k
  }

  function IsSettledKind(k: Kind): Transaction -> bool
  {
    (t: Transaction) => t.kind == k && t.received
  }

  function InMonth(m: string): Transaction -> bool
  {
    (t: Transaction) => MonthKey(t.date) == m
  }

  /** Sum of the values of the transactions selected by p: filter(p).reduce(acc + value). */
  function Total(ts: seq<Transaction>, p: Transaction -> bool): real
  {
    Sum(Filter(ts, p), ValueOf)
  }

  /** filteredByMonth: the whole ledger for "all", otherwise the transactions of that month. */
  function MonthFiltered(ts: seq<Transaction>, selected: string): (r: seq<Transaction>)
    ensures selected == "all" ==> r == ts
    ensures selected != "all" ==> forall t :: t in r <==> t in ts && MonthKey(t.date) == selected
  {
    if selected == "all" then ts else Filter(ts, InMonth(selected))
  }

  /** The four sums and the two balances the cards show. */
  function ComputeTotals(ts: seq<Transaction>): (r: Totals)
    ensures r.saldo == r.entradasRecebidas - r.saidasPagas
    ensures r.projetado == r.entradas - r.saidas
  {
    var entradas := Total(ts, IsKind(Entrada));
    var recebidas := Total(ts, IsSettledKind(Entrada));
    var saidas := Total(ts, IsKind(Saida));
    var pagas := Total(ts, IsSettledKind(Saida));
    Totals(entradas, recebidas, saidas, pagas, recebidas - pagas, entradas - saidas)
  }

  /** A transaction's value counted with the sign of its kind. */
  function Signed(t: Transaction): real
  {
    if t.kind == Entrada then t.value else -t.value
  }

  function KindPart(k: Kind): Transaction -> real
  {
    (t: Transaction) => if t.kind == k then t.value else 0.0
  }

  function SettledPart(k: Kind): Transaction -> real
  {
    (t: Transaction) => if t.kind == k && t.received then t.value else 0.0
  }

  /** Each kind's total is the sum over the ledger of the values of that kind. */
  lemma TotalOfKind(ts: seq<Transaction>, k: Kind)
    ensures Total(ts, IsKind(k)) == Sum(ts, KindPart(k))
    ensures Total(ts, IsSettledKind(k)) == Sum(ts, SettledPart(k))
  {
    SumFilter(ts, IsKind(k), ValueOf, KindPart(k));
    SumFilter(ts, IsSettledKind(k), ValueOf, SettledPart(k));
  }

  /** The projected balance is the signed sum of every transaction; the real balance only counts what was
      received or paid, and with non-negative values neither settled sum exceeds its kind's total. */
  lemma TotalsMeaning(ts: seq<Transaction>)
    ensures ComputeTotals(ts).projetado == Sum(ts, Signed)
    ensures (forall t :: t in ts ==> t.value >= 0.0) ==>
              ComputeTotals(ts).entradasRecebidas <= ComputeTotals(ts).entradas
              && ComputeTotals(ts).saidasPagas <= ComputeTotals(ts).saidas
  {
    TotalOfKind(ts, Entrada);
    TotalOfKind(ts, Saida);
    SumDifference(ts, KindPart(Entrada), KindPart(Saida), Signed);
    if forall t :: t in ts ==> t.value >= 0.0 {
      SumMonotone(ts, SettledPart(Entrada), KindPart(Entrada));
      SumMonotone(ts, SettledPart(Saida), KindPart(Saida));
    }
  }

  predicate IsMateriais(t: Transaction)
  {
    t.category == Material || t.category == Ferramenta
  }

  predicate IsEquipe(t: Transaction)
  {
    t.category == Pagamento || t.category == Vale
  }

  predicate IsRecebimentos(t: Transaction)
  {
    t.category == Recebimento
  }

  /** filterByCategory: one tab per category group, every other tab value shows the whole list. */
  function FilterByCategory(ts: seq<Transaction>, tab: string): (r: seq<Transaction>)
    ensures tab == "materiais" ==> forall t :: t in r <==> t in ts && (t.category == Material || t.category == Ferramenta)
    ensures tab == "equipe" ==> forall t :: t in r <==> t in ts && (t.category == Pagamento || t.category == Vale)
    ensures tab == "recebimentos" ==> forall t :: t in r <==> t in ts && t.category == Recebimento
    ensures tab != "materiais" && tab != "equipe" && tab != "recebimentos" ==> r == ts
  {
    if tab == "materiais" then Filter(ts, IsMateriais)
    else if tab == "equipe" then Filter(ts, IsEquipe)
    else if tab == "recebimentos" then Filter(ts, IsRecebimentos)
    else ts
  }

  /** The three category tabs split the month's list: every occurrence of a transaction appears in
      exactly one of them. */
  lemma TabsPartition(ts: seq<Transaction>)
    ensures multiset(FilterByCategory(ts, "materiais")) + multiset(FilterByCategory(ts, "equipe"))
            + multiset(FilterByCategory(ts, "recebimentos")) == multiset(ts)
  {
    FilterMultiset(ts, IsMateriais);
    FilterMultiset(ts, IsEquipe);
    FilterMultiset(ts, IsRecebimentos);
    var a, b, c := FilterByCategory(ts, "materiais"), FilterByCategory(ts, "equipe"), FilterByCategory(ts, "recebimentos");
    assert forall x :: (multiset(a) + multiset(b) + multiset(c))[x] == multiset(ts)[x];
  }

  // ---------------------------------------------------------------------------------------------
  // Available months and the monthly summary

  /** `a` sorts after `b`. */
  predicate Later(a: string, b: string)
  {
    LexLe(b, a) && a != b
  }

  predicate StrictlyDescending(s: seq<string>)
  {
    forall i, j :: 0 <= i < j < |s| ==> Later(s[i], s[j])
  }

  /** Adds x to a strictly descending list of distinct keys, keeping it so. */
  function InsertDesc(s: seq<string>, x: string): (r: seq<string>)
    requires StrictlyDescending(s)
    ensures StrictlyDescending(r)
    ensures forall y :: y in r <==> y in s || y == x
    ensures x in s ==> r == s
    ensures x !in s ==> |r| == |s| + 1
  {
    if s == [] then [x]
    else if x == s[0] then s
    else if LexLe(s[0], x) then
      assert forall j :: 0 <= j < |s| ==> Later(x, s[j]) by {
        forall j | 0 <= j < |s| ensures Later(x, s[j]) {
          if j > 0 {
            LexLeTrans(s[j], s[0], x);
            if s[j] == x { LexLeAntisym(s[0], x); }
          }
        }
      }
      [x] + s
    else
      LexLeTotal(s[0], x);
      var rest := InsertDesc(s[1..], x);
      var r := [s[0]] + rest;
      assert x in s ==> x in s[1..];
      assert s == [s[0]] + s[1..];
      assert forall j :: 1 <= j < |r| ==> Later(s[0], r[j]) by {
        forall j | 1 <= j < |r| ensures Later(s[0], r[j]) {
          assert r[j] in rest;
        }
      }
      r
  }

  /** availableMonths: the distinct month keys of the ledger, latest first. */
  function AvailableMonths(ts: seq<Transaction>): (r: seq<string>)
    ensures StrictlyDescending(r)
    ensures forall m :: m in r <==> exists t :: t in ts && MonthKey(t.date) == m
  {
    if ts == [] then [] else
      var r := InsertDesc(AvailableMonths(ts[1..]), MonthKey(ts[0].date));
      assert forall t :: t in ts <==> t == ts[0] || t in ts[1..];
      r
  }

  /** One month's sum of one kind: filter by month, then by kind, then add up. */
  function MonthKindTotal(ts: seq<Transaction>, m: string, k: Kind): real
  {
    Sum(Filter(Filter(ts, InMonth(m)), IsKind(k)), ValueOf)
  }

  function Row(ts: seq<Transaction>, m: string): (r: MonthRow)
    ensures r.month == m && r.saldo == r.entradas - r.saidas
  {
    var e, s := MonthKindTotal(ts, m, Entrada), MonthKindTotal(ts, m, Saida);
    MonthRow(m, e, s, e - s)
  }

  function Rows(ts: seq<Transaction>, months: seq<string>): (r: seq<MonthRow>)
    ensures |r| == |months| && forall i :: 0 <= i < |r| ==> r[i] == Row(ts, months[i])
  {
    if months == [] then [] else [Row(ts, months[0])] + Rows(ts, months[1..])
  }

  /** monthlySummary */
  function MonthlySummary(ts: seq<Transaction>): (r: seq<MonthRow>)
    ensures |r| == |AvailableMonths(ts)|
    ensures forall i :: 0 <= i < |r| ==> r[i].month == AvailableMonths(ts)[i] && r[i].saldo == r[i].entradas - r[i].saidas
  {
    Rows(ts, AvailableMonths(ts))
  }

  function RowAmount(k: Kind): MonthRow -> real
  {
    (row: MonthRow) => if k == Entrada then row.entradas else row.saidas
  }

  // ---------------------------------------------------------------------------------------------
  // Grouping by a key: the month of the summary here, the project of the reports page

  /** The value a transaction contributes to group g's sum of kind k. */
  function KeyPart(key: Transaction -> string, g: string, k: Kind): Transaction -> real
  {
    (t: Transaction) => if key(t) == g && t.kind == k then t.value else 0.0
  }

  function GroupTotal(ts: seq<Transaction>, key: Transaction -> string, g: string, k: Kind): real
  {
    Sum(ts, KeyPart(key, g, k))
  }

  /** Sum of the group sums of kind k, one per listed group. */
  function OverGroups(ts: seq<Transaction>, key: Transaction -> string, groups: seq<string>, k: Kind): real
  {
    if groups == [] then 0.0 else GroupTotal(ts, key, groups[0], k) + OverGroups(ts, key, groups[1..], k)
  }

  /** Sum over the groups of what a single transaction contributes. */
  function Spread(t: Transaction, key: Transaction -> string, groups: seq<string>, k: Kind): real
  {
    if groups == [] then 0.0 else KeyPart(key, groups[0], k)(t) + Spread(t, key, groups[1..], k)
  }

  predicate Distinct(s: seq<string>)
  {
    forall i, j :: 0 <= i < j < |s| ==> s[i] != s[j]
  }

  lemma {:induction false} OverGroupsStep(t: Transaction, rest: seq<Transaction>, key: Transaction -> string, groups: seq<string>, k: Kind)
    ensures OverGroups([t] + rest, key, groups, k) == Spread(t, key, groups, k) + OverGroups(rest, key, groups, k)
  {
    if groups != [] {
      assert ([t] + rest)[1..] == rest;
      OverGroupsStep(t, rest, key, groups[1..], k);
    }
  }

  /** Over distinct groups a transaction contributes its value once, if its group is listed. */
  lemma {:induction false} SpreadOnce(t: Transaction, key: Transaction -> string, groups: seq<string>, k: Kind)
    requires Distinct(groups)
    ensures Spread(t, key, groups, k) == if key(t) in groups && t.kind == k then t.value else 0.0
  {
    if groups != [] {
      SpreadOnce(t, key, groups[1..], k);
      if key(t) == groups[0] {
        assert key(t) !in groups[1..];
      }
      assert forall x :: x in groups <==> x == groups[0] || x in groups[1..];
    }
  }

  lemma {:induction false} OverGroupsEmpty(key: Transaction -> string, groups: seq<string>, k: Kind)
    ensures OverGroups([], key, groups, k) == 0.0
  {
    if groups != [] {
      OverGroupsEmpty(key, groups[1..], k);
    }
  }

  /** Splitting by groups that are distinct and cover every transaction loses and doubles nothing. */
  lemma {:induction false} OverGroupsTotal(ts: seq<Transaction>, key: Transaction -> string, groups: seq<string>, k: Kind)
    requires Distinct(groups)
    requires forall t :: t in ts ==> key(t) in groups
    ensures OverGroups(ts, key, groups, k) == Sum(ts, KindPart(k))
  {
    if ts == [] {
      OverGroupsEmpty(key, groups, k);
    } else {
      var t, rest := ts[0], ts[1..];
      assert ts == [t] + rest;
      OverGroupsStep(t, rest, key, groups, k);
      SpreadOnce(t, key, groups, k);
      OverGroupsTotal(rest, key, groups, k);
    }
  }

  function MonthOf(t: Transaction): string
  {
    MonthKey(t.date)
  }

  /** A month's sum, filtered twice, is that month's group sum. */
  lemma MonthKindTotalIsGroupTotal(ts: seq<Transaction>, m: string, k: Kind)
    ensures MonthKindTotal(ts, m, k) == GroupTotal(ts, MonthOf, m, k)
  {
    var f := Filter(ts, InMonth(m));
    forall x ensures KindPart(k)(x) == if IsKind(k)(x) then ValueOf(x) else 0.0 {
    }
    SumFilter(f, IsKind(k), ValueOf, KindPart(k));
    forall x ensures KeyPart(MonthOf, m, k)(x) == if InMonth(m)(x) then KindPart(k)(x) else 0.0 {
      assert MonthOf(x) == MonthKey(x.date);
    }
    SumFilter(ts, InMonth(m), KindPart(k), KeyPart(MonthOf, m, k));
  }

  lemma {:induction false} RowsSum(ts: seq<Transaction>, months: seq<string>, k: Kind)
    ensures Sum(Rows(ts, months), RowAmount(k)) == OverGroups(ts, MonthOf, months, k)
  {
    if months != [] {
      RowsSum(ts, months[1..], k);
      MonthKindTotalIsGroupTotal(ts, months[0], k);
      var r := Rows(ts, months);
      assert r[1..] == Rows(ts, months[1..]);
    }
  }

  /** Summed over the monthly summary, the month incomes and expenses give the ledger's own totals: every
      transaction is counted in exactly one month. */
  lemma MonthlySummaryCoversLedger(ts: seq<Transaction>, k: Kind)
    ensures Sum(MonthlySummary(ts), RowAmount(k)) == Total(ts, IsKind(k))
  {
    var months := AvailableMonths(ts);
    RowsSum(ts, months, k);
    OverGroupsTotal(ts, MonthOf, months, k);
    TotalOfKind(ts, k);
  }

  // ---------------------------------------------------------------------------------------------
  // The page's ledger

  /** updatedTransactions.sort(...): the freshly built list, as an array sorted in place, newest first. */
  method SortedNewestFirst(u: seq<Transaction>) returns (s: seq<Transaction>)
    ensures DateDesc(s) && multiset(s) == multiset(u)
  {
    var a := new Transaction[|u|](i requires 0 <= i < |u| => u[i]);
    assert a[..] == u;
    SortByDateDesc(a);
    s := a[..];
  }

  class Ledger {
    var transactions: seq<Transaction>

    constructor(initial: seq<Transaction>)
      ensures transactions == initial
    {
      transactions := initial;
    }

    /** handleSave: validate, build, replace or append, then sort newest first. */
    method Save(form: Form, editing: Option<Transaction>, newId: string, parse: string -> Option<real>)
      returns (r: Result<Transaction, string>)
      modifies this
      ensures r == BuildTransaction(form, editing, newId, parse)
      ensures r.Failure? ==> transactions == old(transactions)
      ensures r.Success? ==> DateDesc(transactions)
      ensures r.Success? ==> multiset(transactions) == multiset(Updated(old(transactions), r.value, editing))
    {
      r := BuildTransaction(form, editing, newId, parse);
      if r.Success? {
        var u := Updated(transactions, r.value, editing);
        transactions := SortedNewestFirst(u);
      }
    }

    method ConfirmDelete(target: Option<Transaction>)
      modifies this
      ensures transactions == Deleted(old(transactions), target)
    {
      transactions := Deleted(transactions, target);
    }

    method ToggleReceived(t: Transaction)
      modifies this
      ensures transactions == Toggled(old(transactions), t.id)
    {
      transactions := Toggled(transactions, t.id);
    }
  }

  /** A saved new transaction is in the ledger afterwards, and every earlier one is still there. */
  lemma SavedNewIsKept(ts: seq<Transaction>, saved: seq<Transaction>, t: Transaction)
    requires multiset(saved) == multiset(Updated(ts, t, None))
    ensures t in saved && forall x :: x in ts ==> x in saved
  {
    assert t in multiset(Updated(ts, t, None));
    forall x | x in ts ensures x in saved {
      assert x in multiset(Updated(ts, t, None));
    }
  }
}
