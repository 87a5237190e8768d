/** The printable budget: a projection of the builder's data onto the sections and rows of the document. */
module BudgetPreview {
  import opened Wrappers
  import opened Seqs
  import opened NovoOrcamento

  datatype Company = Company(
    name: string, cnpj: string, phone: string, email: string, address: string, city: string, state: string,
    cep: string, website: string, responsavel: string,
    instagram: Option<string>, facebook: Option<string>, googleBusiness: Option<string>)

  datatype Client = Client(name: string, phone: Option<string>, email: Option<string>, address: Option<string>)

  datatype Project = Project(name: string, address: string)

  /** The component's props; the optional ones are None when the caller leaves them out. */
  datatype Props = Props(
    budgetNumber: Option<string>,
    date: Option<string>,
    company: Company,
    client: Client,
    project: Project,
    items: seq<BudgetItem>,
    executionTime: string,
    paymentSchedule: seq<PaymentStep>,
    terms: string,
    schedule: Option<seq<ScheduleRow>>)

  datatype ItemRow = ItemRow(number: nat, service: string, quantity: real, unit: string, total: real)

  /** The merged first cell of a group of material rows. */
  datatype GroupLabel = GroupLabel(service: string, quantity: real, unit: string, rowSpan: nat)

  datatype MaterialRow = MaterialRow(groupLabel: Option<GroupLabel>, name: string, quantity: real, unit: string)

  datatype PaymentRow = PaymentRow(description: string, percentage: real, value: real)

  datatype SocialLink = Website(url: string) | Instagram(handle: string) | Facebook(page: string) | GoogleBusiness(place: string)

  datatype Document = Document(
    budgetNumber: string,
    date: string,
    companyName: string,
    cnpj: string,
    clientLine: seq<string>,
    projectName: string,
    projectAddress: string,
    itemRows: seq<ItemRow>,
    total: real,
    materials: Option<seq<MaterialRow>>,
    schedule: Option<seq<ScheduleRow>>,
    executionTime: string,
    payments: seq<PaymentRow>,
    terms: string,
    signatures: seq<(string, string)>,
    footerLine: seq<string>,
    social: seq<SocialLink>)

  /** `value && …` in the markup: present and not the empty string. */
  predicate Shown(o: Option<string>)
  {
    o.Some? && o.value != ""
  }

  function ItemRows(items: seq<BudgetItem>): (r: seq<ItemRow>)
    ensures |r| == |items|
    ensures forall i :: 0 <= i < |items| ==>
              r[i] == ItemRow(i + 1, items[i].service, items[i].quantity, items[i].unit, items[i].total)
  {
    RowsFrom(items, 0)
  }

  function RowTotal(r: ItemRow): real { r.total }

  /** The item rows' totals add up to the total printed beneath them. */
  lemma {:induction false} RowTotalsSum(items: seq<BudgetItem>)
    ensures Sum(ItemRows(items), RowTotal) == Subtotal(items)
  {
    RowTotalsSumFrom(items, 0);
    assert items[0..] == items;
  }

  /** The rows of items[k..], numbered from k + 1. */
  function RowsFrom(items: seq<BudgetItem>, k: nat): (r: seq<ItemRow>)
    requires k <= |items|
    ensures |r| == |items| - k
    ensures forall i :: 0 <= i < |r| ==>
              r[i] == ItemRow(k + i + 1, items[k + i].service, items[k + i].quantity, items[k + i].unit, items[k + i].total)
  {
    seq(|items| - k, i requires 0 <= i < |items| - k =>
      ItemRow(k + i + 1, items[k + i].service, items[k + i].quantity, items[k + i].unit, items[k + i].total))
  }

  lemma {:induction false} RowTotalsSumFrom(items: seq<BudgetItem>, k: nat)
    requires k <= |items|
    ensures Sum(RowsFrom(items, k), RowTotal) == Subtotal(items[k..])
    decreases |items| - k
  {
    if k < |items| {
      var rows := RowsFrom(items, k);
      assert rows[1..] == RowsFrom(items, k + 1);
      assert items[k..][1..] == items[k + 1..];
      RowTotalsSumFrom(items, k + 1);
    } else {
      assert items[k..] == [];
    }
  }

  /** The rows of one item's group: all of its materials, the first one carrying the merged label. */
  function GroupRows(it: BudgetItem): (r: seq<MaterialRow>)
    ensures |r| == |it.materials|
    ensures forall j :: 0 <= j < |r| ==>
              && r[j].name == it.materials[j].name
              && r[j].quantity == it.materials[j].quantity
              && r[j].unit == it.materials[j].unit
              && (r[j].groupLabel.Some? <==> j == 0)
              && (j == 0 ==> r[j].groupLabel.value == GroupLabel(it.service, it.quantity, it.unit, |it.materials|))
  {
    seq(|it.materials|, j requires 0 <= j < |it.materials| =>
      MaterialRow(if j == 0 then Some(GroupLabel(it.service, it.quantity, it.unit, |it.materials|)) else None,
                  it.materials[j].name, it.materials[j].quantity, it.materials[j].unit))
  }

  function MaterialCount(items: seq<BudgetItem>): nat
  {
    if items == [] then 0 else |items[0].materials| + MaterialCount(items[1..])
  }

  /** The material rows of all items, grouped by item in item order. */
  function MaterialRows(items: seq<BudgetItem>): (r: seq<MaterialRow>)
    ensures |r| == MaterialCount(items)
  {
    if items == [] then [] else GroupRows(items[0]) + MaterialRows(items[1..])
  }

  /** Where item k's group starts in the materials table. */
  function GroupStart(items: seq<BudgetItem>, k: nat): (n: nat)
    requires k <= |items|
    ensures n + MaterialCount(items[k..]) == MaterialCount(items)
  {
    if k == 0 then 0 else |items[0].materials| + GroupStart(items[1..], k - 1)
  }

  /** Row j of item k's group sits at GroupStart(k) + j. */
  lemma {:induction false} MaterialRowAt(items: seq<BudgetItem>, k: nat, j: nat)
    requires k < |items| && j < |items[k].materials|
    ensures GroupStart(items, k) + j < |MaterialRows(items)|
    ensures MaterialRows(items)[GroupStart(items, k) + j] == GroupRows(items[k])[j]
  {
    var first := GroupRows(items[0]);
    var rest := MaterialRows(items[1..]);
    assert MaterialRows(items) == first + rest;
    if k > 0 {
      MaterialRowAt(items[1..], k - 1, j);
      assert items[1..][k - 1] == items[k];
      var n := GroupStart(items[1..], k - 1) + j;
      assert GroupStart(items, k) + j == |first| + n;
      assert (first + rest)[|first| + n] == rest[n];
    }
  }

  lemma {:induction false} MaterialCountPositive(items: seq<BudgetItem>)
    ensures MaterialCount(items) > 0 <==> exists i :: 0 <= i < |items| && |items[i].materials| > 0
  {
    if items != [] {
      MaterialCountPositive(items[1..]);
      if MaterialCount(items[1..]) > 0 {
        var i :| 0 <= i < |items[1..]| && |items[1..][i].materials| > 0;
        assert |items[i + 1].materials| > 0;
      }
      if exists i :: 0 <= i < |items| && |items[i].materials| > 0 {
        var i :| 0 <= i < |items| && |items[i].materials| > 0;
        if i > 0 { assert |items[1..][i - 1].materials| > 0; }
      }
    }
  }

  function ClientLine(c: Client): (r: seq<string>)
    ensures |r| >= 1 && r[0] == c.name
    ensures |r| == 1 + (if Shown(c.address) then 1 else 0) + (if Shown(c.phone) then 1 else 0)
    ensures Shown(c.address) ==> r[1] == c.address.value
    ensures Shown(c.phone) ==> r[|r| - 1] == c.phone.value
  {
    [c.name] + (if Shown(c.address) then [c.address.value] else []) + (if Shown(c.phone) then [c.phone.value] else [])
  }

  /** The footer's position of each kind of link: website, Instagram, Facebook, Google Business. */
  function Rank(l: SocialLink): nat
  {
    match l
    case Website(_) => 0
    case Instagram(_) => 1
    case Facebook(_) => 2
    case GoogleBusiness(_) => 3
  }

  /** The link list, or [] when the condition fails. */
  function LinkIf(b: bool, l: SocialLink): (r: seq<SocialLink>)
    ensures forall x :: x in r <==> b && x == l
    ensures |r| <= 1
  {
    if b then [l] else []
  }

  /** A link the footer offers: the company's own website, handle, page or place, when shown. */
  predicate Offered(c: Company, l: SocialLink)
  {
    match l
    case Website(u) => c.website != "" && u == c.website
    case Instagram(h) => Shown(c.instagram) && h == c.instagram.value
    case Facebook(p) => Shown(c.facebook) && p == c.facebook.value
    case GoogleBusiness(g) => Shown(c.googleBusiness) && g == c.googleBusiness.value
  }

  function Social(c: Company): (r: seq<SocialLink>)
    ensures forall l :: l in r <==> Offered(c, l)
    ensures forall i, j :: 0 <= i < j < |r| ==> Rank(r[i]) < Rank(r[j])
    ensures |r| <= 4
  {
    var w := LinkIf(c.website != "", Website(c.website));
    var i := LinkIf(Shown(c.instagram), Instagram(c.instagram.GetOr("")));
    var f := LinkIf(Shown(c.facebook), Facebook(c.facebook.GetOr("")));
    var g := LinkIf(Shown(c.googleBusiness), GoogleBusiness(c.googleBusiness.GetOr("")));
    SocialParts(c, w, i, f, g);
    w + i + f + g
  }

  /** The four optional links together are exactly the offered ones, in footer order. */
  lemma {:induction false} SocialParts(c: Company, w: seq<SocialLink>, i: seq<SocialLink>, f: seq<SocialLink>, g: seq<SocialLink>)
    requires w == LinkIf(c.website != "", Website(c.website))
    requires i == LinkIf(Shown(c.instagram), Instagram(c.instagram.GetOr("")))
    requires f == LinkIf(Shown(c.facebook), Facebook(c.facebook.GetOr("")))
    requires g == LinkIf(Shown(c.googleBusiness), GoogleBusiness(c.googleBusiness.GetOr("")))
    ensures forall l :: l in w + i + f + g <==> Offered(c, l)
    ensures forall a, b :: 0 <= a < b < |w + i + f + g| ==> Rank((w + i + f + g)[a]) < Rank((w + i + f + g)[b])
  {
    RanksAscend(w, i, f, g);
    forall l ensures l in w + i + f + g <==> Offered(c, l) {
      assert l in w + i + f + g <==> l in w || l in i || l in f || l in g;
    }
  }

  /** Four lists of at most one link each, of ranks 0, 1, 2 and 3, concatenate in ascending rank. */
  lemma {:induction false} RanksAscend(w: seq<SocialLink>, i: seq<SocialLink>, f: seq<SocialLink>, g: seq<SocialLink>)
    requires |w| <= 1 && |i| <= 1 && |f| <= 1 && |g| <= 1
    requires (forall x :: x in w ==> Rank(x) == 0) && (forall x :: x in i ==> Rank(x) == 1)
    requires (forall x :: x in f ==> Rank(x) == 2) && (forall x :: x in g ==> Rank(x) == 3)
    ensures forall a, b :: 0 <= a < b < |w + i + f + g| ==> Rank((w + i + f + g)[a]) < Rank((w + i + f + g)[b])
  {
    var r := w + i + f + g;
    forall a, b | 0 <= a < b < |r| ensures Rank(r[a]) < Rank(r[b]) {
      RankAt(w, i, f, g, a);
      RankAt(w, i, f, g, b);
    }
  }

  /** The rank of the element at n is the number of the non-empty lists ending at or before n. */
  lemma {:induction false} RankAt(w: seq<SocialLink>, i: seq<SocialLink>, f: seq<SocialLink>, g: seq<SocialLink>, n: nat)
    requires |w| <= 1 && |i| <= 1 && |f| <= 1 && |g| <= 1
    requires (forall x :: x in w ==> Rank(x) == 0) && (forall x :: x in i ==> Rank(x) == 1)
    requires (forall x :: x in f ==> Rank(x) == 2) && (forall x :: x in g ==> Rank(x) == 3)
    requires n < |w + i + f + g|
    ensures n < |w| ==> Rank((w + i + f + g)[n]) == 0
    ensures |w| <= n < |w + i| ==> Rank((w + i + f + g)[n]) == 1
    ensures |w + i| <= n < |w + i + f| ==> Rank((w + i + f + g)[n]) == 2
    ensures |w + i + f| <= n ==> Rank((w + i + f + g)[n]) == 3
  {
    var r := w + i + f + g;
    if n < |w| { assert r[n] == w[n]; assert w[n] in w; }
    else if n < |w + i| { assert r[n] == i[n - |w|]; assert i[n - |w|] in i; }
    else if n < |w + i + f| { assert r[n] == f[n - |w + i|]; assert f[n - |w + i|] in f; }
    else { assert r[n] == g[n - |w + i + f|]; assert g[n - |w + i + f|] in g; }
  }

  /** The whole document for the given props; `today` stands for the locale date used when none is given. */
  function Render(p: Props, today: string): (d: Document)
    ensures d.budgetNumber == p.budgetNumber.GetOr("001") && d.date == p.date.GetOr(today)
    ensures d.itemRows == ItemRows(p.items)
    ensures d.total == Subtotal(p.items)
    ensures d.materials.Some? <==> exists i :: 0 <= i < |p.items| && |p.items[i].materials| > 0
    ensures d.materials.Some? ==> d.materials.value == MaterialRows(p.items)
    ensures d.schedule.Some? <==> p.schedule.Some? && p.schedule.value != []
    ensures d.schedule.Some? ==> d.schedule.value == p.schedule.value
    ensures |d.payments| == |p.paymentSchedule|
    ensures forall i :: 0 <= i < |d.payments| ==>
              d.payments[i] == PaymentRow(p.paymentSchedule[i].description, p.paymentSchedule[i].percentage,
                                          p.paymentSchedule[i].value)
    ensures d.projectAddress == if p.project.address == "" then "A definir" else p.project.address
    ensures d.clientLine == ClientLine(p.client)
    ensures d.social == Social(p.company)
  {
    MaterialCountPositive(p.items);
    var schedule := p.schedule.GetOr([]);
    Document(
      budgetNumber := p.budgetNumber.GetOr("001"),
      date := p.date.GetOr(today),
      companyName := p.company.name,
      cnpj := p.company.cnpj,
      clientLine := ClientLine(p.client),
      projectName := p.project.name,
      projectAddress := if p.project.address == "" then "A definir" else p.project.address,
      itemRows := ItemRows(p.items),
      total := Subtotal(p.items),
      materials := if MaterialCount(p.items) > 0 then Some(MaterialRows(p.items)) else None,
      schedule := if |schedule| > 0 then Some(schedule) else None,
      executionTime := p.executionTime,
      payments := seq(|p.paymentSchedule|, i requires 0 <= i < |p.paymentSchedule| =>
        PaymentRow(p.paymentSchedule[i].description, p.paymentSchedule[i].percentage, p.paymentSchedule[i].value)),
      terms := p.terms,
      signatures := [(p.company.responsavel, p.company.name), (p.client.name, "Contratante")],
      footerLine := [p.company.name, "Tel: " + p.company.phone, p.company.email],
      social := Social(p.company))
  }
}
