/** The budget builder page: a line item per catalog service, materials derived from the quantity, a grand
    total, installments recomputed from percentages, and a schedule seeded from the items. */
module NovoOrcamento {
  import opened Wrappers
  import opened Seqs
  import opened Text
  import opened Numbers

  datatype BudgetMaterial = BudgetMaterial(name: string, unit: string, quantity: real)

  datatype BudgetItem = BudgetItem(
    id: string,
    service: string,
    description: string,
    unit: string,
    quantity: real,
    unitPrice: real,
    total: real,
    materials: seq<BudgetMaterial>)

  datatype PaymentStep = PaymentStep(description: string, percentage: real, value: real)

  datatype ScheduleRow = ScheduleRow(task: string, week: string)

  datatype ServiceMaterial = ServiceMaterial(id: string, name: string, unit: string, quantityPerUnit: real)

  datatype ServiceOption = ServiceOption(
    id: string, name: string, unit: string, price: real, materials: seq<ServiceMaterial>)

  /** The page's own copy of the service catalog. */
  const Catalog: seq<ServiceOption> := [
    ServiceOption("1", "Assentamento de Piso Cerâmico", "m²", 45.0, [
      ServiceMaterial("m1", "Argamassa AC-II", "kg", 5.0),
      ServiceMaterial("m2", "Espaçadores 2mm", "un", 20.0),
      ServiceMaterial("m3", "Rejunte", "kg", 0.5)]),
    ServiceOption("2", "Pintura Látex PVA", "m²", 18.0, [
      ServiceMaterial("m4", "Tinta Látex PVA", "litro", 0.2),
      ServiceMaterial("m5", "Massa Corrida", "kg", 0.3),
      ServiceMaterial("m6", "Lixa 150", "un", 0.1)]),
    ServiceOption("3", "Instalação de Ponto Elétrico", "un", 120.0, [
      ServiceMaterial("m7", "Cabo 2,5mm", "m", 10.0),
      ServiceMaterial("m8", "Caixa 4x2", "un", 1.0),
      ServiceMaterial("m9", "Tomada 10A", "un", 1.0)]),
    ServiceOption("4", "Instalação de Ponto Hidráulico", "un", 180.0, [
      ServiceMaterial("m10", "Tubo PVC 25mm", "m", 3.0),
      ServiceMaterial("m11", "Joelho 90° 25mm", "un", 2.0),
      ServiceMaterial("m12", "Cola para PVC", "un", 0.1)]),
    ServiceOption("5", "Forro de Gesso", "m²", 65.0, [
      ServiceMaterial("m13", "Placa de Gesso", "m²", 1.1),
      ServiceMaterial("m14", "Arame Galvanizado", "m", 2.0),
      ServiceMaterial("m15", "Prego", "un", 4.0)])
  ]

  const DefaultPaymentSchedule: seq<PaymentStep> := [
    PaymentStep("Entrada (início da obra)", 30.0, 0.0),
    PaymentStep("Após 15 dias de trabalho", 40.0, 0.0),
    PaymentStep("Na entrega final", 30.0, 0.0)
  ]

  /** The schedule offered when there are no items to seed it from. */
  const DefaultSchedule: seq<ScheduleRow> := [
    ScheduleRow("Preparação e mobilização", "Semana 1"),
    ScheduleRow("Execução principal", "Semana 2-3"),
    ScheduleRow("Acabamentos e limpeza", "Semana 4")
  ]

  /** mockServices.find(s => s.id === id) */
  function FindServiceById(catalog: seq<ServiceOption>, id: string): (r: Option<ServiceOption>)
    ensures r.Some? ==> r.value in catalog && r.value.id == id
    ensures r.None? <==> forall s :: s in catalog ==> s.id != id
  {
    Find(catalog, (s: ServiceOption) => s.id == id)
  }

  /** mockServices.find(s => s.name === name): the lookup updateItemQuantity uses. */
  function FindServiceByName(catalog: seq<ServiceOption>, name: string): (r: Option<ServiceOption>)
    ensures r.Some? ==> r.value in catalog && r.value.name == name
    ensures r.None? <==> forall s :: s in catalog ==> s.name != name
  {
    Find(catalog, (s: ServiceOption) => s.name == name)
  }

  /** One material per template, in template order, with its quantity rounded up to the hundredth. */
  function DeriveMaterials(templates: seq<ServiceMaterial>, quantity: real): (r: seq<BudgetMaterial>)
    ensures |r| == |templates|
    ensures forall i :: 0 <= i < |r| ==>
              && r[i].name == templates[i].name
              && r[i].unit == templates[i].unit
              && templates[i].quantityPerUnit * quantity <= r[i].quantity
              && r[i].quantity < templates[i].quantityPerUnit * quantity + 0.01
              && IsHundredth(r[i].quantity)
  {
    seq(|templates|, i requires 0 <= i < |templates| => MaterialFor(templates[i], quantity))
  }

  function MaterialFor(t: ServiceMaterial, quantity: real): (m: BudgetMaterial)
    ensures m.name == t.name && m.unit == t.unit
    ensures t.quantityPerUnit * quantity <= m.quantity < t.quantityPerUnit * quantity + 0.01
    ensures IsHundredth(m.quantity)
  {
    BudgetMaterial(t.name, t.unit, CeilHundredth(t.quantityPerUnit * quantity))
  }

  /** x is a whole number of hundredths. */
  predicate IsHundredth(x: real)
  {
    (x * 100.0).Floor as real == x * 100.0
  }

  /** The line item addItem builds for a service and a quantity. */
  function NewItem(service: ServiceOption, quantity: real, id: string): (it: BudgetItem)
    ensures it.id == id && it.service == service.name && it.description == ""
    ensures it.unit == service.unit && it.quantity == quantity && it.unitPrice == service.price
    ensures it.total == quantity * service.price
    ensures it.materials == DeriveMaterials(service.materials, quantity)
  {
    BudgetItem(id, service.name, "", service.unit, quantity, service.price, quantity * service.price,
               DeriveMaterials(service.materials, quantity))
  }

  /** The item after its quantity changed: total recomputed from the frozen unit price, materials recomputed
      from the catalog entry of the same name, or kept when no entry has that name. */
  function WithQuantity(catalog: seq<ServiceOption>, item: BudgetItem, q: real): (r: BudgetItem)
    ensures r.id == item.id && r.service == item.service && r.description == item.description
    ensures r.unit == item.unit && r.unitPrice == item.unitPrice
    ensures r.quantity == q && r.total == q * item.unitPrice
    ensures FindServiceByName(catalog, item.service).Some? ==>
              r.materials == DeriveMaterials(FindServiceByName(catalog, item.service).value.materials, q)
    ensures FindServiceByName(catalog, item.service).None? ==> r.materials == item.materials
  {
    var materials := match FindServiceByName(catalog, item.service)
      case Some(s) => DeriveMaterials(s.materials, q)
      case None => item.materials;
    item.(quantity := q, total := q * item.unitPrice, materials := materials)
  }

  function ItemTotal(it: BudgetItem): real { it.total }

  /** items.reduce((acc, item) => acc + item.total, 0) */
  function Subtotal(items: seq<BudgetItem>): real
  {
    Sum(items, ItemTotal)
  }

  lemma SubtotalAppend(items: seq<BudgetItem>, it: BudgetItem)
    ensures Subtotal(items + [it]) == Subtotal(items) + it.total
  {
    SumConcat(items, [it], ItemTotal);
  }

  /** The installments with their value recomputed from the current total. */
  function Materialize(schedule: seq<PaymentStep>, total: real): (r: seq<PaymentStep>)
    ensures |r| == |schedule|
    ensures forall i :: 0 <= i < |r| ==>
              && r[i].description == schedule[i].description
              && r[i].percentage == schedule[i].percentage
              && r[i].value == total * schedule[i].percentage / 100.0
  {
    seq(|schedule|, i requires 0 <= i < |schedule| =>
      schedule[i].(value := total * schedule[i].percentage / 100.0))
  }

  function Percentage(p: PaymentStep): real { p.percentage }
  function Value(p: PaymentStep): real { p.value }

  /** The installment values add up to total * (sum of percentages) / 100; so to the total exactly when the
      percentages add up to 100 (which the page only hints at). */
  lemma {:induction false} MaterializedValuesSum(schedule: seq<PaymentStep>, total: real)
    ensures Sum(Materialize(schedule, total), Value) == total * Sum(schedule, Percentage) / 100.0
  {
    if schedule != [] {
      var r := Materialize(schedule, total);
      assert forall i :: 0 <= i < |r| - 1 ==> r[1..][i] == Materialize(schedule[1..], total)[i];
      assert r[1..] == Materialize(schedule[1..], total);
      MaterializedValuesSum(schedule[1..], total);
      PercentDistributes(total, schedule[0].percentage, Sum(schedule[1..], Percentage));
    }
  }

  lemma PercentDistributes(total: real, p: real, rest: real)
    ensures total * p / 100.0 + total * rest / 100.0 == total * (p + rest) / 100.0
  {
  }

  lemma MaterializedValuesSumToTotal(schedule: seq<PaymentStep>, total: real)
    requires Sum(schedule, Percentage) == 100.0
    ensures Sum(Materialize(schedule, total), Value) == total
  {
    MaterializedValuesSum(schedule, total);
  }

  /** The schedule the "generate" button seeds: one row per item, or the default when there are none. */
  function GenerateSchedule(items: seq<BudgetItem>): (r: seq<ScheduleRow>)
    ensures items == [] ==> r == DefaultSchedule
    ensures items != [] ==> |r| == |items| && forall i :: 0 <= i < |items| ==>
              r[i].task == items[i].service && r[i].week == "Semana " + NatToString(i + 1)
  {
    if items == [] then DefaultSchedule
    else seq(|items|, i requires 0 <= i < |items| => ScheduleRow(items[i].service, "Semana " + NatToString(i + 1)))
  }

  /** Seeded week labels are pairwise distinct. */
  lemma GeneratedWeeksDistinct(items: seq<BudgetItem>, i: nat, j: nat)
    requires i < j < |items|
    ensures GenerateSchedule(items)[i].week != GenerateSchedule(items)[j].week
  {
    var r := GenerateSchedule(items);
    if r[i].week == r[j].week {
      assert r[i].week[7..] == NatToString(i + 1);
      assert r[j].week[7..] == NatToString(j + 1);
      NatToStringInjective(i + 1, j + 1);
    }
  }

  predicate NamesDistinct(catalog: seq<ServiceOption>)
  {
    forall i, j :: 0 <= i < j < |catalog| ==> catalog[i].name != catalog[j].name
  }

  /** Service names in the page's catalog are distinct ... */
  lemma CatalogNamesDistinct()
    ensures NamesDistinct(Catalog)
  {
  }

  /** ... so the lookup by name finds the very entry the lookup by id found. */
  lemma FindByNameOfEntry(catalog: seq<ServiceOption>, s: ServiceOption)
    requires NamesDistinct(catalog) && s in catalog
    ensures FindServiceByName(catalog, s.name) == Some(s)
  {
  }

  lemma NewItemConsistent(catalog: seq<ServiceOption>, s: ServiceOption, q: real, id: string)
    requires NamesDistinct(catalog) && s in catalog
    ensures ItemConsistent(catalog, NewItem(s, q, id))
  {
    FindByNameOfEntry(catalog, s);
  }

  /** An item whose total and materials agree with its quantity. */
  predicate ItemConsistent(catalog: seq<ServiceOption>, it: BudgetItem)
  {
    && it.total == it.quantity * it.unitPrice
    && (FindServiceByName(catalog, it.service).Some? ==>
         it.materials == DeriveMaterials(FindServiceByName(catalog, it.service).value.materials, it.quantity))
  }

  /** The page's state: the item list, the installments, the schedule and the add-item form. */
  class BudgetBuilder {
    const catalog: seq<ServiceOption>
    var items: seq<BudgetItem>
    var paymentSchedule: seq<PaymentStep>
    var schedule: seq<ScheduleRow>
    var selectedService: string
    var quantity: real

    /** Every item's total and materials follow from its quantity. */
    ghost predicate Valid()
      reads this
    {
      && NamesDistinct(catalog)
      && forall it :: it in items ==> ItemConsistent(catalog, it)
    }

    constructor ()
      ensures Valid()
      ensures catalog == Catalog
      ensures items == [] && paymentSchedule == DefaultPaymentSchedule && schedule == []
      ensures selectedService == "" && quantity == 1.0
    {
      CatalogNamesDistinct();
      catalog := Catalog;
      items, paymentSchedule, schedule := [], DefaultPaymentSchedule, [];
      selectedService, quantity := "", 1.0;
    }

    /** subtotal, and total, which is the same number */
    function Total(): (t: real)
      reads this
    {
      Subtotal(items)
    }

    /** calculatedPaymentSchedule */
    function CalculatedPaymentSchedule(): (r: seq<PaymentStep>)
      reads this
    {
      Materialize(paymentSchedule, Total())
    }

    /** addItem: a no-op when the selected id is not in the catalog; otherwise appends one item and resets
        the form. */
    method AddItem(newId: string)
      requires Valid()
      modifies this
      ensures Valid()
      ensures FindServiceById(catalog, old(selectedService)).None? ==>
                items == old(items) && selectedService == old(selectedService) && quantity == old(quantity)
      ensures FindServiceById(catalog, old(selectedService)).Some? ==>
                && items == old(items) + [NewItem(FindServiceById(catalog, old(selectedService)).value, old(quantity), newId)]
                && Total() == old(Total()) + old(quantity) * FindServiceById(catalog, old(selectedService)).value.price
                && selectedService == "" && quantity == 1.0
      ensures paymentSchedule == old(paymentSchedule) && schedule == old(schedule)
    {
      var service := FindServiceById(catalog, selectedService);
      if service.None? {
        return;
      }
      var it := NewItem(service.value, quantity, newId);
      NewItemConsistent(catalog, service.value, quantity, newId);
      SubtotalAppend(items, it);
      items := items + [it];
      selectedService := "";
      quantity := 1.0;
    }

    /** removeItem: drops every item with that id, keeping the others in order. */
    method RemoveItem(id: string)
      requires Valid()
      modifies this`items
      ensures Valid()
      ensures items == Filter(old(items), (it: BudgetItem) => it.id != id)
    {
      items := Filter(items, (it: BudgetItem) => it.id != id);
    }

    /** updateItemQuantity: only items with that id change. */
    method UpdateItemQuantity(id: string, newQuantity: real)
      requires Valid()
      modifies this`items
      ensures Valid()
      ensures |items| == |old(items)|
      ensures forall i :: 0 <= i < |items| ==>
                items[i] == if old(items)[i].id == id then WithQuantity(catalog, old(items)[i], newQuantity)
                            else old(items)[i]
    {
      var current := items;
      items := seq(|current|, i requires 0 <= i < |current| =>
        if current[i].id == id then WithQuantity(catalog, current[i], newQuantity) else current[i]);
    }

    /** updatePaymentPercentage: assigns the percentage of one installment. */
    method UpdatePaymentPercentage(index: nat, percentage: real)
      requires index < |paymentSchedule|
      modifies this`paymentSchedule
      ensures paymentSchedule == old(paymentSchedule)[index := old(paymentSchedule)[index].(percentage := percentage)]
    {
      var updated := paymentSchedule;
      updated := updated[index := updated[index].(percentage := percentage)];
      paymentSchedule := updated;
    }

    /** updatePaymentDescription: assigns the description of one installment. */
    method UpdatePaymentDescription(index: nat, description: string)
      requires index < |paymentSchedule|
      modifies this`paymentSchedule
      ensures paymentSchedule == old(paymentSchedule)[index := old(paymentSchedule)[index].(description := description)]
    {
      var updated := paymentSchedule;
      updated := updated[index := updated[index].(description := description)];
      paymentSchedule := updated;
    }

    /** addPaymentStep */
    method AddPaymentStep()
      modifies this`paymentSchedule
      ensures paymentSchedule == old(paymentSchedule) + [PaymentStep("Nova etapa", 0.0, 0.0)]
    {
      paymentSchedule := paymentSchedule + [PaymentStep("Nova etapa", 0.0, 0.0)];
    }

    /** removePaymentStep: a no-op for an index outside the list. */
    method RemovePaymentStep(index: int)
      modifies this`paymentSchedule
      ensures paymentSchedule == RemoveAt(old(paymentSchedule), index)
    {
      paymentSchedule := RemoveAt(paymentSchedule, index);
    }

    /** The "generate schedule" button. */
    method SeedSchedule()
      modifies this`schedule
      ensures schedule == GenerateSchedule(items)
    {
      schedule := GenerateSchedule(items);
    }

    /** The schedule row editors: task, period label, removal and a blank row. */
    method UpdateScheduleTask(index: nat, task: string)
      requires index < |schedule|
      modifies this`schedule
      ensures schedule == old(schedule)[index := old(schedule)[index].(task := task)]
    {
      var updated := schedule;
      updated := updated[index := updated[index].(task := task)];
      schedule := updated;
    }

    method UpdateScheduleWeek(index: nat, week: string)
      requires index < |schedule|
      modifies this`schedule
      ensures schedule == old(schedule)[index := old(schedule)[index].(week := week)]
    {
      var updated := schedule;
      updated := updated[index := updated[index].(week := week)];
      schedule := updated;
    }

    method RemoveScheduleRow(index: int)
      modifies this`schedule
      ensures schedule == RemoveAt(old(schedule), index)
    {
      schedule := RemoveAt(schedule, index);
    }

    method AddScheduleRow()
      modifies this`schedule
      ensures schedule == old(schedule) + [ScheduleRow("", "")]
    {
      schedule := schedule + [ScheduleRow("", "")];
    }
  }
}
