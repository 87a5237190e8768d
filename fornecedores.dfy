/** The supplier register: the search over company and contact names and adding a supplier from the
    dialog. */
module Fornecedores {
  import opened Seqs
  import opened Text

  datatype Supplier = Supplier(id: string, company: string, contact: string, phone: string, email: string,
                               city: string, category: string)

  /** The dialog's fields: a supplier without an id. */
  datatype SupplierForm = SupplierForm(company: string, contact: string, phone: string, email: string,
                                       city: string, category: string)

  datatype Page = Page(suppliers: seq<Supplier>, form: SupplierForm, dialogOpen: bool)

  const EmptyForm := SupplierForm("", "", "", "", "", "")

  predicate Listed(s: Supplier, search: string)
  {
    Matches(s.company, search) || Matches(s.contact, search)
  }

  function IsListed(search: string): Supplier -> bool
  {
    (s: Supplier) => Listed(s, search)
  }

  /** filteredSuppliers: those whose company or contact contains the search, ignoring case. */
  function FilteredSuppliers(ss: seq<Supplier>, search: string): (r: seq<Supplier>)
    ensures forall s :: s in r <==> s in ss && Listed(s, search)
    ensures forall s :: multiset(r)[s] == if Listed(s, search) then multiset(ss)[s] else 0
  {
    FilterMultiset(ss, IsListed(search));
    Filter(ss, IsListed(search))
  }

  /** Searching for a supplier's own company name, or its contact's, finds it. */
  lemma SearchFindsOwnName(ss: seq<Supplier>, s: Supplier)
    requires s in ss
    ensures s in FilteredSuppliers(ss, s.company) && s in FilteredSuppliers(ss, s.contact)
  {
    assert OccursAt(Lower(s.company), Lower(s.company), 0);
    assert OccursAt(Lower(s.contact), Lower(s.contact), 0);
  }

  /** { id, ...newSupplier } */
  function FromForm(f: SupplierForm, id: string): (s: Supplier)
    ensures s.id == id
    ensures SupplierForm(s.company, s.contact, s.phone, s.email, s.city, s.category) == f
  {
    Supplier(id, f.company, f.contact, f.phone, f.email, f.city, f.category)
  }

  /** handleAddSupplier: the new supplier goes in front, the form is reset and the dialog closes. */
  function AddSupplier(pg: Page, id: string): (r: Page)
    ensures |r.suppliers| == |pg.suppliers| + 1
    ensures r.suppliers[0] == FromForm(pg.form, id) && r.suppliers[1..] == pg.suppliers
    ensures r.form == EmptyForm && !r.dialogOpen
  {
    Page([FromForm(pg.form, id)] + pg.suppliers, EmptyForm, false)
  }

  /** The "Salvar" button: disabled while the company name is empty. */
  function ClickSave(pg: Page, id: string): (r: Page)
    ensures pg.form.company == "" ==> r == pg
    ensures pg.form.company != "" ==> r == AddSupplier(pg, id)
  {
    if pg.form.company == "" then pg else AddSupplier(pg, id)
  }

  /** After an add, the search shows the new supplier (when it matches) ahead of exactly what it showed
      before. */
  lemma AddedIsListedFirst(pg: Page, id: string, search: string)
    ensures var r := AddSupplier(pg, id);
            var s := FromForm(pg.form, id);
            FilteredSuppliers(r.suppliers, search) ==
            (if Listed(s, search) then [s] else []) + FilteredSuppliers(pg.suppliers, search)
  {
    FilterCons(FromForm(pg.form, id), pg.suppliers, IsListed(search));
  }
}
