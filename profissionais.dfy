/** The register of partner engineers and architects: the name search and adding a professional from the
    dialog, which refuses to add one without a type. */
module Profissionais {
  import opened Wrappers
  import opened Seqs
  import opened Text

  datatype Kind = Engenheiro | Arquiteto

  datatype Professional = Professional(id: string, name: string, kind: Kind, registration: string, phone: string,
                                       email: string, specialty: string)

  /** The dialog's fields; the type select starts out empty (None). */
  datatype ProfessionalForm = ProfessionalForm(name: string, kind: Option<Kind>, registration: string, phone: string,
                                               email: string, specialty: string)

  datatype Page = Page(professionals: seq<Professional>, form: ProfessionalForm, dialogOpen: bool)

  const EmptyForm := ProfessionalForm("", None, "", "", "", "")

  function IsListed(search: string): Professional -> bool
  {
    (p: Professional) => Matches(p.name, search)
  }

  /** filteredProfessionals: those whose lower-cased name contains the lower-cased search. */
  function FilteredProfessionals(ps: seq<Professional>, search: string): (r: seq<Professional>)
    ensures forall p :: p in r <==> p in ps && Matches(p.name, search)
    ensures forall p :: multiset(r)[p] == if Matches(p.name, search) then multiset(ps)[p] else 0
  {
    FilterMultiset(ps, IsListed(search));
    Filter(ps, IsListed(search))
  }

  /** { id, ...newProfessional } with the type filled in. */
  function FromForm(f: ProfessionalForm, kind: Kind, id: string): (p: Professional)
    ensures p.id == id && p.kind == kind
    ensures ProfessionalForm(p.name, Some(p.kind), p.registration, p.phone, p.email, p.specialty) == f.(kind := Some(kind))
  {
    Professional(id, f.name, kind, f.registration, f.phone, f.email, f.specialty)
  }

  /** handleAddProfessional: nothing happens without a type; otherwise the new professional goes in front,
      the form is reset and the dialog closes. */
  function AddProfessional(pg: Page, id: string): (r: Page)
    ensures pg.form.kind.None? ==> r == pg
    ensures pg.form.kind.Some? ==>
              && |r.professionals| == |pg.professionals| + 1
              && r.professionals[0] == FromForm(pg.form, pg.form.kind.value, id)
              && r.professionals[1..] == pg.professionals
              && r.form == EmptyForm && !r.dialogOpen
  {
    match pg.form.kind
    case None => pg
    case Some(k) => Page([FromForm(pg.form, k, id)] + pg.professionals, EmptyForm, false)
  }

  /** The "Salvar" button: disabled while the name or the type is empty. */
  function ClickSave(pg: Page, id: string): (r: Page)
    ensures pg.form.name == "" || pg.form.kind.None? ==> r == pg
    ensures pg.form.name != "" && pg.form.kind.Some? ==> r == AddProfessional(pg, id)
  {
    if pg.form.name == "" then pg else AddProfessional(pg, id)
  }

  /** After an add, the search shows the new professional (when it matches) ahead of exactly what it
      showed before. */
  lemma AddedIsListedFirst(pg: Page, id: string, search: string)
    requires pg.form.kind.Some?
    ensures var r := AddProfessional(pg, id);
            var p := r.professionals[0];
            FilteredProfessionals(r.professionals, search) ==
            (if Matches(p.name, search) then [p] else []) + FilteredProfessionals(pg.professionals, search)
  {
    var r := AddProfessional(pg, id);
    FilterCons(r.professionals[0], pg.professionals, IsListed(search));
  }
}
