/** The service catalog editor: a searchable list of services, each with its material templates, and two
    dialogs (new service, edit service) that share the material-list editors. */
module Servicos {
  import opened Wrappers
  import opened Seqs
  import opened Text

  datatype Material = Material(id: string, name: string, unit: string, quantityPerUnit: real)

  datatype Service = Service(
    id: string, name: string, category: string, unit: string, unitPrice: real, description: string,
    materials: seq<Material>)

  /** The new-service form, without its materials. */
  datatype Draft = Draft(name: string, category: string, unit: string, unitPrice: real, description: string)

  const EmptyDraft := Draft("", "", "m²", 0.0, "")

  /** One field of a material and the value written into it. */
  datatype MaterialField = IdField(id: string) | NameField(name: string) | UnitField(unit: string)
                         | QuantityField(quantityPerUnit: real)

  /** The row a fresh "add material" click creates. */
  function BlankMaterial(id: string): Material
  {
    Material(id, "", "un", 1.0)
  }

  /** A service is listed iff its lower-cased name contains the lower-cased search and the category filter
      is "all" or its category. */
  predicate Listed(s: Service, search: string, categoryFilter: string)
  {
    Matches(s.name, search) && (categoryFilter == "all" || s.category == categoryFilter)
  }

  function FilteredServices(services: seq<Service>, search: string, categoryFilter: string): (r: seq<Service>)
    ensures forall s :: s in r <==> s in services && Listed(s, search, categoryFilter)
    ensures forall s :: multiset(r)[s] == if Listed(s, search, categoryFilter) then multiset(services)[s] else 0
  {
    FilterMultiset(services, (s: Service) => Listed(s, search, categoryFilter));
    Filter(services, (s: Service) => Listed(s, search, categoryFilter))
  }

  /** With no search text and no category chosen every service is listed. */
  lemma EmptySearchListsAll(services: seq<Service>)
    ensures FilteredServices(services, "", "all") == services
  {
    forall s | s in services ensures Listed(s, "", "all") {
      assert OccursAt(Lower(s.name), Lower(""), 0);
    }
    FilterAll(services, (s: Service) => Listed(s, "", "all"));
  }

  /** The material with one field overwritten. */
  function WithField(m: Material, f: MaterialField): (r: Material)
    ensures f.IdField? ==> r == m.(id := f.id)
    ensures f.NameField? ==> r == m.(name := f.name)
    ensures f.UnitField? ==> r == m.(unit := f.unit)
    ensures f.QuantityField? ==> r == m.(quantityPerUnit := f.quantityPerUnit)
  {
    match f
    case IdField(v) => m.(id := v)
    case NameField(v) => m.(name := v)
    case UnitField(v) => m.(unit := v)
    case QuantityField(v) => m.(quantityPerUnit := v)
  }

  /** The materials kept when a new service is saved: those whose trimmed name is not empty, in order. */
  function NamedMaterials(ms: seq<Material>): (r: seq<Material>)
    ensures forall m :: m in r <==> m in ms && !IsBlank(m.name)
    ensures |r| <= |ms|
  {
    Filter(ms, (m: Material) => !IsBlank(m.name))
  }

  /** services.map(s => s.id === edited.id ? edited : s) */
  function ReplaceById(services: seq<Service>, edited: Service): (r: seq<Service>)
    ensures |r| == |services|
    ensures forall i :: 0 <= i < |r| ==> r[i].id == services[i].id
    ensures forall i :: 0 <= i < |r| ==> (r[i] == edited <== services[i].id == edited.id)
    ensures forall i :: 0 <= i < |r| ==> (r[i] == services[i] <== services[i].id != edited.id)
  {
    seq(|services|, i requires 0 <= i < |services| => if services[i].id == edited.id then edited else services[i])
  }

  /** Saving twice with the same edited service changes nothing more. */
  lemma ReplaceByIdIdempotent(services: seq<Service>, edited: Service)
    ensures ReplaceById(ReplaceById(services, edited), edited) == ReplaceById(services, edited)
  {
    var once := ReplaceById(services, edited);
    var twice := ReplaceById(once, edited);
    assert forall i :: 0 <= i < |twice| ==> twice[i] == once[i];
  }

  /** The save buttons of both dialogs are disabled without a name, a category or a non-zero unit price. */
  predicate CanSave(name: string, category: string, unitPrice: real)
  {
    name != "" && category != "" && unitPrice != 0.0
  }

  class ServiceEditor {
    var services: seq<Service>
    var search: string
    var categoryFilter: string
    var draft: Draft
    var draftMaterials: seq<Material>
    var editing: Option<Service>
    var addDialogOpen: bool
    var editDialogOpen: bool

    /** `initial` stands for the page's sample catalog. */
    constructor (initial: seq<Service>)
      ensures services == initial && search == "" && categoryFilter == "all"
      ensures draft == EmptyDraft && draftMaterials == [] && editing == None
      ensures !addDialogOpen && !editDialogOpen
    {
      services, search, categoryFilter := initial, "", "all";
      draft, draftMaterials, editing := EmptyDraft, [], None;
      addDialogOpen, editDialogOpen := false, false;
    }

    function Listing(): (r: seq<Service>)
      reads this
      ensures forall s :: s in r <==> s in services && Listed(s, search, categoryFilter)
    {
      FilteredServices(services, search, categoryFilter)
    }

    /** addMaterial: a blank row at the end of the list being edited. */
    method AddMaterial(newId: string)
      modifies this`editing, this`draftMaterials
      ensures old(editing).Some? ==>
                && editing == Some(old(editing).value.(materials := old(editing).value.materials + [BlankMaterial(newId)]))
                && draftMaterials == old(draftMaterials)
      ensures old(editing).None? ==>
                editing == None && draftMaterials == old(draftMaterials) + [BlankMaterial(newId)]
    {
      if editing.Some? {
        var e := editing.value;
        editing := Some(e.(materials := e.materials + [BlankMaterial(newId)]));
      } else {
        draftMaterials := draftMaterials + [BlankMaterial(newId)];
      }
    }

    /** updateMaterial: copies the list and overwrites one field of one row. */
    method UpdateMaterial(index: nat, f: MaterialField)
      requires editing.Some? ==> index < |editing.value.materials|
      requires editing.None? ==> index < |draftMaterials|
      modifies this`editing, this`draftMaterials
      ensures old(editing).Some? ==>
                && editing.Some?
                && editing.value == old(editing).value.(materials := old(editing).value.materials[index := WithField(old(editing).value.materials[index], f)])
                && draftMaterials == old(draftMaterials)
      ensures old(editing).None? ==>
                editing == None && draftMaterials == old(draftMaterials)[index := WithField(old(draftMaterials)[index], f)]
    {
      if editing.Some? {
        var e := editing.value;
        var updated := e.materials;
        updated := updated[index := WithField(updated[index], f)];
        editing := Some(e.(materials := updated));
      } else {
        var updated := draftMaterials;
        updated := updated[index := WithField(updated[index], f)];
        draftMaterials := updated;
      }
    }

    /** removeMaterial: drops exactly that row; an index outside the list removes nothing. */
    method RemoveMaterial(index: int)
      modifies this`editing, this`draftMaterials
      ensures old(editing).Some? ==>
                && editing == Some(old(editing).value.(materials := RemoveAt(old(editing).value.materials, index)))
                && draftMaterials == old(draftMaterials)
      ensures old(editing).None? ==> editing == None && draftMaterials == RemoveAt(old(draftMaterials), index)
    {
      if editing.Some? {
        var e := editing.value;
        editing := Some(e.(materials := RemoveAt(e.materials, index)));
      } else {
        draftMaterials := RemoveAt(draftMaterials, index);
      }
    }

    /** The "save service" button: disabled (nothing happens) unless the draft can be saved; otherwise
        handleAddService puts the new service first, keeps only named materials and resets the form. */
    method AddService(newId: string)
      modifies this`services, this`draft, this`draftMaterials, this`addDialogOpen
      ensures !CanSave(old(draft).name, old(draft).category, old(draft).unitPrice) ==>
                services == old(services) && draft == old(draft) && draftMaterials == old(draftMaterials)
                && addDialogOpen == old(addDialogOpen)
      ensures CanSave(old(draft).name, old(draft).category, old(draft).unitPrice) ==>
                && services == [Service(newId, old(draft).name, old(draft).category, old(draft).unit,
                                        old(draft).unitPrice, old(draft).description, NamedMaterials(old(draftMaterials)))]
                               + old(services)
                && draft == EmptyDraft && draftMaterials == [] && !addDialogOpen
                && !CanSave(draft.name, draft.category, draft.unitPrice)
    {
      if !CanSave(draft.name, draft.category, draft.unitPrice) {
        return;
      }
      var service := Service(newId, draft.name, draft.category, draft.unit, draft.unitPrice, draft.description,
                             NamedMaterials(draftMaterials));
      services := [service] + services;
      draft := EmptyDraft;
      draftMaterials := [];
      addDialogOpen := false;
    }

    /** handleEditService: the dialog edits a copy of the service. */
    method EditService(s: Service)
      modifies this`editing, this`editDialogOpen
      ensures editing == Some(s) && editDialogOpen
    {
      editing := Some(s);
      editDialogOpen := true;
    }

    /** The "save changes" button: nothing happens when nothing is edited or the edited service cannot be
        saved; otherwise handleSaveEdit replaces every service with the edited id and closes the dialog. */
    method SaveEdit()
      modifies this`services, this`editing, this`editDialogOpen
      ensures old(editing).None? || !CanSave(old(editing).value.name, old(editing).value.category, old(editing).value.unitPrice) ==>
                services == old(services) && editing == old(editing) && editDialogOpen == old(editDialogOpen)
      ensures old(editing).Some? && CanSave(old(editing).value.name, old(editing).value.category, old(editing).value.unitPrice) ==>
                services == ReplaceById(old(services), old(editing).value) && editing == None && !editDialogOpen
    {
      if editing.None? {
        return;
      }
      var e := editing.value;
      if !CanSave(e.name, e.category, e.unitPrice) {
        return;
      }
      services := ReplaceById(services, e);
      editing := None;
      editDialogOpen := false;
    }

    /** handleDeleteService: every service with that id goes. */
    method DeleteService(id: string)
      modifies this`services
      ensures services == Filter(old(services), (s: Service) => s.id != id)
      ensures forall s :: s in services <==> s in old(services) && s.id != id
    {
      services := Filter(services, (s: Service) => s.id != id);
    }
  }
}
