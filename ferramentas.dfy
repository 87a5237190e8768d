/** The tool inventory: the search and status filter, adding a tool from the dialog, and the alert cards
    for tools that are missing or in maintenance. */
module Ferramentas {
  import opened Wrappers
  import opened Seqs
  import opened Text

  datatype Status = Disponivel | EmUso | Manutencao | Precisando

  datatype Tool = Tool(id: string, name: string, category: string, status: Status, quantity: int, notes: string)

  /** The dialog's fields: a tool without an id. */
  datatype ToolForm = ToolForm(name: string, category: string, status: Status, quantity: int, notes: string)

  datatype StatusFilter = All | Only(status: Status)

  datatype Page = Page(tools: seq<Tool>, form: ToolForm, dialogOpen: bool)

  /** The form the dialog opens with and returns to after a save. */
  const EmptyForm := ToolForm("", "", Disponivel, 1, "")

  predicate Listed(t: Tool, search: string, filter: StatusFilter)
  {
    Matches(t.name, search) && (filter.All? || t.status == filter.status)
  }

  function IsListed(search: string, filter: StatusFilter): Tool -> bool
  {
    (t: Tool) => Listed(t, search, filter)
  }

  /** filteredTools: the listed tools, in inventory order. */
  function FilteredTools(tools: seq<Tool>, search: string, filter: StatusFilter): (r: seq<Tool>)
    ensures forall t :: t in r <==> t in tools && Listed(t, search, filter)
    ensures forall t :: multiset(r)[t] == if Listed(t, search, filter) then multiset(tools)[t] else 0
  {
    FilterMultiset(tools, IsListed(search, filter));
    Filter(tools, IsListed(search, filter))
  }

  /** With an empty search and "all" selected, the table shows the whole inventory. */
  lemma EmptySearchListsAll(tools: seq<Tool>)
    ensures FilteredTools(tools, "", All) == tools
  {
    forall t | t in tools ensures IsListed("", All)(t) {
      MatchesEmpty(t.name);
    }
    FilterAll(tools, IsListed("", All));
  }

  /** { id, ...newTool } */
  function FromForm(f: ToolForm, id: string): (t: Tool)
    ensures t.id == id
    ensures ToolForm(t.name, t.category, t.status, t.quantity, t.notes) == f
  {
    Tool(id, f.name, f.category, f.status, f.quantity, f.notes)
  }

  /** handleAddTool: the new tool goes in front of the others, the form is reset and the dialog closes. */
  function AddTool(p: Page, id: string): (r: Page)
    ensures |r.tools| == |p.tools| + 1 && r.tools[0] == FromForm(p.form, id) && r.tools[1..] == p.tools
    ensures r.form == EmptyForm && !r.dialogOpen
  {
    Page([FromForm(p.form, id)] + p.tools, EmptyForm, false)
  }

  /** The "Salvar" button: disabled while the name is empty. */
  function ClickSave(p: Page, id: string): (r: Page)
    ensures p.form.name == "" ==> r == p
    ensures p.form.name != "" ==> r == AddTool(p, id)
  {
    if p.form.name == "" then p else AddTool(p, id)
  }

  /** The quantity field: parseInt of the input, 0 when it is not a number. */
  function QuantityInput(text: string): (q: int)
    ensures ParseInt(text).None? ==> q == 0
    ensures ParseInt(text).Some? ==> q == ParseInt(text).value
  {
    ParseInt(text).GetOr(0)
  }

  /** Typing a whole number gives that quantity; clearing the field gives 0. */
  lemma QuantityInputReadsNumbers(n: nat)
    ensures QuantityInput(NatToString(n)) == n
    ensures QuantityInput("") == 0
  {
    ParseIntRoundTrip(n);
  }

  function HasStatus(s: Status): Tool -> bool
  {
    (t: Tool) => t.status == s
  }

  /** needingCount */
  function NeedingCount(tools: seq<Tool>): (n: nat)
    ensures n <= |tools|
    ensures n == 0 <==> forall t :: t in tools ==> t.status != Precisando
  {
    Count(tools, HasStatus(Precisando))
  }

  /** maintenanceCount */
  function MaintenanceCount(tools: seq<Tool>): (n: nat)
    ensures n <= |tools|
    ensures n == 0 <==> forall t :: t in tools ==> t.status != Manutencao
  {
    Count(tools, HasStatus(Manutencao))
  }

  /** The two alert cards never count more tools than there are. */
  lemma AlertCountsBounded(tools: seq<Tool>)
    ensures NeedingCount(tools) + MaintenanceCount(tools) <= |tools|
  {
    CountDisjoint(tools, HasStatus(Precisando), HasStatus(Manutencao));
  }

  /** The alert panel is rendered when some tool is missing or in maintenance, and only then. */
  function ShowsAlerts(tools: seq<Tool>): (b: bool)
    ensures b <==> exists t :: t in tools && (t.status == Precisando || t.status == Manutencao)
  {
    NeedingCount(tools) > 0 || MaintenanceCount(tools) > 0
  }

  /** Adding a tool adds one to the card of its status and leaves the other card as it was. */
  lemma AddToolCounts(p: Page, id: string)
    ensures var r := AddTool(p, id);
            && NeedingCount(r.tools) == NeedingCount(p.tools) + (if p.form.status == Precisando then 1 else 0)
            && MaintenanceCount(r.tools) == MaintenanceCount(p.tools) + (if p.form.status == Manutencao then 1 else 0)
  {
    CountCons(FromForm(p.form, id), p.tools, HasStatus(Precisando));
    CountCons(FromForm(p.form, id), p.tools, HasStatus(Manutencao));
  }
}
