/** Work schedules: projects, each with stages whose status and progress move together, and one selected
    project whose stages the page edits. */
module Cronograma {
  import opened Wrappers
  import opened Seqs
  import opened Text
  import opened Numbers

  datatype Status = Pendente | EmAndamento | Concluido

  datatype Stage = Stage(id: string, name: string, startDate: string, endDate: string, status: Status, progress: int)

  datatype Project = Project(id: string, name: string, client: string, stages: seq<Stage>)

  datatype State = State(projects: seq<Project>, selected: string)

  /** The stage dialog's fields: a stage without an id. */
  datatype StageForm = StageForm(name: string, startDate: string, endDate: string, status: Status, progress: int)

  datatype DeleteTarget = StageTarget(id: string) | ProjectTarget(id: string)

  const EmptyStageForm := StageForm("", "", "", Pendente, 0)

  /** The effect that selects the first project whenever nothing is selected. */
  function AutoSelect(st: State): (r: State)
    ensures r.projects == st.projects
    ensures st.selected != "" || st.projects == [] ==> r == st
    ensures st.selected == "" && st.projects != [] ==> r.selected == st.projects[0].id
  {
    if st.selected == "" && |st.projects| > 0 then st.(selected := st.projects[0].id) else st
  }

  /** The selection the page starts with, `projects[0]?.id || ""`: what the effect would pick from an
      empty selection, so the effect then has nothing left to do. */
  function InitialState(projects: seq<Project>): (st: State)
    ensures st.projects == projects
    ensures projects == [] ==> st.selected == ""
    ensures projects != [] ==> st.selected == projects[0].id
    ensures AutoSelect(st) == st
  {
    AutoSelect(State(projects, ""))
  }

  /** projects.find(p => p.id === selectedProject) */
  function SelectedProject(st: State): (r: Option<Project>)
    ensures r.Some? ==> r.value in st.projects && r.value.id == st.selected
    ensures r.None? <==> forall p :: p in st.projects ==> p.id != st.selected
  {
    Find(st.projects, (p: Project) => p.id == st.selected)
  }

  function ProgressSum(stages: seq<Stage>): int
  {
    if stages == [] then 0 else stages[0].progress + ProgressSum(stages[1..])
  }

  predicate ProgressInRange(stages: seq<Stage>)
  {
    forall i :: 0 <= i < |stages| ==> 0 <= stages[i].progress <= 100
  }

  lemma {:induction false} ProgressSumBounds(stages: seq<Stage>)
    requires ProgressInRange(stages)
    ensures 0 <= ProgressSum(stages) <= 100 * |stages|
  {
    if stages != [] {
      assert ProgressInRange(stages[1..]) by {
        forall i | 0 <= i < |stages| - 1 ensures 0 <= stages[1..][i].progress <= 100 {
          assert stages[1..][i] == stages[i + 1];
        }
      }
      ProgressSumBounds(stages[1..]);
    }
  }

  /** Math.round(sum of progress / (stages.length || 1)), or 0 without a selected project. */
  function TotalProgress(st: State): (r: int)
    ensures SelectedProject(st).None? ==> r == 0
    ensures SelectedProject(st).Some? ==>
              var stages := SelectedProject(st).value.stages;
              r == JsRound(ProgressSum(stages) as real / (if stages == [] then 1 else |stages|) as real)
  {
    match SelectedProject(st)
    case None => 0
    case Some(p) => RoundDiv(ProgressSum(p.stages), if p.stages == [] then 1 else |p.stages|)
  }

  /** The overall progress lies in 0..100 whenever every stage's does, and is 0 for a project without stages. */
  lemma TotalProgressBounds(st: State)
    requires SelectedProject(st).Some? ==> ProgressInRange(SelectedProject(st).value.stages)
    ensures 0 <= TotalProgress(st) <= 100
    ensures SelectedProject(st).Some? && SelectedProject(st).value.stages == [] ==> TotalProgress(st) == 0
  {
    match SelectedProject(st)
    case None =>
    case Some(p) =>
      ProgressSumBounds(p.stages);
      RoundDivBounds(ProgressSum(p.stages), if p.stages == [] then 1 else |p.stages|, 0, 100);
  }

  /** The stages with g applied to those with the given id. */
  function MapStages(stages: seq<Stage>, stageId: string, g: Stage -> Stage): (r: seq<Stage>)
    ensures |r| == |stages|
    ensures forall j :: 0 <= j < |r| ==> r[j] == if stages[j].id == stageId then g(stages[j]) else stages[j]
  {
    seq(|stages|, j requires 0 <= j < |stages| => if stages[j].id == stageId then g(stages[j]) else stages[j])
  }

  /** The projects with f applied to those whose id is the selected one. */
  function MapSelected(st: State, f: Project -> Project): (r: State)
    ensures r.selected == st.selected && |r.projects| == |st.projects|
    ensures forall i :: 0 <= i < |r.projects| ==>
              r.projects[i] == if st.projects[i].id == st.selected then f(st.projects[i]) else st.projects[i]
  {
    State(seq(|st.projects|, i requires 0 <= i < |st.projects| =>
      if st.projects[i].id == st.selected then f(st.projects[i]) else st.projects[i]), st.selected)
  }

  /** The stage after a status change: concluido forces 100, pendente forces 0, em_andamento keeps the progress. */
  function WithStatus(s: Stage, status: Status): (r: Stage)
    ensures r == s.(status := status, progress := r.progress)
    ensures status == Concluido ==> r.progress == 100
    ensures status == Pendente ==> r.progress == 0
    ensures status == EmAndamento ==> r.progress == s.progress
  {
    var progress := if status == Concluido then 100 else if status == Pendente then 0 else s.progress;
    s.(status := status, progress := progress)
  }

  /** The status a progress value implies: 0 is pendente, 100 concluido, anything else em_andamento. */
  function StatusFor(progress: int): (s: Status)
    ensures s == Pendente <==> progress == 0
    ensures s == Concluido <==> progress == 100
  {
    if progress == 100 then Concluido else if progress == 0 then Pendente else EmAndamento
  }

  function WithProgress(s: Stage, progress: int): (r: Stage)
    ensures r == s.(progress := progress, status := StatusFor(progress))
  {
    s.(progress := progress, status := StatusFor(progress))
  }

  /** handleStageStatusChange */
  function StageStatusChange(st: State, stageId: string, status: Status): (r: State)
    ensures r.selected == st.selected && |r.projects| == |st.projects|
    ensures forall i :: 0 <= i < |st.projects| && st.projects[i].id != st.selected ==> r.projects[i] == st.projects[i]
    ensures forall i :: 0 <= i < |st.projects| && st.projects[i].id == st.selected ==>
              r.projects[i] == st.projects[i].(stages := MapStages(st.projects[i].stages, stageId, s => WithStatus(s, status)))
  {
    MapSelected(st, (p: Project) => p.(stages := MapStages(p.stages, stageId, s => WithStatus(s, status))))
  }

  /** handleStageProgressChange */
  function StageProgressChange(st: State, stageId: string, progress: int): (r: State)
    ensures r.selected == st.selected && |r.projects| == |st.projects|
    ensures forall i :: 0 <= i < |st.projects| && st.projects[i].id != st.selected ==> r.projects[i] == st.projects[i]
    ensures forall i :: 0 <= i < |st.projects| && st.projects[i].id == st.selected ==>
              r.projects[i] == st.projects[i].(stages := MapStages(st.projects[i].stages, stageId, s => WithProgress(s, progress)))
  {
    MapSelected(st, (p: Project) => p.(stages := MapStages(p.stages, stageId, s => WithProgress(s, progress))))
  }

  /** Status and progress agree: 0 exactly when pending, 100 exactly when complete. */
  predicate Coupled(s: Stage)
  {
    (s.progress == 0 <==> s.status == Pendente) && (s.progress == 100 <==> s.status == Concluido)
  }

  /** After a progress change every stage of the selected project that was coupled still is, and the
      changed stages are coupled whatever they were before. */
  lemma ProgressChangeCouples(st: State, stageId: string, progress: int, i: nat, j: nat)
    requires i < |st.projects| && st.projects[i].id == st.selected && j < |st.projects[i].stages|
    requires st.projects[i].stages[j].id == stageId || Coupled(st.projects[i].stages[j])
    ensures var r := StageProgressChange(st, stageId, progress);
            j < |r.projects[i].stages| && Coupled(r.projects[i].stages[j])
  {
  }

  /** Setting a status on a coupled stage keeps it coupled unless em_andamento meets a progress of 0 or
      100, the case the page leaves as it is. */
  lemma StatusChangeCouples(s: Stage, status: Status)
    requires status != EmAndamento || (s.progress != 0 && s.progress != 100)
    ensures Coupled(WithStatus(s, status))
  {
  }

  /** handleSaveStage: the validation errors, in order; otherwise the edited stage replaced (keeping its
      id) or a new stage appended to the selected project. */
  function SaveStage(st: State, form: StageForm, editing: Option<Stage>, newId: string): (r: Result<State, string>)
    ensures IsBlank(form.name) ==> r == Failure("O nome da etapa é obrigatório.")
    ensures !IsBlank(form.name) && form.startDate == "" ==> r == Failure("A data de início é obrigatória.")
    ensures !IsBlank(form.name) && form.startDate != "" && form.endDate == "" ==> r == Failure("A data de fim é obrigatória.")
    ensures r.Success? <==> !IsBlank(form.name) && form.startDate != "" && form.endDate != ""
    ensures r.Success? ==> r.value.selected == st.selected && |r.value.projects| == |st.projects|
    ensures r.Success? ==> forall i :: 0 <= i < |st.projects| && st.projects[i].id != st.selected ==>
              r.value.projects[i] == st.projects[i]
    ensures r.Success? && editing.Some? ==> forall i :: 0 <= i < |st.projects| && st.projects[i].id == st.selected ==>
              var stages := st.projects[i].stages;
              && |r.value.projects[i].stages| == |stages|
              && forall j :: 0 <= j < |stages| ==>
                   r.value.projects[i].stages[j] == if stages[j].id == editing.value.id then FromForm(form, editing.value.id) else stages[j]
    ensures r.Success? && editing.None? ==> forall i :: 0 <= i < |st.projects| && st.projects[i].id == st.selected ==>
              r.value.projects[i].stages == st.projects[i].stages + [FromForm(form, newId)]
  {
    if IsBlank(form.name) then Failure("O nome da etapa é obrigatório.")
    else if form.startDate == "" then Failure("A data de início é obrigatória.")
    else if form.endDate == "" then Failure("A data de fim é obrigatória.")
    else match editing
      case Some(e) => Success(MapSelected(st, (p: Project) => p.(stages := MapStages(p.stages, e.id, _ => FromForm(form, e.id)))))
      case None => Success(MapSelected(st, (p: Project) => p.(stages := p.stages + [FromForm(form, newId)])))
  }

  function FromForm(form: StageForm, id: string): (s: Stage)
    ensures s.id == id && s.name == form.name && s.startDate == form.startDate && s.endDate == form.endDate
    ensures s.status == form.status && s.progress == form.progress
  {
    Stage(id, form.name, form.startDate, form.endDate, form.status, form.progress)
  }

  /** handleSaveProject: rename (keeping the stages) or append a new empty project and select it. */
  function SaveProject(st: State, name: string, client: string, editing: Option<Project>, newId: string): (r: Result<State, string>)
    ensures IsBlank(name) ==> r == Failure("O nome do projeto é obrigatório.")
    ensures !IsBlank(name) && IsBlank(client) ==> r == Failure("O nome do cliente é obrigatório.")
    ensures r.Success? <==> !IsBlank(name) && !IsBlank(client)
    ensures r.Success? && editing.Some? ==>
              && r.value.selected == st.selected
              && |r.value.projects| == |st.projects|
              && forall i :: 0 <= i < |st.projects| ==>
                   r.value.projects[i] == if st.projects[i].id == editing.value.id
                                          then st.projects[i].(name := name, client := client) else st.projects[i]
    ensures r.Success? && editing.None? ==>
              && r.value.projects == st.projects + [Project(newId, name, client, [])]
              && r.value.selected == newId
              && SelectedProject(r.value).Some?
  {
    if IsBlank(name) then Failure("O nome do projeto é obrigatório.")
    else if IsBlank(client) then Failure("O nome do cliente é obrigatório.")
    else match editing
      case Some(e) =>
        Success(st.(projects := seq(|st.projects|, i requires 0 <= i < |st.projects| =>
          if st.projects[i].id == e.id then st.projects[i].(name := name, client := client) else st.projects[i])))
      case None =>
        var projects := st.projects + [Project(newId, name, client, [])];
        assert projects[|projects| - 1].id == newId;
        Success(State(projects, newId))
  }

  /** handleConfirmDelete */
  function ConfirmDelete(st: State, target: Option<DeleteTarget>): (r: State)
    ensures target.None? ==> r == st
    ensures target.Some? && target.value.StageTarget? ==>
              && r.selected == st.selected && |r.projects| == |st.projects|
              && forall i :: 0 <= i < |st.projects| ==>
                   r.projects[i] == if st.projects[i].id == st.selected
                                    then st.projects[i].(stages := Filter(st.projects[i].stages, (s: Stage) => s.id != target.value.id))
                                    else st.projects[i]
    ensures target.Some? && target.value.ProjectTarget? ==>
              && r.projects == Filter(st.projects, (p: Project) => p.id != target.value.id)
              && (st.selected != target.value.id ==> r.selected == st.selected)
              && (st.selected == target.value.id ==> r.selected == if r.projects == [] then "" else r.projects[0].id)
  {
    match target
    case None => st
    case Some(StageTarget(id)) =>
      MapSelected(st, (p: Project) => p.(stages := Filter(p.stages, (s: Stage) => s.id != id)))
    case Some(ProjectTarget(id)) =>
      var remaining := Filter(st.projects, (p: Project) => p.id != id);
      State(remaining, if st.selected == id then (if remaining == [] then "" else remaining[0].id) else st.selected)
  }

  /** A deleted project is gone, and after deleting the selected one the selection names a remaining
      project or is empty. */
  lemma DeleteProjectSelection(st: State, id: string)
    ensures var r := ConfirmDelete(st, Some(ProjectTarget(id)));
            && (forall p :: p in r.projects ==> p.id != id)
            && (st.selected == id ==> r.selected == "" || SelectedProject(r).Some?)
  {
    var r := ConfirmDelete(st, Some(ProjectTarget(id)));
    if st.selected == id && r.projects != [] {
      assert r.projects[0].id == r.selected;
    }
  }
}
