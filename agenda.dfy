/** The appointment diary: saving with three required fields, deletion behind a confirmation, and the
    lists for today, for the days ahead (sorted by date, then time) and for the date picked on the
    calendar. Dates are "YYYY-MM-DD" strings and "today" is a parameter. */
module Agenda {
  import opened Wrappers
  import opened Seqs
  import opened Text

  datatype Kind = Visita | Orcamento | Entrega | Reuniao

  datatype Appointment = Appointment(id: string, title: string, client: string, kind: Kind, date: string,
                                     time: string, address: string, notes: string)

  /** The dialog's fields: an appointment without an id. */
  datatype AppointmentForm = AppointmentForm(title: string, client: string, kind: Kind, date: string,
                                             time: string, address: string, notes: string)

  const EmptyForm := AppointmentForm("", "", Visita, "", "", "", "")

  /** { ...formData, id } */
  function WithId(f: AppointmentForm, id: string): (a: Appointment)
    ensures a.id == id
    ensures AppointmentForm(a.title, a.client, a.kind, a.date, a.time, a.address, a.notes) == f
  {
    Appointment(id, f.title, f.client, f.kind, f.date, f.time, f.address, f.notes)
  }

  /** handleSave: the checks in the order the page makes them, then the edit or the append. */
  function Save(appts: seq<Appointment>, form: AppointmentForm, editing: Option<Appointment>, newId: string)
    : (r: Result<seq<Appointment>, string>)
    ensures IsBlank(form.title) ==> r == Failure("O título é obrigatório.")
    ensures !IsBlank(form.title) && form.date == "" ==> r == Failure("A data é obrigatória.")
    ensures !IsBlank(form.title) && form.date != "" && form.time == "" ==> r == Failure("O horário é obrigatório.")
    ensures r.Success? <==> !IsBlank(form.title) && form.date != "" && form.time != ""
    ensures r.Success? && editing.Some? ==>
              && |r.value| == |appts|
              && forall i :: 0 <= i < |appts| ==>
                   r.value[i] == if appts[i].id == editing.value.id then WithId(form, appts[i].id) else appts[i]
    ensures r.Success? && editing.None? ==> r.value == appts + [WithId(form, newId)]
  {
    if IsBlank(form.title) then Failure("O título é obrigatório.")
    else if form.date == "" then Failure("A data é obrigatória.")
    else if form.time == "" then Failure("O horário é obrigatório.")
    else match editing
      case Some(e) =>
        Success(seq(|appts|, i requires 0 <= i < |appts| =>
                      if appts[i].id == e.id then WithId(form, e.id) else appts[i]))
      case None => Success(appts + [WithId(form, newId)])
  }

  function Ids(appts: seq<Appointment>): (r: seq<string>)
    ensures |r| == |appts| && forall i :: 0 <= i < |appts| ==> r[i] == appts[i].id
  {
    seq(|appts|, i requires 0 <= i < |appts| => appts[i].id)
  }

  /** Editing never adds, removes or renumbers an appointment; adding appends exactly the new id. */
  lemma SaveIds(appts: seq<Appointment>, form: AppointmentForm, editing: Option<Appointment>, newId: string)
    requires Save(appts, form, editing, newId).Success?
    ensures var saved := Save(appts, form, editing, newId).value;
            Ids(saved) == if editing.Some? then Ids(appts) else Ids(appts) + [newId]
  {
    var saved := Save(appts, form, editing, newId).value;
    if editing.Some? {
      assert forall i :: 0 <= i < |appts| ==> saved[i].id == appts[i].id;
    }
  }

  function OnDate(date: string): Appointment -> bool
  {
    (a: Appointment) => a.date == date
  }

  /** todayAppointments */
  function TodayAppointments(appts: seq<Appointment>, today: string): (r: seq<Appointment>)
    ensures forall a :: a in r <==> a in appts && a.date == today
  {
    Filter(appts, OnDate(today))
  }

  /** selectedDateAppointments: nothing when no date is picked. */
  function SelectedDateAppointments(appts: seq<Appointment>, selected: Option<string>): (r: seq<Appointment>)
    ensures selected.None? ==> r == []
    ensures selected.Some? ==> forall a :: a in r <==> a in appts && a.date == selected.value
  {
    match selected
    case None => []
    case Some(d) => Filter(appts, OnDate(d))
  }

  /** A new appointment saved for today shows up on today's list, after the ones already there. */
  lemma SavedTodayIsListed(appts: seq<Appointment>, form: AppointmentForm, newId: string, today: string)
    requires Save(appts, form, None, newId).Success? && form.date == today
    ensures TodayAppointments(Save(appts, form, None, newId).value, today) ==
            TodayAppointments(appts, today) + [WithId(form, newId)]
  {
    FilterConcat(appts, [WithId(form, newId)], OnDate(today));
  }

  /** handleConfirmDelete: the list without the target's id (an empty id counts as no target), and the
      target cleared. */
  function ConfirmDelete(appts: seq<Appointment>, target: Option<string>): (r: (seq<Appointment>, Option<string>))
    ensures r.1 == None
    ensures target.None? || target.value == "" ==> r.0 == appts
    ensures target.Some? && target.value != "" ==>
              && (forall a :: a in r.0 <==> a in appts && a.id != target.value)
              && |r.0| + Count(appts, (a: Appointment) => a.id == target.value) == |appts|
  {
    if target.Some? && target.value != "" then
      var keep := (a: Appointment) => a.id != target.value;
      CountSplit(appts, (a: Appointment) => a.id == target.value, keep);
      (Filter(appts, keep), None)
    else (appts, None)
  }

  /** Once confirmed, the dialog holds no target, so confirming again removes nothing more. */
  lemma ConfirmDeleteClears(appts: seq<Appointment>, target: Option<string>)
    ensures var r := ConfirmDelete(appts, target);
            ConfirmDelete(r.0, r.1) == r
  {
  }

  /** First by date (as ISO strings order), then by time string: the order the upcoming list's
      comparator leaves every pair in. */
  predicate Before(a: Appointment, b: Appointment)
  {
    (a.date != b.date && LexLe(a.date, b.date)) || (a.date == b.date && LexLe(a.time, b.time))
  }

  lemma BeforeTotal(a: Appointment, b: Appointment)
    ensures Before(a, b) || Before(b, a)
  {
    LexLeTotal(a.date, b.date);
    LexLeTotal(a.time, b.time);
  }

  lemma BeforeTrans(a: Appointment, b: Appointment, c: Appointment)
    requires Before(a, b) && Before(b, c)
    ensures Before(a, c)
  {
    if a.date == b.date && b.date == c.date {
      LexLeTrans(a.time, b.time, c.time);
    } else if a.date != b.date && b.date != c.date {
      LexLeTrans(a.date, b.date, c.date);
      if a.date == c.date {
        LexLeAntisym(a.date, b.date);
      }
    }
  }

  predicate Chronological(s: seq<Appointment>)
  {
    forall i, j :: 0 <= i < j < |s| ==> Before(s[i], s[j])
  }

  /** Places x in front of the first appointment it may precede: the step of a stable insertion sort. */
  function Insert(x: Appointment, s: seq<Appointment>): (r: seq<Appointment>)
    requires Chronological(s)
    ensures Chronological(r)
    ensures multiset(r) == multiset(s) + multiset{x}
  {
    if s == [] then [x]
    else if Before(x, s[0]) then
      assert Chronological([x] + s) by {
        forall i, j | 0 <= i < j < |s| + 1 ensures Before(([x] + s)[i], ([x] + s)[j]) {
          if i == 0 && j > 1 { BeforeTrans(x, s[0], s[j - 1]); }
        }
      }
      [x] + s
    else
      BeforeTotal(x, s[0]);
      var rest := Insert(x, s[1..]);
      assert s == [s[0]] + s[1..];
      assert forall y :: y in rest ==> Before(s[0], y) by {
        forall y | y in rest ensures Before(s[0], y) {
          assert y in multiset(rest);
          if y != x {
            assert y in multiset(s[1..]);
            var k :| 0 <= k < |s[1..]| && s[1..][k] == y;
            assert s[k + 1] == y;
          }
        }
      }
      assert Chronological([s[0]] + rest) by {
        forall i, j | 0 <= i < j < |rest| + 1 ensures Before(([s[0]] + rest)[i], ([s[0]] + rest)[j]) {
          if i == 0 { assert rest[j - 1] in rest; }
        }
      }
      [s[0]] + rest
  }

  /** The comparator sort of the upcoming list. */
  function SortChronologically(s: seq<Appointment>): (r: seq<Appointment>)
    ensures Chronological(r) && multiset(r) == multiset(s)
  {
    if s == [] then []
    else
      assert s == [s[0]] + s[1..];
      Insert(s[0], SortChronologically(s[1..]))
  }

  function FromDay(today: string): Appointment -> bool
  {
    (a: Appointment) => LexLe(today, a.date)
  }

  /** upcomingAppointments: the appointments dated today or later, sorted by date, then time. */
  function UpcomingAppointments(appts: seq<Appointment>, today: string): (r: seq<Appointment>)
    ensures Chronological(r)
    ensures multiset(r) == multiset(Filter(appts, FromDay(today)))
    ensures forall a :: a in r <==> a in appts && LexLe(today, a.date)
  {
    var f := Filter(appts, FromDay(today));
    var r := SortChronologically(f);
    assert forall a :: a in r <==> a in multiset(r);
    assert forall a :: a in f <==> a in multiset(f);
    r
  }

  /** Today's appointments are all upcoming ... */
  lemma TodayIsUpcoming(appts: seq<Appointment>, today: string)
    ensures forall a :: a in TodayAppointments(appts, today) ==> a in UpcomingAppointments(appts, today)
  {
    LexLeRefl(today);
  }

  /** ... and head the upcoming list: nothing dated later comes before one of today's. */
  lemma TodayComesFirst(appts: seq<Appointment>, today: string, i: nat, j: nat)
    requires var u := UpcomingAppointments(appts, today); i < j < |u| && u[j].date == today
    ensures UpcomingAppointments(appts, today)[i].date == today
  {
    var u := UpcomingAppointments(appts, today);
    assert u[i] in u;
    if u[i].date != today {
      LexLeAntisym(u[i].date, today);
    }
  }
}
