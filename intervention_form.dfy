/**
 * The intervention create/edit form
 * (src/components/interventions/InterventionForm.tsx): the date and time
 * fields taken from `date_planned`, the form's defaults, the row the form
 * writes (insert or update), the soft cancel and the technician's display
 * name.
 */
module InterventionForm {
  import opened Wrappers
  import opened Strings
  import opened Database
  import opened Webhook
  import opened Backend

  // ------------------------------------------------------------------
  // Date and time fields
  // ------------------------------------------------------------------

  /** `getInitialDate`: the text before the first `T` of `date_planned`; `''` without a date. */
  function InitialDate(datePlanned: Option<string>): (r: string)
    ensures datePlanned.None? || datePlanned.value == "" ==> r == ""
    ensures forall j :: 0 <= j < |r| ==> r[j] != 'T'
  {
    if datePlanned.None? || datePlanned.value == "" then "" else FirstPart(datePlanned.value, 'T')
  }

  /**
   * `getInitialTime`: the first five characters of the text between the
   * first and the second `T`; `''` without a date or without a `T`.
   */
  function InitialTime(datePlanned: Option<string>): (r: string)
    ensures datePlanned.None? || datePlanned.value == "" ==> r == ""
    ensures |r| <= 5
  {
    if datePlanned.None? || datePlanned.value == "" then ""
    else
      match SecondPart(datePlanned.value, 'T')
      case None => ""
      case Some(part) => Take(part, 5)
  }

  /** The local date-time `handleSubmit` builds: the time with `:00`, or 09:00:00 when the time is empty. */
  function LocalDateTime(date: string, time: string): (r: string)
    ensures StartsWith(r, date + "T")
  {
    if time != "" then date + "T" + time + ":00" else date + "T09:00:00"
  }

  /** The planned date-time, or null without a date. */
  function PlannedDateTime(date: string, time: string): (r: Option<string>)
    ensures r.None? <==> date == ""
  {
    if date != "" then Some(LocalDateTime(date, time)) else None
  }

  /**
   * An RFC 3339 `full-date "T" partial-time` value opens as its date and
   * its hours and minutes: `date` (no `T` in it) comes back whole, and a
   * time starting with `HH:MM` comes back as `HH:MM`.
   */
  lemma {:induction false} DateAndTimeFields(date: string, time: string)
    requires date != [] && forall j :: 0 <= j < |date| ==> date[j] != 'T'
    requires |time| >= 5 && forall j :: 0 <= j < |time| ==> time[j] != 'T'
    ensures InitialDate(Some(date + "T" + time)) == date
    ensures InitialTime(Some(date + "T" + time)) == time[..5]
  {
    var s := date + "T" + time;
    IndexOfAfter(date, "T" + time, 'T');
    assert s[|date| + 1..] == time;
    NoCharFirstPart(time, 'T');
  }

  /** The first `c` of `a + b` is the first of `b`, shifted, when `a` has none. */
  lemma IndexOfAfter(a: string, b: string, c: char)
    requires forall j :: 0 <= j < |a| ==> a[j] != c
    requires b != [] && b[0] == c
    ensures IndexOf(a + b, c) == Some(|a|)
  {
    assert (a + b)[|a|] == c;
    assert forall j :: 0 <= j < |a| ==> (a + b)[j] == a[j];
  }

  lemma NoCharFirstPart(s: string, c: char)
    requires forall j :: 0 <= j < |s| ==> s[j] != c
    ensures FirstPart(s, c) == s
  {
  }

  /**
   * Saving a date and an `HH:MM` time and opening the form again gives the
   * same two fields (before the conversion to UTC, which is not modelled).
   */
  lemma DateTimeRoundTrip(date: string, time: string)
    requires date != [] && forall j :: 0 <= j < |date| ==> date[j] != 'T'
    requires |time| == 5 && forall j :: 0 <= j < |time| ==> time[j] != 'T'
    ensures InitialDate(PlannedDateTime(date, time)) == date
    ensures InitialTime(PlannedDateTime(date, time)) == time
  {
    var rest := time + ":00";
    assert LocalDateTime(date, time) == date + "T" + rest;
    assert forall j :: 0 <= j < |rest| ==> rest[j] != 'T' by {
      forall j | 0 <= j < |rest| ensures rest[j] != 'T' {
        if j >= |time| { assert rest[j] == ":00"[j - |time|]; }
      }
    }
    DateAndTimeFields(date, rest);
    assert rest[..5] == time;
  }

  // ------------------------------------------------------------------
  // The form and the row it writes
  // ------------------------------------------------------------------

  /** The form fields; an empty select is `None`, an empty text `''`. */
  datatype FormData = FormData(
    title: string, description: string, address: string,
    datePlanned: string, timePlanned: string, estimatedDurationMinutes: int,
    status: InterventionStatus, priority: int, technicianId: Option<Id>,
    regieId: Option<Id>, workOrderNumber: string, clientName: string, clientPhone: string)

  /**
   * The form's opening values: those of the intervention being edited (a
   * zero duration shown as 60), or a blank form planned, 60 minutes long,
   * of normal priority.
   */
  function InitialFormData(edited: Option<Intervention>): (f: FormData)
    ensures edited.None? ==> f.status == Planifie && f.estimatedDurationMinutes == 60 && f.priority == 0
    ensures edited.None? ==> f.title == "" && f.datePlanned == "" && f.technicianId.None? && f.regieId.None?
    ensures edited.Some? ==> f.status == edited.value.status && f.priority == edited.value.priority
    ensures f.estimatedDurationMinutes != 0
  {
    match edited
    case None => FormData("", "", "", "", "", 60, Planifie, 0, None, None, "", "", "")
    case Some(i) =>
      var client := i.clientInfo.GetOr(ClientInfo(None, None, None, None, None, None));
      FormData(i.title, i.description.GetOr(""), i.address, InitialDate(i.datePlanned),
        InitialTime(i.datePlanned),
        if i.estimatedDurationMinutes == 0 then 60 else i.estimatedDurationMinutes,
        i.status, i.priority, i.technicianId, i.regieId, i.workOrderNumber.GetOr(""),
        client.name.GetOr(""), client.phone.GetOr(""))
  }

  /** `clientInfo`: only the non-empty name and phone; null when both are empty. */
  function ClientInfoOf(name: string, phone: string): (r: Option<ClientInfo>)
    ensures r.None? <==> name == "" && phone == ""
    ensures r.Some? ==> r.value.name == EmptyAsNull(name) && r.value.phone == EmptyAsNull(phone)
    ensures r.Some? ==> r.value.email.None? && r.value.apartment.None? && r.value.accessCode.None? && r.value.notes.None?
  {
    if name == "" && phone == "" then None
    else Some(ClientInfo(EmptyAsNull(name), EmptyAsNull(phone), None, None, None, None))
  }

  /** The columns `handleSubmit` writes, on insert and on update alike. */
  datatype InterventionData = InterventionData(
    title: string, description: Option<string>, address: string, datePlanned: Option<string>,
    estimatedDurationMinutes: int, status: InterventionStatus, priority: int,
    technicianId: Option<Id>, regieId: Option<Id>, workOrderNumber: Option<string>,
    clientInfo: Option<ClientInfo>)

  function Payload(f: FormData): (d: InterventionData)
    ensures d.description.None? <==> f.description == ""
    ensures d.workOrderNumber.None? <==> f.workOrderNumber == ""
    ensures d.datePlanned.None? <==> f.datePlanned == ""
    ensures d.clientInfo.None? <==> f.clientName == "" && f.clientPhone == ""
    ensures d.title == f.title && d.address == f.address && d.status == f.status
  {
    InterventionData(f.title, EmptyAsNull(f.description), f.address,
      PlannedDateTime(f.datePlanned, f.timePlanned), f.estimatedDurationMinutes, f.status,
      f.priority, f.technicianId, f.regieId, EmptyAsNull(f.workOrderNumber),
      ClientInfoOf(f.clientName, f.clientPhone))
  }

  /**
   * Opening an intervention and saving it unchanged writes back its title,
   * address, status, priority, technician and regie; an empty description
   * or work-order number comes back as null.
   */
  lemma OpenThenSaveKeepsFields(i: Intervention)
    ensures var d := Payload(InitialFormData(Some(i)));
      d.title == i.title && d.address == i.address && d.status == i.status
      && d.priority == i.priority && d.technicianId == i.technicianId && d.regieId == i.regieId
      && d.description == OrNull(i.description) && d.workOrderNumber == OrNull(i.workOrderNumber)
      && (i.estimatedDurationMinutes != 0 ==> d.estimatedDurationMinutes == i.estimatedDurationMinutes)
  {
  }

  /** An update: the written columns replaced, every other column (the source type among them) kept. */
  function Updated(i: Intervention, d: InterventionData): (r: Intervention)
    ensures r.sourceType == i.sourceType && r.calendarEventId == i.calendarEventId
    ensures r.sourceEmailId == i.sourceEmailId && r.dateCompleted == i.dateCompleted && r.notes == i.notes
    ensures r.status == d.status && r.technicianId == d.technicianId && r.regieId == d.regieId
  {
    i.(title := d.title, description := d.description, address := d.address,
       datePlanned := d.datePlanned, estimatedDurationMinutes := d.estimatedDurationMinutes,
       status := d.status, priority := d.priority, technicianId := d.technicianId,
       regieId := d.regieId, workOrderNumber := d.workOrderNumber, clientInfo := d.clientInfo)
  }

  /** An insert: the written columns, `source_type` `manual`, every other column null. */
  function Inserted(d: InterventionData): (r: Intervention)
    ensures r.sourceType == "manual" && r.calendarEventId.None? && r.sourceEmailId.None?
    ensures r.status == d.status && r.technicianId == d.technicianId && r.regieId == d.regieId
  {
    Intervention(d.regieId, d.technicianId, d.status, d.title, d.description, d.address,
      d.datePlanned, None, d.estimatedDurationMinutes, None, d.clientInfo, None, "manual",
      d.priority, None, d.workOrderNumber)
  }

  /** An update and an insert of the same form agree on every column the form writes. */
  lemma UpdateAndInsertAgree(i: Intervention, d: InterventionData)
    requires i.sourceType == "manual" && i.calendarEventId.None? && i.sourceEmailId.None?
    requires i.dateCompleted.None? && i.notes.None?
    ensures Updated(i, d) == Inserted(d)
  {
  }

  /** `handleSubmit`: update the edited intervention, or insert a new one; a failing write changes nothing. */
  method Submit(db: Store, f: FormData, edited: Option<Id>, fails: set<Write>) returns (ok: bool)
    requires db.Valid()
    modifies db
    ensures db.Valid()
    ensures db.reports == old(db.reports) && db.emails == old(db.emails) && db.regies == old(db.regies)
    ensures db.users == old(db.users) && db.invoices == old(db.invoices)
    ensures edited.Some? ==> (ok <==> InterventionUpdate !in fails)
    ensures edited.None? ==> (ok <==> InterventionInsert !in fails)
    ensures !ok ==> db.interventions == old(db.interventions)
    ensures ok && edited.Some? ==> (db.interventions == (
      if edited.value in old(db.interventions)
      then old(db.interventions)[edited.value := Updated(old(db.interventions)[edited.value], Payload(f))]
      else old(db.interventions)))
    ensures ok && edited.None? ==>
      exists id: Id :: id !in old(db.interventions) && db.interventions == old(db.interventions)[id := Inserted(Payload(f))]
  {
    var d := Payload(f);
    if edited.Some? {
      if InterventionUpdate in fails {
        return false;
      }
      var id := edited.value;
      if id in db.interventions {
        db.interventions := db.interventions[id := Updated(db.interventions[id], d)];
      }
      return true;
    }
    if InterventionInsert in fails {
      return false;
    }
    var id := db.FreshId();
    db.interventions := db.interventions[id := Inserted(d)];
    return true;
  }

  /** `handleDelete`: a soft cancel. The row stays, only its status becomes `annule`. */
  method Cancel(db: Store, edited: Option<Id>, fails: set<Write>) returns (ok: bool)
    requires db.Valid()
    modifies db
    ensures db.Valid()
    ensures db.reports == old(db.reports) && db.emails == old(db.emails) && db.regies == old(db.regies)
    ensures db.users == old(db.users) && db.invoices == old(db.invoices)
    ensures db.interventions.Keys == old(db.interventions.Keys)
    ensures ok <==> edited.Some? && InterventionUpdate !in fails
    ensures !ok ==> db.interventions == old(db.interventions)
    ensures ok ==> forall id :: id in db.interventions ==>
      db.interventions[id] == (if id == edited.value then old(db.interventions)[id].(status := Annule)
                               else old(db.interventions)[id])
  {
    if edited.None? || InterventionUpdate in fails {
      return false;
    }
    var id := edited.value;
    if id in db.interventions {
      db.interventions := db.interventions[id := db.interventions[id].(status := Annule)];
    }
    return true;
  }

  // ------------------------------------------------------------------
  // Technician names
  // ------------------------------------------------------------------

  /** `getTechnicianDisplayName`: "first last", else whichever name is set, else the e-mail. */
  function TechnicianDisplayName(firstName: Option<string>, lastName: Option<string>, email: string): (r: string)
    ensures OrNull(firstName).Some? && OrNull(lastName).Some? ==> r == firstName.value + " " + lastName.value
    ensures OrNull(firstName).Some? && OrNull(lastName).None? ==> r == firstName.value
    ensures OrNull(firstName).None? && OrNull(lastName).Some? ==> r == lastName.value
    ensures OrNull(firstName).None? && OrNull(lastName).None? ==> r == email
  {
    match (OrNull(firstName), OrNull(lastName))
    case (Some(f), Some(l)) => f + " " + l
    case (Some(f), None) => f
    case (None, Some(l)) => l
    case (None, None) => email
  }
}
