/**
 * POST /api/webhooks/report-submit
 * (src/app/api/webhooks/report-submit/route.ts): a technician's field
 * report arrives from the mobile app or n8n. The report of the
 * intervention is updated in place when there is one, inserted otherwise,
 * and the intervention is then marked done (`termine`).
 */
module ReportSubmit {
  import opened Wrappers
  import opened Strings
  import opened Database
  import opened Webhook
  import opened Backend

  /** The validated request body; `isBillable` is absent when the sender left it out. */
  datatype Payload = Payload(
    interventionId: Id, technicianId: Id, textContent: Option<string>,
    vocalUrl: Option<string>, vocalTranscription: Option<string>,
    photos: Option<seq<StoredPhoto>>, checklist: Option<seq<ChecklistItem>>,
    isBillable: Option<bool>, billableReason: Option<string>,
    workDurationMinutes: Option<int>, materialsUsed: Option<seq<MaterialUsed>>)

  datatype Response =
    | Unauthorized
    | InvalidData
    | InterventionNotFound
    | ServerError
    | Accepted(reportId: Id, isBillable: bool, interventionStatus: InterventionStatus)
  {
    function Status(): int {
      match this
      case Unauthorized => 401
      case InvalidData => 400
      case InterventionNotFound => 404
      case ServerError => 500
      case Accepted(_, _, _) => 200
    }
  }

  /** `is_billable: z.boolean().default(true)` */
  function Billable(p: Payload): (b: bool)
    ensures p.isBillable.None? ==> b
    ensures p.isBillable.Some? ==> b == p.isBillable.value
  {
    p.isBillable.GetOr(true)
  }

  /** `work_duration_minutes || null`: absent and zero are both stored as null. */
  function DurationOrNull(d: Option<int>): (r: Option<int>)
    ensures r.None? <==> (d.None? || d.value == 0)
    ensures r.Some? ==> r == d
  {
    if d.Some? && d.value != 0 then d else None
  }

  /**
   * The report after an update from `p`: the content columns come from the
   * payload (absent text as null, absent lists as empty), the status is
   * `submitted`, and the intervention, the technician, the supplies, the
   * signature and the validation stamps are left as they were.
   */
  function Resubmitted(r: Report, p: Payload): (u: Report)
    ensures u.interventionId == r.interventionId && u.technicianId == r.technicianId
    ensures u.suppliesText == r.suppliesText && u.clientSignature == r.clientSignature
    ensures u.validatedAt == r.validatedAt && u.validatedBy == r.validatedBy
    ensures u.status == Submitted && u.isBillable == Billable(p)
    ensures u.textContent.None? <==> (p.textContent.None? || p.textContent.value == "")
    ensures u.textContent.Some? ==> u.textContent == p.textContent
    ensures u.vocalUrl.None? <==> (p.vocalUrl.None? || p.vocalUrl.value == "")
    ensures u.vocalUrl.Some? ==> u.vocalUrl == p.vocalUrl
    ensures u.vocalTranscription.None? <==> (p.vocalTranscription.None? || p.vocalTranscription.value == "")
    ensures u.vocalTranscription.Some? ==> u.vocalTranscription == p.vocalTranscription
    ensures u.billableReason.None? <==> (p.billableReason.None? || p.billableReason.value == "")
    ensures u.billableReason.Some? ==> u.billableReason == p.billableReason
    ensures u.workDurationMinutes.None? <==> (p.workDurationMinutes.None? || p.workDurationMinutes.value == 0)
    ensures u.workDurationMinutes.Some? ==> u.workDurationMinutes == p.workDurationMinutes
    ensures p.photos.None? ==> u.photos == []
    ensures p.photos.Some? ==> u.photos == p.photos.value
    ensures p.checklist.None? ==> u.checklist == []
    ensures p.checklist.Some? ==> u.checklist == p.checklist.value
    ensures p.materialsUsed.None? ==> u.materialsUsed == []
    ensures p.materialsUsed.Some? ==> u.materialsUsed == p.materialsUsed.value
  {
    r.(textContent := OrNull(p.textContent),
       vocalUrl := OrNull(p.vocalUrl),
       vocalTranscription := OrNull(p.vocalTranscription),
       photos := p.photos.GetOr([]),
       checklist := p.checklist.GetOr([]),
       isBillable := Billable(p),
       billableReason := OrNull(p.billableReason),
       workDurationMinutes := DurationOrNull(p.workDurationMinutes),
       materialsUsed := p.materialsUsed.GetOr([]),
       status := Submitted)
  }

  /**
   * A new report from `p`: the same content columns as an update, plus the
   * intervention and technician taken from the payload; nothing validated,
   * no supplies text and no signature.
   */
  function NewReport(p: Payload): (r: Report)
    ensures r.interventionId == p.interventionId && r.technicianId == p.technicianId
    ensures r.status == Submitted && r.isBillable == Billable(p)
    ensures r.validatedAt.None? && r.validatedBy.None?
  {
    Report(p.interventionId, p.technicianId, OrNull(p.textContent), OrNull(p.vocalUrl),
      OrNull(p.vocalTranscription), p.photos.GetOr([]), p.checklist.GetOr([]), Billable(p),
      OrNull(p.billableReason), DurationOrNull(p.workDurationMinutes),
      p.materialsUsed.GetOr([]), None, None, Submitted, None, None)
  }

  /** An insert and an update from the same payload write the same content columns. */
  lemma InsertAndUpdateAgree(r: Report, p: Payload)
    requires r.interventionId == p.interventionId && r.technicianId == p.technicianId
    requires r.suppliesText.None? && r.clientSignature.None? && r.validatedAt.None? && r.validatedBy.None?
    ensures Resubmitted(r, p) == NewReport(p)
  {
  }

  /** The intervention once its report is in: done, with its completion time. */
  function Completed(i: Intervention, now: string): Intervention {
    i.(status := Termine, dateCompleted := Some(now))
  }

  method Post(db: Store, req: Request<Payload>, secret: string, now: string, fails: set<Write>)
    returns (resp: Response)
    requires db.Valid()
    modifies db
    ensures db.Valid()
    ensures db.users == old(db.users) && db.regies == old(db.regies)
    ensures db.emails == old(db.emails) && db.invoices == old(db.invoices)
    ensures !Authorized(req.authorization, secret) ==> resp == Unauthorized && db.Snapshot() == old(db.Snapshot())
    ensures Authorized(req.authorization, secret) && req.body.NotJson? ==>
      resp == ServerError && db.Snapshot() == old(db.Snapshot())
    ensures Authorized(req.authorization, secret) && req.body.SchemaError? ==>
      resp == InvalidData && db.Snapshot() == old(db.Snapshot())
    // at most one report per intervention, whatever happens
    ensures old(db.OneReportPerIntervention()) ==> db.OneReportPerIntervention()
    ensures Authorized(req.authorization, secret) && req.body.Parsed? ==>
      var p := req.body.payload;
      var existing := old(db.ReportsOf(p.interventionId));
      // unknown intervention: 404 and no report written
      (p.interventionId !in old(db.interventions) ==>
         resp == InterventionNotFound && db.Snapshot() == old(db.Snapshot()))
      && (p.interventionId in old(db.interventions) ==>
        // exactly one existing report: updated in place, same id
        (|existing| == 1 && ReportUpdate in fails ==>
           resp == ServerError && db.Snapshot() == old(db.Snapshot()))
        && (|existing| == 1 && ReportUpdate !in fails ==>
             resp.Accepted? && existing == {resp.reportId}
             && db.reports == old(db.reports)[resp.reportId := Resubmitted(old(db.reports)[resp.reportId], p)])
        // otherwise a new report is inserted
        && (|existing| != 1 && ReportInsert in fails ==>
             resp == ServerError && db.Snapshot() == old(db.Snapshot()))
        && (|existing| != 1 && ReportInsert !in fails ==>
             resp.Accepted? && resp.reportId !in old(db.reports)
             && db.reports == old(db.reports)[resp.reportId := NewReport(p)])
        // after the write the intervention is done; a failing update is only logged
        && (resp.Accepted? ==>
             resp.isBillable == Billable(p) && resp.interventionStatus == Termine
             && db.interventions == (
                  if InterventionUpdate in fails then old(db.interventions)
                  else old(db.interventions)[p.interventionId :=
                         Completed(old(db.interventions)[p.interventionId], now)])))
  {
    if !Authorized(req.authorization, secret) {
      return Unauthorized;
    }
    match req.body
    case NotJson => return ServerError;
    case SchemaError => return InvalidData;
    case Parsed(p) =>
      if p.interventionId !in db.interventions {
        return InterventionNotFound;
      }
      var existing := SingleMatch(db.ReportsOf(p.interventionId));
      var reportId: Id;
      if existing.Some? {
        if ReportUpdate in fails {
          return ServerError;
        }
        reportId := existing.value;
        db.PutReport(reportId, Resubmitted(db.reports[reportId], p));
      } else {
        if ReportInsert in fails {
          return ServerError;
        }
        reportId := db.FreshId();
        if ReportsUnique(db.reports) {
          NewReportIsAlone(db.reports, p, reportId);
        }
        db.PutReport(reportId, NewReport(p));
      }
      if InterventionUpdate !in fails {
        db.PutIntervention(p.interventionId, Completed(db.interventions[p.interventionId], now));
      }
      return Accepted(reportId, Billable(p), Termine);
  }

  /**
   * Inserting a report for an intervention that has none keeps reports
   * unique; with unique reports, "not exactly one" already means "none".
   */
  lemma NewReportIsAlone(reports: map<Id, Report>, p: Payload, id: Id)
    requires id !in reports
    requires ReportsUnique(reports) && |ReportsFor(reports, p.interventionId)| != 1
    ensures ReportsUnique(reports[id := NewReport(p)])
  {
    UniqueReportsFor(reports, p.interventionId);
    assert ReportsFor(reports, p.interventionId) == {};
  }
}
