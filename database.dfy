/**
 * The row shapes and status enumerations of the Supabase schema
 * (src/types/database.ts). Identifiers are naturals, money is in integer
 * cents, and JSON columns become datatypes.
 */
module Database {
  import opened Wrappers

  type Id = nat

  // ------------------------------------------------------------------
  // Enumerations and their wire names
  // ------------------------------------------------------------------

  datatype UserRole = Admin | Secretary | Technician

  datatype InterventionStatus =
    Nouveau | Planifie | EnCours | Termine | ReadyToBill | Billed | Annule

  datatype ReportStatus = Draft | Submitted | Validated | Rejected

  datatype InvoiceStatus = Generated | Sent | Paid

  datatype QuoteStatus = QuoteDraft | QuoteSent | QuoteAccepted | QuoteRejected | QuoteExpired

  const AllRoles: seq<UserRole> := [Admin, Secretary, Technician]
  const AllInterventionStatuses: seq<InterventionStatus> :=
    [Nouveau, Planifie, EnCours, Termine, ReadyToBill, Billed, Annule]
  const AllReportStatuses: seq<ReportStatus> := [Draft, Submitted, Validated, Rejected]
  const AllInvoiceStatuses: seq<InvoiceStatus> := [Generated, Sent, Paid]
  const AllQuoteStatuses: seq<QuoteStatus> :=
    [QuoteDraft, QuoteSent, QuoteAccepted, QuoteRejected, QuoteExpired]

  function RoleName(r: UserRole): string {
    match r
    case Admin => "admin"
    case Secretary => "secretary"
    case Technician => "technician"
  }

  function InterventionStatusName(s: InterventionStatus): string {
    match s
    case Nouveau => "nouveau"
    case Planifie => "planifie"
    case EnCours => "en_cours"
    case Termine => "termine"
    case ReadyToBill => "ready_to_bill"
    case Billed => "billed"
    case Annule => "annule"
  }

  function ReportStatusName(s: ReportStatus): string {
    match s
    case Draft => "draft"
    case Submitted => "submitted"
    case Validated => "validated"
    case Rejected => "rejected"
  }

  function InvoiceStatusName(s: InvoiceStatus): string {
    match s
    case Generated => "generated"
    case Sent => "sent"
    case Paid => "paid"
  }

  function QuoteStatusName(s: QuoteStatus): string {
    match s
    case QuoteDraft => "draft"
    case QuoteSent => "sent"
    case QuoteAccepted => "accepted"
    case QuoteRejected => "rejected"
    case QuoteExpired => "expired"
  }

  /** Reads a role name; exactly the three names of `UserRole` are accepted. */
  function ParseRole(s: string): (r: Option<UserRole>)
    ensures r.Some? ==> RoleName(r.value) == s
    ensures r.None? <==> forall x :: RoleName(x) != s
  {
    if s == "admin" then Some(Admin)
    else if s == "secretary" then Some(Secretary)
    else if s == "technician" then Some(Technician)
    else None
  }

  /** Reads an invoice status; any other text (such as "pending_validation") is `None`. */
  function ParseInvoiceStatus(s: string): (r: Option<InvoiceStatus>)
    ensures r.Some? ==> InvoiceStatusName(r.value) == s
    ensures r.None? <==> forall x :: InvoiceStatusName(x) != s
  {
    if s == "generated" then Some(Generated)
    else if s == "sent" then Some(Sent)
    else if s == "paid" then Some(Paid)
    else None
  }

  /** Reads an intervention status name. */
  function ParseInterventionStatus(s: string): (r: Option<InterventionStatus>)
    ensures r.Some? ==> InterventionStatusName(r.value) == s
    ensures r.None? <==> forall x :: InterventionStatusName(x) != s
  {
    if s == "nouveau" then Some(Nouveau)
    else if s == "planifie" then Some(Planifie)
    else if s == "en_cours" then Some(EnCours)
    else if s == "termine" then Some(Termine)
    else if s == "ready_to_bill" then Some(ReadyToBill)
    else if s == "billed" then Some(Billed)
    else if s == "annule" then Some(Annule)
    else None
  }

  /** Reads a report status name. */
  function ParseReportStatus(s: string): (r: Option<ReportStatus>)
    ensures r.Some? ==> ReportStatusName(r.value) == s
    ensures r.None? <==> forall x :: ReportStatusName(x) != s
  {
    if s == "draft" then Some(Draft)
    else if s == "submitted" then Some(Submitted)
    else if s == "validated" then Some(Validated)
    else if s == "rejected" then Some(Rejected)
    else None
  }

  /**
   * Each enumeration has exactly the listed values, each listed once:
   * seven intervention statuses, four report statuses, three invoice
   * statuses, five quote statuses and three roles.
   */
  lemma EnumerationsAreExhaustive()
    ensures |AllInterventionStatuses| == 7 && forall s :: s in AllInterventionStatuses
    ensures |AllReportStatuses| == 4 && forall s :: s in AllReportStatuses
    ensures |AllInvoiceStatuses| == 3 && forall s :: s in AllInvoiceStatuses
    ensures |AllQuoteStatuses| == 5 && forall s :: s in AllQuoteStatuses
    ensures |AllRoles| == 3 && forall r :: r in AllRoles
    ensures forall i, j :: 0 <= i < j < |AllInterventionStatuses| ==>
      InterventionStatusName(AllInterventionStatuses[i]) != InterventionStatusName(AllInterventionStatuses[j])
  {
    forall s: InterventionStatus ensures s in AllInterventionStatuses {
      match s
      case Nouveau => assert AllInterventionStatuses[0] == s;
      case Planifie => assert AllInterventionStatuses[1] == s;
      case EnCours => assert AllInterventionStatuses[2] == s;
      case Termine => assert AllInterventionStatuses[3] == s;
      case ReadyToBill => assert AllInterventionStatuses[4] == s;
      case Billed => assert AllInterventionStatuses[5] == s;
      case Annule => assert AllInterventionStatuses[6] == s;
    }
    forall s: ReportStatus ensures s in AllReportStatuses {
      match s
      case Draft => assert AllReportStatuses[0] == s;
      case Submitted => assert AllReportStatuses[1] == s;
      case Validated => assert AllReportStatuses[2] == s;
      case Rejected => assert AllReportStatuses[3] == s;
    }
    forall s: InvoiceStatus ensures s in AllInvoiceStatuses {
      match s
      case Generated => assert AllInvoiceStatuses[0] == s;
      case Sent => assert AllInvoiceStatuses[1] == s;
      case Paid => assert AllInvoiceStatuses[2] == s;
    }
    forall s: QuoteStatus ensures s in AllQuoteStatuses {
      match s
      case QuoteDraft => assert AllQuoteStatuses[0] == s;
      case QuoteSent => assert AllQuoteStatuses[1] == s;
      case QuoteAccepted => assert AllQuoteStatuses[2] == s;
      case QuoteRejected => assert AllQuoteStatuses[3] == s;
      case QuoteExpired => assert AllQuoteStatuses[4] == s;
    }
    forall r: UserRole ensures r in AllRoles {
      match r
      case Admin => assert AllRoles[0] == r;
      case Secretary => assert AllRoles[1] == r;
      case Technician => assert AllRoles[2] == r;
    }
  }

  // ------------------------------------------------------------------
  // JSON column shapes
  // ------------------------------------------------------------------

  /** `client_info`: every field optional. */
  datatype ClientInfo = ClientInfo(
    name: Option<string>, phone: Option<string>, email: Option<string>,
    apartment: Option<string>, accessCode: Option<string>, notes: Option<string>)

  /**
   * An element of a report's `photos` column. Older rows hold bare URL
   * strings; newer ones hold objects with an optional caption and an
   * optional category ("before", "after" or anything else).
   */
  datatype StoredPhoto =
    | UrlOnly(url: string)
    | PhotoItem(url: string, caption: Option<string>, category: Option<string>)

  datatype ChecklistItem = ChecklistItem(item: string, done: bool)

  /** A material line of a report; `unitPrice` in cents. */
  datatype MaterialUsed = MaterialUsed(
    productId: Option<Id>, name: string, quantity: int, unitPrice: int)

  /** An invoice line; its `total` (cents) is carried as given, independently of quantity and price. */
  datatype LineItem = LineItem(description: string, quantity: int, unitPrice: int, total: int)

  /** `extracted_data` of an inbox e-mail; `{}` is the value with every field absent. */
  datatype ExtractedEmailData = ExtractedEmailData(
    clientName: Option<string>, address: Option<string>, phone: Option<string>,
    issueDescription: Option<string>, urgency: Option<string>, apartment: Option<string>)

  const EmptyExtractedData := ExtractedEmailData(None, None, None, None, None, None)

  // ------------------------------------------------------------------
  // Table rows (the `id` column is the key of the table's map)
  // ------------------------------------------------------------------

  datatype User = User(
    email: string, role: UserRole, firstName: string, lastName: string,
    phone: Option<string>, isActive: bool)

  /** A regie (property manager): the keyword is never null, the discount is a number, the flag a boolean. */
  datatype Regie = Regie(
    name: string, keyword: string, emailContact: Option<string>, phone: Option<string>,
    address: Option<string>, discountPercentage: int, billingEmail: Option<string>,
    notes: Option<string>, isActive: bool, updatedAt: Option<string>)

  /** An intervention; the calendar-event id and source e-mail id are nullable. */
  datatype Intervention = Intervention(
    regieId: Option<Id>, technicianId: Option<Id>, status: InterventionStatus,
    title: string, description: Option<string>, address: string,
    datePlanned: Option<string>, dateCompleted: Option<string>,
    estimatedDurationMinutes: int, calendarEventId: Option<string>,
    clientInfo: Option<ClientInfo>, sourceEmailId: Option<Id>, sourceType: string,
    priority: int, notes: Option<string>, workOrderNumber: Option<string>)

  /** A field report: it always references an intervention and a technician. */
  datatype Report = Report(
    interventionId: Id, technicianId: Id, textContent: Option<string>,
    vocalUrl: Option<string>, vocalTranscription: Option<string>,
    photos: seq<StoredPhoto>, checklist: seq<ChecklistItem>, isBillable: bool,
    billableReason: Option<string>, workDurationMinutes: Option<int>,
    materialsUsed: seq<MaterialUsed>, suppliesText: Option<string>,
    clientSignature: Option<string>, status: ReportStatus,
    validatedAt: Option<string>, validatedBy: Option<Id>)

  /** A row of `email_inbox`; its status is free text. */
  datatype EmailRow = EmailRow(
    gmailMessageId: string, receivedAt: string, fromEmail: string,
    fromName: Option<string>, subject: Option<string>, bodyText: Option<string>,
    bodyHtml: Option<string>, extractedData: ExtractedEmailData, regieId: Option<Id>,
    confidenceScore: Option<real>, workOrderNumber: Option<string>, status: string)

  /**
   * An invoice as the validation webhook writes it. The status is free text
   * because that writer stores "pending_validation", which is not one of the
   * `InvoiceStatus` names. Amounts in cents, the VAT rate in per mille.
   */
  datatype Invoice = Invoice(
    reportId: Id, invoiceNumber: string, lineItems: seq<LineItem>, subtotal: int,
    discountAmount: int, vatPermille: int, vatAmount: int, total: int, status: string)
}
