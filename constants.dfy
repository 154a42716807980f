/**
 * The application's lookup tables (src/lib/constants.ts): French labels for
 * roles and statuses, the navigation route tables, priority levels, the
 * default VAT rate and the calendar's business hours.
 */
module Constants {
  import opened Database

  datatype Label = Label(text: string, color: string)

  datatype Route = Route(href: string, text: string, icon: string)

  datatype Priority = Priority(value: int, text: string, color: string)

  /** The role badge table: a label for every role. */
  function RoleLabel(r: UserRole): Label {
    match r
    case Admin => Label("Administrateur", "bg-purple-100 text-purple-800")
    case Secretary => Label("Secrétariat", "bg-blue-100 text-blue-800")
    case Technician => Label("Technicien", "bg-green-100 text-green-800")
  }

  /** The intervention status table: label, colour and icon for each of the seven statuses. */
  function InterventionStatusLabel(s: InterventionStatus): (r: Label) {
    match s
    case Nouveau => Label("Nouveau", "bg-blue-100 text-blue-800")
    case Planifie => Label("Planifié", "bg-yellow-100 text-yellow-800")
    case EnCours => Label("En cours", "bg-orange-100 text-orange-800")
    case Termine => Label("Terminé", "bg-green-100 text-green-800")
    case ReadyToBill => Label("Prêt à facturer", "bg-amber-100 text-amber-800")
    case Billed => Label("Facturé", "bg-purple-100 text-purple-800")
    case Annule => Label("Annulé", "bg-gray-100 text-gray-800")
  }

  function InterventionStatusIcon(s: InterventionStatus): string {
    match s
    case Nouveau => "inbox"
    case Planifie => "calendar"
    case EnCours => "clock"
    case Termine => "check"
    case ReadyToBill => "file-clock"
    case Billed => "file-text"
    case Annule => "x"
  }

  function ReportStatusLabel(s: ReportStatus): Label {
    match s
    case Draft => Label("Brouillon", "bg-gray-100 text-gray-800")
    case Submitted => Label("Soumis", "bg-blue-100 text-blue-800")
    case Validated => Label("Validé", "bg-green-100 text-green-800")
    case Rejected => Label("Rejeté", "bg-red-100 text-red-800")
  }

  function InvoiceStatusLabel(s: InvoiceStatus): Label {
    match s
    case Generated => Label("Générée", "bg-cyan-100 text-cyan-800")
    case Sent => Label("Envoyée", "bg-purple-100 text-purple-800")
    case Paid => Label("Payée", "bg-green-100 text-green-800")
  }

  function QuoteStatusLabel(s: QuoteStatus): Label {
    match s
    case QuoteDraft => Label("Brouillon", "bg-gray-100 text-gray-800")
    case QuoteSent => Label("Envoyé", "bg-blue-100 text-blue-800")
    case QuoteAccepted => Label("Accepté", "bg-green-100 text-green-800")
    case QuoteRejected => Label("Refusé", "bg-red-100 text-red-800")
    case QuoteExpired => Label("Expiré", "bg-yellow-100 text-yellow-800")
  }

  /**
   * The status tables are total and tell the statuses apart: distinct
   * statuses get distinct labels in the intervention, report and invoice
   * tables.
   */
  lemma StatusLabelsDistinct()
    ensures forall a, b :: a != b ==> InterventionStatusLabel(a).text != InterventionStatusLabel(b).text
    ensures forall a, b :: a != b ==> ReportStatusLabel(a).text != ReportStatusLabel(b).text
    ensures forall a, b :: a != b ==> InvoiceStatusLabel(a).text != InvoiceStatusLabel(b).text
  {
  }

  const AdminRoutes: seq<Route> := [
    Route("/inbox", "Boîte de réception", "inbox"),
    Route("/calendar", "Calendrier", "calendar"),
    Route("/interventions", "Interventions", "wrench"),
    Route("/reports/validate", "Validation rapports", "clipboard-check"),
    Route("/invoices", "Factures", "file-text"),
    Route("/quotes", "Devis", "file-plus"),
    Route("/products", "Catalogue", "package")
  ]

  const AdminOnlyRoutes: seq<Route> := [
    Route("/admin/users", "Utilisateurs", "users"),
    Route("/admin/regies", "Régies", "building"),
    Route("/admin/settings", "Paramètres", "settings")
  ]

  const TechnicianRoutes: seq<Route> := [
    Route("/technician/today", "Aujourd'hui", "calendar-check"),
    Route("/technician/week", "Ma semaine", "calendar"),
    Route("/interventions", "Historique", "history")
  ]

  /** Whether some route of `routes` points at `href`. */
  predicate HasHref(routes: seq<Route>, href: string) {
    exists i :: 0 <= i < |routes| && routes[i].href == href
  }

  /** 7 admin, 3 admin-only and 3 technician routes; "/interventions" is in both main lists. */
  lemma RouteTables()
    ensures |AdminRoutes| == 7 && |AdminOnlyRoutes| == 3 && |TechnicianRoutes| == 3
    ensures HasHref(AdminRoutes, "/interventions") && HasHref(TechnicianRoutes, "/interventions")
    ensures !HasHref(AdminRoutes, "/technician/today")
  {
    assert AdminRoutes[2].href == "/interventions";
    assert TechnicianRoutes[2].href == "/interventions";
  }

  datatype Category = Category(value: string, text: string)

  const ProductCategories: seq<Category> := [
    Category("service", "Service"),
    Category("plomberie", "Plomberie"),
    Category("chauffage", "Chauffage"),
    Category("sanitaire", "Sanitaire"),
    Category("autre", "Autre")
  ]

  const PriorityLevels: seq<Priority> := [
    Priority(0, "Normal", "bg-gray-100 text-gray-800"),
    Priority(1, "Urgent", "bg-orange-100 text-orange-800"),
    Priority(2, "Urgence absolue", "bg-red-100 text-red-800")
  ]

  /** Whether `p` is the value of some priority level. */
  predicate IsPriority(p: int) {
    exists i :: 0 <= i < |PriorityLevels| && PriorityLevels[i].value == p
  }

  /** The priority table lists exactly the values 0, 1 and 2, each at its own index. */
  lemma PriorityValues()
    ensures forall i :: 0 <= i < |PriorityLevels| ==> PriorityLevels[i].value == i
    ensures forall p :: IsPriority(p) <==> 0 <= p <= 2
  {
    forall p ensures IsPriority(p) <==> 0 <= p <= 2 {
      if 0 <= p <= 2 {
        assert PriorityLevels[p].value == p;
      }
    }
  }

  /** The Swiss VAT rate, 7.7 %, in per mille. */
  const DefaultVatPermille: int := 77

  datatype BusinessHours = BusinessHours(startTime: string, endTime: string, daysOfWeek: seq<int>)

  datatype CalendarConfig = CalendarConfig(
    locale: string, firstDay: int, businessHours: BusinessHours,
    slotDuration: string, slotMinTime: string, slotMaxTime: string)

  const Calendar: CalendarConfig := CalendarConfig(
    "fr-CH", 1, BusinessHours("07:00", "18:00", [1, 2, 3, 4, 5]),
    "00:30:00", "06:00:00", "20:00:00")

  /** Whether `day` (0 = Sunday) is a business day. */
  predicate IsBusinessDay(day: int) {
    day in Calendar.businessHours.daysOfWeek
  }

  /** Business days are exactly Monday (1) to Friday (5); the week starts on Monday. */
  lemma BusinessDays(day: int)
    ensures IsBusinessDay(day) <==> 1 <= day <= 5
    ensures Calendar.firstDay == 1
  {
  }
}
