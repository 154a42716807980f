/**
 * The technician's list of the day
 * (src/components/interventions/TodayInterventionsList.tsx): the cards kept
 * in sync with realtime row updates, the colour of each card's status bar
 * and the state of its report button.
 */
module TodayInterventionsList {
  import opened Wrappers
  import opened Strings
  import opened Database

  /** The intervention's own columns, which a realtime update carries. */
  datatype Columns = Columns(
    status: InterventionStatus, title: string, datePlanned: Option<string>,
    address: string, estimatedDurationMinutes: int)

  /** A card: the row's columns plus the joined regie name and reports, which an update does not carry. */
  datatype Card = Card(id: Id, columns: Columns, regieName: Option<string>, reports: Option<seq<ReportStatus>>)

  /** A realtime UPDATE: the new columns of one row. */
  datatype RowUpdate = RowUpdate(id: Id, columns: Columns)

  /** `{ ...i, ...updated }`: the update's columns over the card's, the joined data kept. */
  function Merge(c: Card, u: RowUpdate): (r: Card)
    requires c.id == u.id
    ensures r.id == c.id && r.columns == u.columns
    ensures r.regieName == c.regieName && r.reports == c.reports
  {
    c.(columns := u.columns)
  }

  /** `prev.map((i) => i.id === updated.id ? { ...i, ...updated } : i)` */
  function ApplyUpdate(cards: seq<Card>, u: RowUpdate): (r: seq<Card>)
    ensures |r| == |cards|
    ensures forall i :: 0 <= i < |cards| && cards[i].id != u.id ==> r[i] == cards[i]
    ensures forall i :: 0 <= i < |cards| && cards[i].id == u.id ==> r[i] == Merge(cards[i], u)
    ensures forall i :: 0 <= i < |cards| ==> r[i].id == cards[i].id
  {
    seq(|cards|, i requires 0 <= i < |cards| => if cards[i].id == u.id then Merge(cards[i], u) else cards[i])
  }

  /** An update for an intervention not in the list changes nothing. */
  lemma UnknownIdChangesNothing(cards: seq<Card>, u: RowUpdate)
    requires forall i :: 0 <= i < |cards| ==> cards[i].id != u.id
    ensures ApplyUpdate(cards, u) == cards
  {
  }

  /** Receiving the same update twice is the same as once. */
  lemma UpdateIdempotent(cards: seq<Card>, u: RowUpdate)
    ensures ApplyUpdate(ApplyUpdate(cards, u), u) == ApplyUpdate(cards, u)
  {
  }

  /** The list's state. */
  class TodayList {
    var interventions: seq<Card>

    constructor(initial: seq<Card>)
      ensures interventions == initial
    {
      interventions := initial;
    }

    /** The realtime `onUpdate` callback. */
    method OnUpdate(u: RowUpdate)
      modifies this
      ensures interventions == ApplyUpdate(old(interventions), u)
    {
      interventions := ApplyUpdate(interventions, u);
    }

    /** New props replace whatever the updates had produced. */
    method PropsChanged(initial: seq<Card>)
      modifies this
      ensures interventions == initial
    {
      interventions := initial;
    }

    /** The empty state is shown exactly when there is no card. */
    predicate ShowsEmptyState()
      reads this
    {
      |interventions| == 0
    }
  }

  datatype BarColour = Green | Orange | Blue

  /** Done (finished, ready to bill, billed) is green, in progress orange, everything else blue. */
  function StatusBar(s: InterventionStatus): (c: BarColour)
    ensures c == Green <==> s == Termine || s == ReadyToBill || s == Billed
    ensures c == Orange <==> s == EnCours
    ensures c == Blue <==> s == Nouveau || s == Planifie || s == Annule
  {
    match s
    case Termine => Green
    case ReadyToBill => Green
    case Billed => Green
    case EnCours => Orange
    case _ => Blue
  }

  datatype ButtonStyle = SubmittedStyle | DraftStyle | DefaultStyle

  datatype ReportButton = ReportButton(href: string, text: string, style: ButtonStyle)

  /** The first report's status, when the card has a report. */
  function FirstReport(reports: Option<seq<ReportStatus>>): (r: Option<ReportStatus>)
    ensures r.None? <==> reports.None? || |reports.value| == 0
    ensures r.Some? ==> r.value == reports.value[0]
  {
    if reports.Some? && |reports.value| > 0 then Some(reports.value[0]) else None
  }

  /**
   * The report button: hidden for a cancelled intervention; otherwise it
   * links to the report page and reads "Faire un rapport" without a report,
   * "Rapport soumis" when the first report is submitted and "Modifier le
   * rapport" for any other first report.
   */
  function ReportButtonFor(c: Card): (b: Option<ReportButton>)
    ensures b.None? <==> c.columns.status == Annule
    ensures b.Some? ==> StartsWith(b.value.href, "/technician/report/")
    ensures b.Some? && FirstReport(c.reports).None? ==> b.value.text == "Faire un rapport" && b.value.style == DefaultStyle
    ensures b.Some? && FirstReport(c.reports) == Some(Submitted) ==>
      b.value.text == "Rapport soumis" && b.value.style == SubmittedStyle
    ensures b.Some? && FirstReport(c.reports) == Some(Draft) ==>
      b.value.text == "Modifier le rapport" && b.value.style == DraftStyle
    ensures b.Some? && FirstReport(c.reports).Some? && FirstReport(c.reports).value in {Validated, Rejected} ==>
      b.value.text == "Modifier le rapport" && b.value.style == DefaultStyle
  {
    if c.columns.status == Annule then None
    else
      var href := "/technician/report/" + NatToString(c.id);
      assert href[..19] == "/technician/report/";
      var first := FirstReport(c.reports);
      var text := if first.None? then "Faire un rapport"
        else if first.value == Submitted then "Rapport soumis" else "Modifier le rapport";
      var style := if first == Some(Submitted) then SubmittedStyle
        else if first == Some(Draft) then DraftStyle else DefaultStyle;
      Some(ReportButton(href, text, style))
  }

  /** An update that only changes the status keeps the button's text: it follows the reports, not the row. */
  lemma UpdateKeepsReportText(c: Card, u: RowUpdate)
    requires c.id == u.id && c.columns.status != Annule && u.columns.status != Annule
    ensures ReportButtonFor(Merge(c, u)).value.text == ReportButtonFor(c).value.text
  {
  }
}
