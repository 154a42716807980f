/**
 * POST /api/webhooks/invoice-validate
 * (src/app/api/webhooks/invoice-validate/route.ts): an administrator's
 * decision on a submitted report. `reject` stamps the report rejected;
 * `validate` stamps it validated and, for a billable report with line
 * items, inserts an invoice (7.7 % VAT) and marks the intervention billed.
 */
module InvoiceValidate {
  import opened Wrappers
  import opened Database
  import opened Webhook
  import opened Backend
  import Constants

  datatype Action = Validate | Reject

  /** The validated request body. Amounts in cents. */
  datatype Payload = Payload(
    reportId: Id, action: Action, validatedBy: Id, lineItems: Option<seq<LineItem>>,
    rejectionReason: Option<string>, discountAmount: Option<int>, notes: Option<string>)

  datatype NoInvoiceReason = NonBillable | NoLineItems {
    function Name(): string {
      match this
      case NonBillable => "non_billable"
      case NoLineItems => "no_line_items"
    }
  }

  datatype Response =
    | Unauthorized
    | InvalidData
    | ReportNotFound
    | ServerError
    | RejectedReport(reportId: Id, rejectionReason: Option<string>)
    | ValidatedWithoutInvoice(reportId: Id, reason: NoInvoiceReason)
    | ValidatedWithInvoice(reportId: Id, invoiceId: Id, invoiceNumber: string, total: int)
  {
    function Status(): int {
      match this
      case Unauthorized => 401
      case InvalidData => 400
      case ReportNotFound => 404
      case ServerError => 500
      case _ => 200
    }
  }

  /** The hard-coded VAT rate of the handler, 7.7 %, in per mille. */
  const VatPermille: int := 77

  /** The handler's rate is the application-wide default rate. */
  lemma VatRateIsDefault()
    ensures VatPermille == Constants.DefaultVatPermille
  {
  }

  /** `line_items.reduce((sum, item) => sum + item.total, 0)`, folded from the left. */
  function Subtotal(items: seq<LineItem>): int {
    if items == [] then 0 else Subtotal(items[..|items| - 1]) + items[|items| - 1].total
  }

  /** The subtotal of a concatenation is the sum of the subtotals. */
  lemma {:induction false} SubtotalAppend(a: seq<LineItem>, b: seq<LineItem>)
    ensures Subtotal(a + b) == Subtotal(a) + Subtotal(b)
  {
    if b != [] {
      assert (a + b)[..|a + b| - 1] == a + b[..|b| - 1];
      SubtotalAppend(a, b[..|b| - 1]);
    } else {
      assert a + b == a;
    }
  }

  /**
   * The subtotal reads only the `total` field of each line: two lists with
   * the same totals, whatever their quantities and unit prices, have the
   * same subtotal.
   */
  lemma {:induction false} SubtotalIgnoresQuantityAndPrice(a: seq<LineItem>, b: seq<LineItem>)
    requires |a| == |b|
    requires forall i :: 0 <= i < |a| ==> a[i].total == b[i].total
    ensures Subtotal(a) == Subtotal(b)
  {
    if a != [] {
      SubtotalIgnoresQuantityAndPrice(a[..|a| - 1], b[..|b| - 1]);
    }
  }

  /**
   * `Math.round(taxable * 0.077 * 100) / 100` in cents: the VAT is the
   * integer nearest to 7.7 % of the taxable amount, halves rounded up
   * (toward +infinity, as `Math.round` does).
   */
  function Vat(taxable: int): (v: int)
    ensures 1000 * v - 500 <= taxable * VatPermille < 1000 * v + 500
  {
    (taxable * VatPermille + 500) / 1000
  }

  /** A non-negative taxable amount has a VAT between zero and the amount itself. */
  lemma VatBounds(taxable: int)
    requires taxable >= 0
    ensures 0 <= Vat(taxable) <= taxable
  {
  }

  /** The VAT grows with the taxable amount. */
  lemma VatMonotone(a: int, b: int)
    requires a <= b
    ensures Vat(a) <= Vat(b)
  {
  }

  datatype Totals = Totals(subtotal: int, discount: int, taxable: int, vat: int, total: int)

  /**
   * The invoice figures: subtotal of the line totals, discount defaulting
   * to 0 (`discount_amount || 0`), taxable = subtotal - discount, VAT, and
   * total = taxable + VAT (already whole cents, so its rounding is exact).
   */
  function ComputeTotals(items: seq<LineItem>, discount: Option<int>): (t: Totals)
    ensures t.subtotal == Subtotal(items)
    ensures t.discount == (if discount.Some? then discount.value else 0)
    ensures t.taxable == t.subtotal - t.discount
    ensures 1000 * t.vat - 500 <= t.taxable * 77 < 1000 * t.vat + 500
    ensures t.total == t.taxable + t.vat
  {
    var subtotal := Subtotal(items);
    var d := discount.GetOr(0);
    Totals(subtotal, d, subtotal - d, Vat(subtotal - d), subtotal - d + Vat(subtotal - d))
  }

  /** Lines of CHF 100 and CHF 50 with no discount: VAT CHF 11.55, total CHF 161.55. */
  lemma ExampleTotals()
    ensures ComputeTotals([LineItem("a", 1, 10000, 10000), LineItem("b", 1, 5000, 5000)], None)
      == Totals(15000, 0, 15000, 1155, 16155)
  {
    var items := [LineItem("a", 1, 10000, 10000), LineItem("b", 1, 5000, 5000)];
    assert items[..1] == [items[0]];
    assert Subtotal(items) == 15000;
  }

  /** The report row after a decision: its status and the validator stamps. */
  function Decided(r: Report, status: ReportStatus, now: string, validator: Id): Report {
    r.(status := status, validatedAt := Some(now), validatedBy := Some(validator))
  }

  method Post(db: Store, req: Request<Payload>, secret: string, now: string,
              invoiceNumber: string, fails: set<Write>) returns (resp: Response)
    requires db.Valid()
    modifies db
    ensures db.Valid()
    ensures db.users == old(db.users) && db.regies == old(db.regies) && db.emails == old(db.emails)
    // 401 before anything is read or written
    ensures !Authorized(req.authorization, secret) ==> resp == Unauthorized && db.Snapshot() == old(db.Snapshot())
    ensures Authorized(req.authorization, secret) && req.body.NotJson? ==>
      resp == ServerError && db.Snapshot() == old(db.Snapshot())
    ensures Authorized(req.authorization, secret) && req.body.SchemaError? ==>
      resp == InvalidData && db.Snapshot() == old(db.Snapshot())
    ensures Authorized(req.authorization, secret) && req.body.Parsed? ==>
      var p := req.body.payload;
      // unknown report: 404, nothing written
      (p.reportId !in old(db.reports) ==> resp == ReportNotFound && db.Snapshot() == old(db.Snapshot()))
      && (p.reportId in old(db.reports) ==>
        var r := old(db.reports)[p.reportId];
        // a failing report update aborts with 500 before any other write
        (ReportUpdate in fails ==> resp == ServerError && db.Snapshot() == old(db.Snapshot()))
        // reject: stamp only; the reason is echoed, not stored
        && (ReportUpdate !in fails && p.action == Reject ==>
              resp == RejectedReport(p.reportId, p.rejectionReason)
              && db.reports == old(db.reports)[p.reportId := Decided(r, Rejected, now, p.validatedBy)]
              && db.interventions == old(db.interventions) && db.invoices == old(db.invoices))
        // validate: stamp whatever the previous status was
        && (ReportUpdate !in fails && p.action == Validate ==>
              db.reports == old(db.reports)[p.reportId := Decided(r, Validated, now, p.validatedBy)])
        && (ReportUpdate !in fails && p.action == Validate && !r.isBillable ==>
              resp == ValidatedWithoutInvoice(p.reportId, NonBillable)
              && db.interventions == old(db.interventions) && db.invoices == old(db.invoices))
        && (ReportUpdate !in fails && p.action == Validate && r.isBillable
            && (p.lineItems.None? || p.lineItems.value == []) ==>
              resp == ValidatedWithoutInvoice(p.reportId, NoLineItems)
              && db.interventions == old(db.interventions) && db.invoices == old(db.invoices))
        && (ReportUpdate !in fails && p.action == Validate && r.isBillable
            && p.lineItems.Some? && p.lineItems.value != [] && InvoiceInsert in fails ==>
              resp == ServerError
              && db.interventions == old(db.interventions) && db.invoices == old(db.invoices))
        && (ReportUpdate !in fails && p.action == Validate && r.isBillable
            && p.lineItems.Some? && p.lineItems.value != [] && InvoiceInsert !in fails ==>
              var t := ComputeTotals(p.lineItems.value, p.discountAmount);
              resp.ValidatedWithInvoice? && resp.reportId == p.reportId
              && resp.invoiceId !in old(db.invoices) && resp.total == t.total
              && db.invoices == old(db.invoices)[resp.invoiceId := Invoice(
                   p.reportId, invoiceNumber, p.lineItems.value, t.subtotal, t.discount,
                   VatPermille, t.vat, t.total, "pending_validation")]
              // the intervention becomes billed; a failure of that update is ignored
              && db.interventions == (
                   if InterventionUpdate !in fails && r.interventionId in old(db.interventions)
                   then old(db.interventions)[r.interventionId :=
                          old(db.interventions)[r.interventionId].(status := Billed)]
                   else old(db.interventions))))
  {
    if !Authorized(req.authorization, secret) {
      return Unauthorized;
    }
    match req.body
    case NotJson => return ServerError;
    case SchemaError => return InvalidData;
    case Parsed(p) =>
      if p.reportId !in db.reports {
        return ReportNotFound;
      }
      var report := db.reports[p.reportId];

      if p.action == Reject {
        if ReportUpdate in fails {
          return ServerError;
        }
        db.PutReport(p.reportId, Decided(report, Rejected, now, p.validatedBy));
        return RejectedReport(p.reportId, p.rejectionReason);
      }

      if ReportUpdate in fails {
        return ServerError;
      }
      db.PutReport(p.reportId, Decided(report, Validated, now, p.validatedBy));

      if !report.isBillable {
        return ValidatedWithoutInvoice(p.reportId, NonBillable);
      }

      if p.lineItems.Some? && |p.lineItems.value| > 0 {
        var t := ComputeTotals(p.lineItems.value, p.discountAmount);
        if InvoiceInsert in fails {
          return ServerError;
        }
        var id := db.FreshId();
        db.PutInvoice(id, Invoice(
          p.reportId, invoiceNumber, p.lineItems.value, t.subtotal, t.discount,
          VatPermille, t.vat, t.total, "pending_validation"));
        if InterventionUpdate !in fails && report.interventionId in db.interventions {
          db.PutIntervention(report.interventionId, db.interventions[report.interventionId].(status := Billed));
        }
        return ValidatedWithInvoice(p.reportId, id, invoiceNumber, t.total);
      }

      return ValidatedWithoutInvoice(p.reportId, NoLineItems);
  }

  /** The status stored on a new invoice is none of the `InvoiceStatus` names. */
  lemma PendingValidationIsNotAnInvoiceStatus()
    ensures ParseInvoiceStatus("pending_validation").None?
  {
  }
}
