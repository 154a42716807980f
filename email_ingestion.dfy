/**
 * POST /api/webhooks/email-ingestion
 * (src/app/api/webhooks/email-ingestion/route.ts): an e-mail already parsed
 * by the n8n Gmail workflow. A message id seen before is answered as a
 * duplicate; otherwise a regie is looked up by the given keyword and the
 * mail is stored in the inbox with status `new`.
 */
module EmailIngestion {
  import opened Wrappers
  import opened Strings
  import opened Database
  import opened Webhook
  import opened Backend

  /** The request body; the confidence is a JSON number, kept as a real. */
  datatype Payload = Payload(
    gmailMessageId: string, receivedAt: string, fromEmail: string,
    fromName: Option<string>, subject: Option<string>, bodyText: Option<string>,
    bodyHtml: Option<string>, extractedData: Option<ExtractedEmailData>,
    regieKeyword: Option<string>, confidenceScore: Option<real>,
    workOrderNumber: Option<string>)

  datatype Response =
    | Unauthorized
    | InvalidData
    | ServerError
    | Duplicate(existingId: Id)
    | Ingested(emailId: Id, regieMatched: bool, regieId: Option<Id>)
  {
    function Status(): int {
      match this
      case Unauthorized => 401
      case InvalidData => 400
      case ServerError => 500
      case _ => 200
    }
  }

  /** `z.number().min(0).max(1).optional()`: the one range the schema checks. */
  predicate ConfidenceInRange(p: Payload) {
    p.confidenceScore.None? || 0.0 <= p.confidenceScore.value <= 1.0
  }

  /** `confidence_score || null`: absent and zero are both stored as null. */
  function ConfidenceOrNull(c: Option<real>): (r: Option<real>)
    ensures r.None? <==> (c.None? || c.value == 0.0)
    ensures r.Some? ==> r == c
  {
    if c.Some? && c.value != 0.0 then c else None
  }

  /**
   * The inbox row written for `p`: absent or empty text fields as null, the
   * extracted data defaulting to the empty object, the regie found (if
   * any) and status `new`.
   */
  function InboxRow(p: Payload, regieId: Option<Id>): (r: EmailRow)
    ensures r.gmailMessageId == p.gmailMessageId && r.receivedAt == p.receivedAt
    ensures r.fromEmail == p.fromEmail && r.regieId == regieId && r.status == "new"
    ensures r.fromName.None? <==> (p.fromName.None? || p.fromName.value == "")
    ensures r.fromName.Some? ==> r.fromName == p.fromName
    ensures r.subject.None? <==> (p.subject.None? || p.subject.value == "")
    ensures r.subject.Some? ==> r.subject == p.subject
    ensures r.bodyText.None? <==> (p.bodyText.None? || p.bodyText.value == "")
    ensures r.bodyText.Some? ==> r.bodyText == p.bodyText
    ensures r.bodyHtml.None? <==> (p.bodyHtml.None? || p.bodyHtml.value == "")
    ensures r.bodyHtml.Some? ==> r.bodyHtml == p.bodyHtml
    ensures p.extractedData.None? ==> r.extractedData == EmptyExtractedData
    ensures p.extractedData.Some? ==> r.extractedData == p.extractedData.value
    ensures r.confidenceScore.None? <==> (p.confidenceScore.None? || p.confidenceScore.value == 0.0)
    ensures r.confidenceScore.Some? ==> r.confidenceScore == p.confidenceScore
    ensures r.workOrderNumber.None? <==> (p.workOrderNumber.None? || p.workOrderNumber.value == "")
    ensures r.workOrderNumber.Some? ==> r.workOrderNumber == p.workOrderNumber
  {
    EmailRow(p.gmailMessageId, p.receivedAt, p.fromEmail, OrNull(p.fromName),
      OrNull(p.subject), OrNull(p.bodyText), OrNull(p.bodyHtml),
      p.extractedData.GetOr(EmptyExtractedData), regieId,
      ConfidenceOrNull(p.confidenceScore), OrNull(p.workOrderNumber), "new")
  }

  /** The regie id `regie_keyword` selects: none without a non-empty keyword, else the single case-insensitive match. */
  function KeywordRegie(db: Store, keyword: Option<string>): (r: Option<Id>)
    reads db
    ensures (keyword.None? || keyword.value == "") ==> r.None?
    ensures keyword.Some? && keyword.value != "" ==>
      (r.Some? <==> |db.RegiesWithKeyword(keyword.value)| == 1)
    ensures r.Some? ==> r.value in db.regies && ILike(db.regies[r.value].keyword, keyword.value)
  {
    if keyword.Some? && keyword.value != "" then
      var m := SingleMatch(db.RegiesWithKeyword(keyword.value));
      assert m.Some? ==> m.value in db.RegiesWithKeyword(keyword.value);
      m
    else None
  }

  method Post(db: Store, req: Request<Payload>, secret: string, fails: set<Write>)
    returns (resp: Response)
    requires db.Valid()
    modifies db
    ensures db.Valid()
    // only the inbox table can change
    ensures db.interventions == old(db.interventions) && db.reports == old(db.reports)
    ensures db.regies == old(db.regies) && db.users == old(db.users) && db.invoices == old(db.invoices)
    ensures !Authorized(req.authorization, secret) ==> resp == Unauthorized && db.emails == old(db.emails)
    ensures Authorized(req.authorization, secret) && req.body.NotJson? ==>
      resp == ServerError && db.emails == old(db.emails)
    ensures Authorized(req.authorization, secret) && req.body.SchemaError? ==>
      resp == InvalidData && db.emails == old(db.emails)
    ensures Authorized(req.authorization, secret) && req.body.Parsed? ==>
      var p := req.body.payload;
      var seen := old(db.EmailsWithMessageId(p.gmailMessageId));
      var regie := old(KeywordRegie(db, p.regieKeyword));
      // a confidence outside [0, 1] fails the schema: 400
      (!ConfidenceInRange(p) ==> resp == InvalidData && db.emails == old(db.emails))
      // a message id on exactly one row: that row's id, nothing inserted
      && (ConfidenceInRange(p) && |seen| == 1 ==>
            resp.Duplicate? && seen == {resp.existingId} && db.emails == old(db.emails))
      && (ConfidenceInRange(p) && |seen| != 1 && EmailInsert in fails ==>
            resp == ServerError && db.emails == old(db.emails))
      // otherwise one new row, and the response echoes the regie found
      && (ConfidenceInRange(p) && |seen| != 1 && EmailInsert !in fails ==>
            resp.Ingested? && resp.emailId !in old(db.emails)
            && resp.regieId == regie && (resp.regieMatched <==> regie.Some?)
            && db.emails == old(db.emails)[resp.emailId := InboxRow(p, regie)])
  {
    if !Authorized(req.authorization, secret) {
      return Unauthorized;
    }
    match req.body
    case NotJson => return ServerError;
    case SchemaError => return InvalidData;
    case Parsed(p) =>
      if !ConfidenceInRange(p) {
        return InvalidData;
      }
      var existing := SingleMatch(db.EmailsWithMessageId(p.gmailMessageId));
      if existing.Some? {
        return Duplicate(existing.value);
      }
      var regieId: Option<Id> := None;
      if p.regieKeyword.Some? && p.regieKeyword.value != "" {
        var regie := SingleMatch(db.RegiesWithKeyword(p.regieKeyword.value));
        if regie.Some? {
          regieId := regie;
        }
      }
      if EmailInsert in fails {
        return ServerError;
      }
      var id := db.FreshId();
      db.emails := db.emails[id := InboxRow(p, regieId)];
      return Ingested(id, regieId.Some?, regieId);
  }

  /**
   * Ingesting the same message twice inserts one row: once a message id is
   * on exactly one row, the next delivery of it finds that row.
   */
  lemma SecondDeliveryIsDuplicate(emails: map<Id, EmailRow>, id: Id, p: Payload, regie: Option<Id>)
    requires id !in emails
    requires forall k :: k in emails ==> emails[k].gmailMessageId != p.gmailMessageId
    ensures var after := emails[id := InboxRow(p, regie)];
      (set k | k in after && after[k].gmailMessageId == p.gmailMessageId) == {id}
  {
    var after := emails[id := InboxRow(p, regie)];
    var s := set k | k in after && after[k].gmailMessageId == p.gmailMessageId;
    assert id in s;
    forall k | k in s ensures k == id {
    }
  }
}
