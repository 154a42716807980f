/**
 * POST /api/webhooks/calendar-sync
 * (src/app/api/webhooks/calendar-sync/route.ts): keeps interventions in
 * step with Google Calendar events. A deleted event cancels its
 * interventions; a created or updated event is upserted on its event id,
 * with a technician taken from the attendees and a regie taken from a
 * `[KEYWORD]` tag in the title.
 */
module CalendarSync {
  import opened Wrappers
  import opened Strings
  import opened Database
  import opened Webhook
  import opened Backend

  datatype EventAction = Created | Updated | Deleted

  datatype Attendee = Attendee(email: string, name: Option<string>)

  /**
   * The validated body. `startMs` and `endMs` are what `new Date(...).getTime()`
   * gives for the two date-time strings.
   */
  datatype Payload = Payload(
    eventId: string, action: EventAction, title: string, description: Option<string>,
    startDatetime: string, endDatetime: string, startMs: int, endMs: int,
    location: Option<string>, attendees: Option<seq<Attendee>>, regieKeyword: Option<string>)

  datatype Response =
    | Unauthorized
    | InvalidData
    | ServerError
    | Cancelled(eventId: string)
    | Synced(interventionId: Id, action: EventAction, technicianAssigned: bool, regieMatched: bool)
  {
    function Status(): int {
      match this
      case Unauthorized => 401
      case InvalidData => 400
      case ServerError => 500
      case _ => 200
    }
  }

  // ------------------------------------------------------------------
  // The title tag: /\[([A-Z]+)\]/
  // ------------------------------------------------------------------

  predicate IsUpper(c: char) {
    'A' <= c <= 'Z'
  }

  /** Length of the run of ASCII capitals at the front of `s`. */
  function UpperRun(s: string): (k: nat)
    ensures k <= |s|
    ensures forall i :: 0 <= i < k ==> IsUpper(s[i])
    ensures k < |s| ==> !IsUpper(s[k])
  {
    if |s| > 0 && IsUpper(s[0]) then 1 + UpperRun(s[1..]) else 0
  }

  /** The capitals after the `[` at position `i`. */
  function TagLength(s: string, i: nat): nat
    requires i < |s|
  {
    UpperRun(s[i + 1..])
  }

  /**
   * The regular expression matches at `i`: a `[`, one or more capitals and
   * a `]`. As `]` is not a capital, only the longest run of capitals can be
   * followed by it, so the greedy match is the only one.
   */
  predicate TagAt(s: string, i: nat) {
    i < |s| && s[i] == '[' && TagLength(s, i) >= 1
    && i + 1 + TagLength(s, i) < |s| && s[i + 1 + TagLength(s, i)] == ']'
  }

  /** The leftmost match at or after `from`. */
  function FirstTag(s: string, from: nat): (r: Option<nat>)
    requires from <= |s|
    decreases |s| - from
    ensures r.Some? ==> from <= r.value && TagAt(s, r.value)
    ensures r.Some? ==> forall j :: from <= j < r.value ==> !TagAt(s, j)
    ensures r.None? ==> forall j :: from <= j < |s| ==> !TagAt(s, j)
  {
    if from == |s| then None
    else if TagAt(s, from) then Some(from)
    else FirstTag(s, from + 1)
  }

  /** The capitals inside the tag at `i`. */
  function TagText(s: string, i: nat): string
    requires TagAt(s, i)
  {
    s[i + 1..i + 1 + TagLength(s, i)]
  }

  /** The title without the tag at `i` and the white space after it, trimmed. */
  function WithoutTag(s: string, i: nat): string
    requires TagAt(s, i)
  {
    Trim(s[..i] + TrimStart(s[i + 2 + TagLength(s, i)..]))
  }

  /** `extractKeywordFromTitle`: the capitals of the first tag, if any. */
  function ExtractKeyword(title: string): (r: Option<string>)
    ensures r.None? <==> forall j :: 0 <= j < |title| ==> !TagAt(title, j)
    ensures r.Some? ==> exists i :: (0 <= i < |title| && TagAt(title, i)
      && (forall j :: 0 <= j < i ==> !TagAt(title, j))
      && r.value == title[i + 1..i + 1 + TagLength(title, i)])
    ensures r.Some? ==> |r.value| >= 1 && forall i :: 0 <= i < |r.value| ==> IsUpper(r.value[i])
  {
    match FirstTag(title, 0)
    case Some(i) => Some(TagText(title, i))
    case None => None
  }

  /** `cleanTitle`: drop the first tag and the white space after it, then trim. */
  function CleanTitle(title: string): (r: string)
    ensures |r| <= |title|
  {
    match FirstTag(title, 0)
    case Some(i) => WithoutTag(title, i)
    case None => Trim(title)
  }

  /**
   * Whatever surrounds it, the first tag of a title gives the keyword, and
   * the clean title is the text before it followed by the text after it
   * without its leading white space, trimmed.
   */
  lemma FirstTagOfTitle(title: string, i: nat)
    requires i < |title| && TagAt(title, i)
    requires forall j :: 0 <= j < i ==> !TagAt(title, j)
    ensures ExtractKeyword(title) == Some(TagText(title, i))
    ensures CleanTitle(title) == WithoutTag(title, i)
  {
    FirstTagFrom(title, 0, i);
  }

  /** A run of capitals stops before a character that is not a capital. */
  lemma {:induction false} UpperRunAppend(a: string, b: string)
    requires b != [] && !IsUpper(b[0])
    ensures UpperRun(a + b) == UpperRun(a)
  {
    if a != [] {
      assert (a + b)[0] == a[0];
      assert (a + b)[1..] == a[1..] + b;
      UpperRunAppend(a[1..], b);
    }
  }

  /** No tag of `pre` means no tag starting inside `pre` once `[`, and anything, follow it. */
  lemma NoTagBefore(pre: string, tail: string, j: nat)
    requires tail != [] && tail[0] == '['
    requires j < |pre| && !TagAt(pre, j)
    ensures !TagAt(pre + tail, j)
  {
    var t := pre + tail;
    if t[j] == '[' {
      assert t[j + 1..] == pre[j + 1..] + tail;
      UpperRunAppend(pre[j + 1..], tail);
      var l := TagLength(pre, j);
      assert TagLength(t, j) == l;
      if j + 1 + l < |pre| {
        assert t[j + 1 + l] == pre[j + 1 + l];
      } else {
        assert t[j + 1 + l] == '[';
      }
    }
  }

  lemma {:induction false} UpperRunStopsAtBracket(kw: string, rest: string)
    requires forall i :: 0 <= i < |kw| ==> IsUpper(kw[i])
    ensures UpperRun(kw + "]" + rest) == |kw|
  {
    if kw != [] {
      assert (kw + "]" + rest)[1..] == kw[1..] + "]" + rest;
      UpperRunStopsAtBracket(kw[1..], rest);
    }
  }

  /**
   * A title whose first tag is `[kw]`: the keyword is `kw`, and
   * the clean title keeps the text before the tag and the text after it
   * (without its leading white space), trimmed. Later tags stay in place.
   */
  lemma TaggedTitle(pre: string, kw: string, rest: string)
    requires forall j :: 0 <= j < |pre| ==> !TagAt(pre, j)
    requires |kw| >= 1 && forall i :: 0 <= i < |kw| ==> IsUpper(kw[i])
    ensures ExtractKeyword(pre + "[" + kw + "]" + rest) == Some(kw)
    ensures CleanTitle(pre + "[" + kw + "]" + rest) == Trim(pre + TrimStart(rest))
  {
    var t := pre + "[" + kw + "]" + rest;
    var tail := "[" + kw + "]" + rest;
    BracketedTag(pre, kw, rest);
    assert t == pre + tail by {
      BracketedParts(pre, kw, rest);
    }
    forall j | 0 <= j < |pre| ensures !TagAt(pre + tail, j) {
      NoTagBefore(pre, tail, j);
    }
    FirstTagOfTitle(t, |pre|);
  }

  /** `[kw]` after `pre` is a tag, with text `kw`, and removing it leaves `pre` and `rest`. */
  lemma BracketedTag(pre: string, kw: string, rest: string)
    requires |kw| >= 1 && forall i :: 0 <= i < |kw| ==> IsUpper(kw[i])
    ensures var t := pre + "[" + kw + "]" + rest;
      && TagAt(t, |pre|)
      && TagText(t, |pre|) == kw
      && WithoutTag(t, |pre|) == Trim(pre + TrimStart(rest))
  {
    var t := pre + "[" + kw + "]" + rest;
    var n := |pre|;
    BracketedParts(pre, kw, rest);
    UpperRunStopsAtBracket(kw, rest);
    assert TagLength(t, n) == |kw|;
  }

  /** Where the parts of `pre + "[" + kw + "]" + rest` sit. */
  lemma BracketedParts(pre: string, kw: string, rest: string)
    ensures var t := pre + "[" + kw + "]" + rest;
      && t == pre + ("[" + kw + "]" + rest)
      && t[|pre|] == '['
      && t[|pre| + 1..] == kw + "]" + rest
      && t[|pre| + 1..|pre| + 1 + |kw|] == kw
      && t[..|pre|] == pre
      && t[|pre| + 2 + |kw|..] == rest
  {
    var t := pre + "[" + kw + "]" + rest;
    assert t[|pre| + 1..] == kw + "]" + rest;
  }

  /** The leftmost tag at or after `from` is at `n` when `n` is a tag and nothing before it is. */
  lemma {:induction false} FirstTagFrom(s: string, from: nat, n: nat)
    requires from <= n <= |s|
    requires TagAt(s, n)
    requires forall j :: from <= j < n ==> !TagAt(s, j)
    ensures FirstTag(s, from) == Some(n)
    decreases n - from
  {
    if from < n {
      FirstTagFrom(s, from + 1, n);
    }
  }

  /** A title without a tag has no keyword, and cleaning it only trims it. */
  lemma UntaggedTitle(title: string)
    requires forall j :: 0 <= j < |title| ==> !TagAt(title, j)
    ensures ExtractKeyword(title).None?
    ensures CleanTitle(title) == Trim(title)
  {
  }

  /** `regie_keyword || extractKeywordFromTitle(title)`: an explicit non-empty keyword wins. */
  function KeywordToSearch(explicit: Option<string>, title: string): (r: Option<string>)
    ensures explicit.Some? && explicit.value != "" ==> r == explicit
    ensures (explicit.None? || explicit.value == "") ==> r == ExtractKeyword(title)
    ensures r.Some? ==> r.value != ""
  {
    if explicit.Some? && explicit.value != "" then explicit else ExtractKeyword(title)
  }

  // ------------------------------------------------------------------
  // Technician from the attendees
  // ------------------------------------------------------------------

  /** An address of the company: it contains one of its three domains. */
  predicate CompanyEmail(e: string) {
    Includes(e, "@richoz-sanitaire.ch") || Includes(e, "@richoz.ch") || Includes(e, "@lxstudio.ch")
  }

  /** `attendees.find(company address)?.email`: the first company address, if any. */
  function FindTechEmail(attendees: seq<Attendee>): (r: Option<string>)
    ensures r.None? <==> forall i :: 0 <= i < |attendees| ==> !CompanyEmail(attendees[i].email)
    ensures r.Some? ==> exists i :: (0 <= i < |attendees| && attendees[i].email == r.value
      && CompanyEmail(r.value) && forall j :: 0 <= j < i ==> !CompanyEmail(attendees[j].email))
  {
    if attendees == [] then None
    else if CompanyEmail(attendees[0].email) then Some(attendees[0].email)
    else
      var r := FindTechEmail(attendees[1..]);
      FindTechEmailSkip(attendees, r);
      r
  }

  /** Skipping a first attendee that is not a company address keeps the search result's meaning. */
  lemma FindTechEmailSkip(attendees: seq<Attendee>, r: Option<string>)
    requires attendees != [] && !CompanyEmail(attendees[0].email)
    requires var rest := attendees[1..];
      (r.None? <==> forall i :: 0 <= i < |rest| ==> !CompanyEmail(rest[i].email))
      && (r.Some? ==> exists i :: (0 <= i < |rest| && rest[i].email == r.value
           && CompanyEmail(r.value) && forall j :: 0 <= j < i ==> !CompanyEmail(rest[j].email)))
    ensures r.None? <==> forall i :: 0 <= i < |attendees| ==> !CompanyEmail(attendees[i].email)
    ensures r.Some? ==> exists i :: (0 <= i < |attendees| && attendees[i].email == r.value
      && CompanyEmail(r.value) && forall j :: 0 <= j < i ==> !CompanyEmail(attendees[j].email))
  {
    var rest := attendees[1..];
    if r.Some? {
      var i :| 0 <= i < |rest| && rest[i].email == r.value
        && CompanyEmail(r.value) && forall j :: 0 <= j < i ==> !CompanyEmail(rest[j].email);
      assert attendees[i + 1].email == r.value;
      forall j | 0 <= j < i + 1 ensures !CompanyEmail(attendees[j].email) {
        if j > 0 { assert attendees[j] == rest[j - 1]; }
      }
    } else {
      forall i | 0 <= i < |attendees| ensures !CompanyEmail(attendees[i].email) {
        if i > 0 { assert attendees[i] == rest[i - 1]; }
      }
    }
  }

  /** The technician the event is assigned to: the single technician user with the first company address. */
  function TechnicianFor(db: Store, attendees: Option<seq<Attendee>>): (r: Option<Id>)
    reads db
    ensures attendees.None? || FindTechEmail(attendees.value).None? ==> r.None?
    ensures attendees.Some? && FindTechEmail(attendees.value).Some? ==>
      (r.Some? <==> |db.TechniciansWithEmail(FindTechEmail(attendees.value).value)| == 1)
    ensures r.Some? ==>
      attendees.Some? && FindTechEmail(attendees.value).Some?
      && r.value in db.users && db.users[r.value].role == Technician
      && db.users[r.value].email == FindTechEmail(attendees.value).value
  {
    if attendees.None? then None
    else
      var email := FindTechEmail(attendees.value);
      if email.None? then None else SingleMatch(db.TechniciansWithEmail(email.value))
  }

  /** The regie matched by the keyword, compared without regard to case. */
  function RegieFor(db: Store, keyword: Option<string>): (r: Option<Id>)
    reads db
    ensures keyword.None? ==> r.None?
    ensures keyword.Some? ==> (r.Some? <==> |db.RegiesWithKeyword(keyword.value)| == 1)
    ensures r.Some? ==> keyword.Some? && r.value in db.regies && ILike(db.regies[r.value].keyword, keyword.value)
  {
    if keyword.None? then None else SingleMatch(db.RegiesWithKeyword(keyword.value))
  }

  // ------------------------------------------------------------------
  // Duration and the upserted row
  // ------------------------------------------------------------------

  /** `Math.round((end - start) / 60000)`: whole minutes, nearest, halves up; may be zero or negative. */
  function DurationMinutes(startMs: int, endMs: int): (m: int)
    ensures 60000 * m - 30000 <= endMs - startMs < 60000 * m + 30000
  {
    (endMs - startMs + 30000) / 60000
  }

  /** A one-hour event lasts 60 minutes; an event ending before it starts has a negative duration. */
  lemma DurationExamples()
    ensures DurationMinutes(0, 3600000) == 60
    ensures DurationMinutes(0, 89999) == 1 && DurationMinutes(0, 90000) == 2
    ensures DurationMinutes(60000, 0) == -1
  {
  }

  /** The columns the upsert writes, over whatever the row held before. */
  function FromEvent(i: Intervention, p: Payload, tech: Option<Id>, regie: Option<Id>): (r: Intervention)
    ensures r.calendarEventId == Some(p.eventId) && r.status == Planifie && r.sourceType == "calendar"
    ensures r.title == CleanTitle(p.title) && r.datePlanned == Some(p.startDatetime)
    ensures r.technicianId == tech && r.regieId == regie
    ensures r.description == OrNull(p.description) && r.address == p.location.GetOr("")
    ensures r.estimatedDurationMinutes == DurationMinutes(p.startMs, p.endMs)
    // the columns the upsert does not name keep the row's values
    ensures r.dateCompleted == i.dateCompleted && r.clientInfo == i.clientInfo && r.priority == i.priority
    ensures r.sourceEmailId == i.sourceEmailId && r.notes == i.notes && r.workOrderNumber == i.workOrderNumber
  {
    i.(calendarEventId := Some(p.eventId), title := CleanTitle(p.title),
       description := OrNull(p.description), address := p.location.GetOr(""),
       datePlanned := Some(p.startDatetime),
       estimatedDurationMinutes := DurationMinutes(p.startMs, p.endMs),
       technicianId := tech, regieId := regie, status := Planifie, sourceType := "calendar")
  }

  /** The columns of a new row that the upsert does not write, at their table defaults. */
  const BlankIntervention: Intervention := Intervention(
    None, None, Nouveau, "", None, "", None, None, 60, None, None, None, "", 0, None, None)

  /** Every intervention of event `e` becomes `annule`; nothing else changes. */
  function CancelEvent(interventions: map<Id, Intervention>, e: string): (r: map<Id, Intervention>)
    ensures r.Keys == interventions.Keys
    ensures forall id :: id in r ==>
      r[id] == (if interventions[id].calendarEventId == Some(e)
                then interventions[id].(status := Annule) else interventions[id])
  {
    map id | id in interventions ::
      if interventions[id].calendarEventId == Some(e) then interventions[id].(status := Annule)
      else interventions[id]
  }

  /** `deleted`: every intervention of the event is cancelled; no lookup is made. */
  method CancelByEvent(db: Store, eventId: string, fails: set<Write>) returns (resp: Response)
    requires db.Valid()
    modifies db
    ensures db.Valid()
    ensures InterventionCancel in fails ==> resp == ServerError && db.Snapshot() == old(db.Snapshot())
    ensures InterventionCancel !in fails ==>
      resp == Cancelled(eventId)
      && db.Snapshot() == old(db.Snapshot()).(interventions := CancelEvent(old(db.interventions), eventId))
  {
    if InterventionCancel in fails {
      return ServerError;
    }
    CancelKeepsEventIds(db.interventions, eventId);
    db.interventions := CancelEvent(db.interventions, eventId);
    return Cancelled(eventId);
  }

  /** The technician lookup: the first company address, then the technician user with exactly that address. */
  method ResolveTechnician(db: Store, attendees: Option<seq<Attendee>>) returns (technicianId: Option<Id>)
    ensures technicianId == TechnicianFor(db, attendees)
    ensures technicianId.Some? ==>
      attendees.Some? && FindTechEmail(attendees.value).Some?
      && db.TechniciansWithEmail(FindTechEmail(attendees.value).value) == {technicianId.value}
  {
    technicianId := None;
    if attendees.Some? {
      var techEmail := FindTechEmail(attendees.value);
      if techEmail.Some? {
        technicianId := SingleMatch(db.TechniciansWithEmail(techEmail.value));
      }
    }
  }

  /** The regie lookup: only when there is a keyword to search for. */
  method ResolveRegie(db: Store, keyword: Option<string>) returns (regieId: Option<Id>)
    ensures regieId == RegieFor(db, keyword)
    ensures regieId.Some? ==> keyword.Some? && db.RegiesWithKeyword(keyword.value) == {regieId.value}
  {
    regieId := None;
    if keyword.Some? {
      regieId := SingleMatch(db.RegiesWithKeyword(keyword.value));
    }
  }

  /** The upsert on the event id: the event's existing row is rewritten, or a new row is added. */
  method WriteEventRow(db: Store, p: Payload, tech: Option<Id>, regie: Option<Id>) returns (id: Id)
    requires db.Valid()
    modifies db
    ensures db.Valid()
    ensures old(db.InterventionsWithEvent(p.eventId)) <= {id}
    ensures id !in old(db.interventions) ==> old(db.InterventionsWithEvent(p.eventId)) == {}
    ensures db.Snapshot() == old(db.Snapshot()).(interventions := old(db.interventions)[id :=
      FromEvent(if id in old(db.interventions) then old(db.interventions)[id] else BlankIntervention, p, tech, regie)])
  {
    var existing := db.InterventionsWithEvent(p.eventId);
    var row: Intervention;
    if existing != {} {
      id :| id in existing;
      assert existing == {id};
      row := FromEvent(db.interventions[id], p, tech, regie);
    } else {
      id := db.FreshId();
      row := FromEvent(BlankIntervention, p, tech, regie);
    }
    db.PutEventRow(id, row);
  }

  /**
   * `created` / `updated`: resolve the technician and the regie, then write
   * the event's row.
   */
  method UpsertEvent(db: Store, p: Payload, fails: set<Write>) returns (resp: Response)
    requires db.Valid() && p.action != Deleted
    modifies db
    ensures db.Valid()
    ensures InterventionUpsert in fails ==> resp == ServerError && db.Snapshot() == old(db.Snapshot())
    ensures InterventionUpsert !in fails ==>
      var tech := old(TechnicianFor(db, p.attendees));
      var regie := old(RegieFor(db, KeywordToSearch(p.regieKeyword, p.title)));
      resp.Synced? && resp.action == p.action
      && resp.technicianAssigned == tech.Some? && resp.regieMatched == regie.Some?
      && old(db.InterventionsWithEvent(p.eventId)) <= {resp.interventionId}
      && (resp.interventionId !in old(db.interventions) ==> old(db.InterventionsWithEvent(p.eventId)) == {})
      && db.Snapshot() == old(db.Snapshot()).(interventions := old(db.interventions)[resp.interventionId :=
           FromEvent(if resp.interventionId in old(db.interventions) then old(db.interventions)[resp.interventionId]
                     else BlankIntervention, p, tech, regie)])
  {
    var technicianId := ResolveTechnician(db, p.attendees);
    var regieId := ResolveRegie(db, KeywordToSearch(p.regieKeyword, p.title));
    if InterventionUpsert in fails {
      return ServerError;
    }
    var id := WriteEventRow(db, p, technicianId, regieId);
    return Synced(id, p.action, technicianId.Some?, regieId.Some?);
  }

  method Post(db: Store, req: Request<Payload>, secret: string, fails: set<Write>)
    returns (resp: Response)
    requires db.Valid()
    modifies db
    ensures db.Valid()
    ensures db.users == old(db.users) && db.regies == old(db.regies) && db.reports == old(db.reports)
    ensures db.emails == old(db.emails) && db.invoices == old(db.invoices)
    ensures !Authorized(req.authorization, secret) ==> resp == Unauthorized && db.Snapshot() == old(db.Snapshot())
    ensures Authorized(req.authorization, secret) && req.body.NotJson? ==>
      resp == ServerError && db.Snapshot() == old(db.Snapshot())
    ensures Authorized(req.authorization, secret) && req.body.SchemaError? ==>
      resp == InvalidData && db.Snapshot() == old(db.Snapshot())
    ensures Authorized(req.authorization, secret) && req.body.Parsed? && req.body.payload.action == Deleted ==>
      var e := req.body.payload.eventId;
      (InterventionCancel in fails ==> resp == ServerError && db.Snapshot() == old(db.Snapshot()))
      && (InterventionCancel !in fails ==>
            resp == Cancelled(e) && db.interventions == CancelEvent(old(db.interventions), e))
    ensures Authorized(req.authorization, secret) && req.body.Parsed? && req.body.payload.action != Deleted ==>
      var p := req.body.payload;
      var tech := old(TechnicianFor(db, p.attendees));
      var regie := old(RegieFor(db, KeywordToSearch(p.regieKeyword, p.title)));
      (InterventionUpsert in fails ==> resp == ServerError && db.Snapshot() == old(db.Snapshot()))
      && (InterventionUpsert !in fails ==>
            resp.Synced? && resp.action == p.action
            && resp.technicianAssigned == tech.Some? && resp.regieMatched == regie.Some?
            && old(db.InterventionsWithEvent(p.eventId)) <= {resp.interventionId}
            && (resp.interventionId !in old(db.interventions) ==> old(db.InterventionsWithEvent(p.eventId)) == {})
            && db.interventions == old(db.interventions)[resp.interventionId :=
                 FromEvent(if resp.interventionId in old(db.interventions)
                           then old(db.interventions)[resp.interventionId]
                           else BlankIntervention, p, tech, regie)])
  {
    if !Authorized(req.authorization, secret) {
      return Unauthorized;
    }
    match req.body
    case NotJson => return ServerError;
    case SchemaError => return InvalidData;
    case Parsed(p) =>
      if p.action == Deleted {
        resp := CancelByEvent(db, p.eventId, fails);
      } else {
        resp := UpsertEvent(db, p, fails);
      }
  }

  /** Event ids are unique in a table. */
  predicate EventIdsUniqueIn(m: map<Id, Intervention>) {
    forall a, b ::
      a in m && b in m && a != b && m[a].calendarEventId.Some?
      ==> m[a].calendarEventId != m[b].calendarEventId
  }

  /** Cancelling touches only statuses, so event ids stay unique. */
  lemma CancelKeepsEventIds(m: map<Id, Intervention>, e: string)
    ensures EventIdsUniqueIn(m) ==> EventIdsUniqueIn(CancelEvent(m, e))
  {
  }
}
