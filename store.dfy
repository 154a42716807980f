/**
 * The Supabase backend as the webhooks see it: one map per table, keyed
 * by row id, and a counter that hands out fresh ids on insert. The
 * queries the handlers make are functions of the tables, and
 * `SingleMatch` is `.single()`, which yields a row only when exactly one
 * row matches.
 */
module Backend {
  import opened Wrappers
  import opened Strings
  import opened Database

  /** `.single()`: the one element of `s`, or nothing when `s` is empty or has several. */
  function SingleMatch(s: set<Id>): (r: Option<Id>)
    ensures r.Some? <==> |s| == 1
    ensures r.Some? ==> s == {r.value}
  {
    if |s| == 1 then
      var x :| x in s;
      assert |s - {x}| == 0;
      assert s == {x};
      Some(x)
    else None
  }

  /** `ilike(column, pattern)` without wildcards: equality up to ASCII case. */
  predicate ILike(column: string, pattern: string) {
    ToLower(column) == ToLower(pattern)
  }

  /** No intervention has two reports. */
  predicate ReportsUnique(reports: map<Id, Report>) {
    forall a, b :: a in reports && b in reports && a != b ==>
      reports[a].interventionId != reports[b].interventionId
  }

  /** The reports of intervention `iid`. */
  function ReportsFor(reports: map<Id, Report>, iid: Id): (r: set<Id>)
    ensures forall id :: id in r <==> id in reports && reports[id].interventionId == iid
  {
    set id | id in reports && reports[id].interventionId == iid
  }

  /** With unique reports, an intervention has no report or exactly one. */
  lemma UniqueReportsFor(reports: map<Id, Report>, iid: Id)
    requires ReportsUnique(reports)
    ensures |ReportsFor(reports, iid)| <= 1
  {
    var mine := ReportsFor(reports, iid);
    if mine != {} {
      var x :| x in mine;
      assert mine == {x};
    }
  }

  /** The contents of every table at one moment. */
  datatype Tables = Tables(
    interventions: map<Id, Intervention>, reports: map<Id, Report>, emails: map<Id, EmailRow>,
    regies: map<Id, Regie>, users: map<Id, User>, invoices: map<Id, Invoice>)

  class Store {
    var interventions: map<Id, Intervention>
    var reports: map<Id, Report>
    var emails: map<Id, EmailRow>
    var regies: map<Id, Regie>
    var users: map<Id, User>
    var invoices: map<Id, Invoice>
    var nextId: Id

    /** Every id in use is below `nextId`, and calendar-event ids are unique (the upsert's conflict key). */
    ghost predicate Valid()
      reads this
    {
      (forall id :: id in interventions ==> id < nextId)
      && (forall id :: id in reports ==> id < nextId)
      && (forall id :: id in emails ==> id < nextId)
      && (forall id :: id in regies ==> id < nextId)
      && (forall id :: id in users ==> id < nextId)
      && (forall id :: id in invoices ==> id < nextId)
      && EventIdsUnique()
    }

    predicate EventIdsUnique()
      reads this
    {
      forall a, b ::
        a in interventions && b in interventions && a != b && interventions[a].calendarEventId.Some?
        ==> interventions[a].calendarEventId != interventions[b].calendarEventId
    }

    /** The invariant report-submit keeps: no intervention has two reports. */
    predicate OneReportPerIntervention()
      reads this
    {
      ReportsUnique(reports)
    }

    constructor()
      ensures Valid()
      ensures interventions == map[] && reports == map[] && emails == map[]
      ensures regies == map[] && users == map[] && invoices == map[]
    {
      interventions, reports, emails := map[], map[], map[];
      regies, users, invoices := map[], map[], map[];
      nextId := 0;
    }

    /** The current contents of all tables. */
    function Snapshot(): Tables
      reads this
    {
      Tables(interventions, reports, emails, regies, users, invoices)
    }

    /** The reports of intervention `iid`. */
    function ReportsOf(iid: Id): set<Id>
      reads this
    {
      ReportsFor(reports, iid)
    }

    /** The inbox rows carrying Gmail message id `m`. */
    function EmailsWithMessageId(m: string): (r: set<Id>)
      reads this
      ensures forall id :: id in r <==> id in emails && emails[id].gmailMessageId == m
    {
      set id | id in emails && emails[id].gmailMessageId == m
    }

    /** The regies whose keyword matches `k` case-insensitively. */
    function RegiesWithKeyword(k: string): (r: set<Id>)
      reads this
      ensures forall id :: id in r <==> id in regies && ILike(regies[id].keyword, k)
    {
      set id | id in regies && ILike(regies[id].keyword, k)
    }

    /** The users with e-mail exactly `e` and role technician. */
    function TechniciansWithEmail(e: string): (r: set<Id>)
      reads this
      ensures forall id :: id in r <==> id in users && users[id].email == e && users[id].role == Technician
    {
      set id | id in users && users[id].email == e && users[id].role == Technician
    }

    /** The interventions linked to calendar event `e`. */
    function InterventionsWithEvent(e: string): (r: set<Id>)
      reads this
      ensures forall id :: id in r <==> id in interventions && interventions[id].calendarEventId == Some(e)
    {
      set id | id in interventions && interventions[id].calendarEventId == Some(e)
    }

    /** Writes row `r` of the regies table under an id already handed out. */
    method PutRegie(id: Id, r: Regie)
      requires Valid() && id < nextId
      modifies this
      ensures regies == old(regies)[id := r] && nextId == old(nextId)
      ensures interventions == old(interventions) && reports == old(reports) && emails == old(emails)
      ensures users == old(users) && invoices == old(invoices)
      ensures Valid()
    {
      regies := regies[id := r];
    }

    /** Writes row `r` of the reports table under an id already handed out. */
    method PutReport(id: Id, r: Report)
      requires Valid() && id < nextId
      modifies this
      ensures reports == old(reports)[id := r] && nextId == old(nextId)
      ensures interventions == old(interventions) && emails == old(emails) && regies == old(regies)
      ensures users == old(users) && invoices == old(invoices)
      ensures Valid()
    {
      reports := reports[id := r];
    }

    /** Writes row `r` of the invoices table under an id already handed out. */
    method PutInvoice(id: Id, r: Invoice)
      requires Valid() && id < nextId
      modifies this
      ensures invoices == old(invoices)[id := r] && nextId == old(nextId)
      ensures interventions == old(interventions) && reports == old(reports) && emails == old(emails)
      ensures regies == old(regies) && users == old(users)
      ensures Valid()
    {
      invoices := invoices[id := r];
    }

    /** Rewrites an existing intervention, keeping its calendar event. */
    method PutIntervention(id: Id, r: Intervention)
      requires Valid() && id in interventions && r.calendarEventId == interventions[id].calendarEventId
      modifies this
      ensures interventions == old(interventions)[id := r] && nextId == old(nextId)
      ensures reports == old(reports) && emails == old(emails) && regies == old(regies)
      ensures users == old(users) && invoices == old(invoices)
      ensures Valid()
    {
      interventions := interventions[id := r];
    }

    /** Writes intervention `r` under an id already handed out, when no other intervention has its calendar event. */
    method PutEventRow(id: Id, r: Intervention)
      requires Valid() && id < nextId && r.calendarEventId.Some?
      requires forall k :: k in interventions && k != id ==> interventions[k].calendarEventId != r.calendarEventId
      modifies this
      ensures interventions == old(interventions)[id := r] && nextId == old(nextId)
      ensures reports == old(reports) && emails == old(emails) && regies == old(regies)
      ensures users == old(users) && invoices == old(invoices)
      ensures Valid()
    {
      interventions := interventions[id := r];
    }

    /** Hands out an id no table uses yet. */
    method FreshId() returns (id: Id)
      requires Valid()
      modifies this
      ensures id == old(nextId) && nextId == id + 1
      ensures id !in interventions && id !in reports && id !in emails
      ensures id !in regies && id !in users && id !in invoices
      ensures interventions == old(interventions) && reports == old(reports) && emails == old(emails)
      ensures regies == old(regies) && users == old(users) && invoices == old(invoices)
      ensures Valid()
    {
      id := nextId;
      nextId := nextId + 1;
    }
  }
}
