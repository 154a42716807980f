/**
 * The regies admin page (src/components/admin/RegiesPageClient.tsx): the
 * three counters, the search filter and the delete confirmation. The
 * regies shown are the page's input, each with its row id.
 */
module RegiesPageClient {
  import opened Wrappers
  import opened Strings
  import opened Database
  import opened Webhook
  import opened Backend

  datatype RegieEntry = RegieEntry(id: Id, regie: Regie)

  /** How many entries satisfy `p`, one filter pass. */
  function CountWhere(entries: seq<RegieEntry>, p: RegieEntry -> bool): (n: nat)
    ensures n <= |entries|
  {
    if entries == [] then 0 else CountWhere(entries[1..], p) + (if p(entries[0]) then 1 else 0)
  }

  datatype Stats = Stats(total: nat, active: nat, withDiscount: nat)

  /** The counters: all regies, the active ones and those with a positive discount. */
  function ComputeStats(entries: seq<RegieEntry>): (s: Stats)
    ensures s.total == |entries|
    ensures s.active <= s.total && s.withDiscount <= s.total
    ensures s.active == CountWhere(entries, (e: RegieEntry) => e.regie.isActive)
    ensures s.withDiscount == CountWhere(entries, (e: RegieEntry) => e.regie.discountPercentage > 0)
  {
    Stats(|entries|, CountWhere(entries, (e: RegieEntry) => e.regie.isActive), CountWhere(entries, (e: RegieEntry) => e.regie.discountPercentage > 0))
  }

  /** Every regie counted as active or inactive: the active counter and the inactive ones add up to the total. */
  lemma {:induction false} ActivePlusInactive(entries: seq<RegieEntry>)
    ensures CountWhere(entries, (e: RegieEntry) => e.regie.isActive) + CountWhere(entries, (e: RegieEntry) => !e.regie.isActive) == |entries|
  {
    if entries != [] {
      ActivePlusInactive(entries[1..]);
    }
  }

  /** `field?.toLowerCase().includes(query)`, false for a null field. */
  predicate FieldMatches(field: Option<string>, loweredQuery: string) {
    field.Some? && Includes(ToLower(field.value), loweredQuery)
  }

  /** The query (lower-cased, not trimmed) is in the name, keyword, contact e-mail or address. */
  predicate Matches(e: RegieEntry, query: string) {
    var q := ToLower(query);
    Includes(ToLower(e.regie.name), q) || Includes(ToLower(e.regie.keyword), q)
    || FieldMatches(e.regie.emailContact, q) || FieldMatches(e.regie.address, q)
  }

  /** `a` is `b` with some entries dropped, the rest in order. */
  predicate IsSublist(a: seq<RegieEntry>, b: seq<RegieEntry>)
    decreases |b|
  {
    if a == [] then true
    else if b == [] then false
    else if a[0] == b[0] then IsSublist(a[1..], b[1..])
    else IsSublist(a, b[1..])
  }

  function KeepMatching(entries: seq<RegieEntry>, query: string): (r: seq<RegieEntry>)
    ensures IsSublist(r, entries)
    ensures forall e :: e in r <==> e in entries && Matches(e, query)
  {
    if entries == [] then []
    else
      var rest := KeepMatching(entries[1..], query);
      assert forall e :: e in entries <==> e == entries[0] || e in entries[1..];
      if Matches(entries[0], query) then [entries[0]] + rest
      else
        SublistOfTail(rest, entries);
        rest
  }

  /** Dropping the head of the longer list keeps the sublist relation. */
  lemma {:induction false} SublistOfTail(a: seq<RegieEntry>, b: seq<RegieEntry>)
    requires b != [] && IsSublist(a, b[1..])
    ensures IsSublist(a, b)
    decreases |b|, 0
  {
    if a != [] && a[0] == b[0] {
      SublistDropHead(a, b[1..]);
    }
  }

  /** A sublist without its head is still a sublist. */
  lemma {:induction false} SublistDropHead(a: seq<RegieEntry>, b: seq<RegieEntry>)
    requires a != [] && IsSublist(a, b)
    ensures IsSublist(a[1..], b)
    decreases |b|, 1
  {
    if b != [] {
      if a[0] == b[0] {
        if a[1..] != [] {
          SublistDropHead(a[1..], b[1..]);
          SublistOfTail(a[1..], b);
        }
      } else {
        SublistDropHead(a, b[1..]);
        if a[1..] != [] {
          SublistOfTail(a[1..], b);
        }
      }
    }
  }

  /**
   * `filteredRegies`: a blank query keeps everything; otherwise the entries
   * that match, in their order.
   */
  function FilterRegies(entries: seq<RegieEntry>, query: string): (r: seq<RegieEntry>)
    ensures IsBlank(query) ==> r == entries
    ensures IsSublist(r, entries)
    ensures !IsBlank(query) ==> forall e :: e in r <==> e in entries && Matches(e, query)
  {
    if IsBlank(query) then
      SublistRefl(entries);
      entries
    else KeepMatching(entries, query)
  }

  lemma {:induction false} SublistRefl(a: seq<RegieEntry>)
    ensures IsSublist(a, a)
    decreases |a|
  {
    if a != [] {
      SublistRefl(a[1..]);
    }
  }

  /** The page's dialog state. */
  class RegiesPage {
    var isModalOpen: bool
    var regieToEdit: Option<RegieEntry>
    var regieToDelete: Option<RegieEntry>
    var isDeleting: bool

    constructor()
      ensures !isModalOpen && regieToEdit.None? && regieToDelete.None? && !isDeleting
    {
      isModalOpen, regieToEdit, regieToDelete, isDeleting := false, None, None, false;
    }

    method HandleEdit(e: RegieEntry)
      modifies this
      ensures regieToEdit == Some(e) && isModalOpen && regieToDelete == old(regieToDelete)
    {
      regieToEdit := Some(e);
      isModalOpen := true;
    }

    method HandleOpenCreate()
      modifies this
      ensures regieToEdit.None? && isModalOpen && regieToDelete == old(regieToDelete)
    {
      regieToEdit := None;
      isModalOpen := true;
    }

    method HandleCloseModal()
      modifies this
      ensures regieToEdit.None? && !isModalOpen && regieToDelete == old(regieToDelete)
    {
      isModalOpen := false;
      regieToEdit := None;
    }

    /** Asking to delete only selects the regie; the confirmation does the work. */
    method HandleDelete(e: RegieEntry)
      modifies this
      ensures regieToDelete == Some(e) && regieToEdit == old(regieToEdit) && isModalOpen == old(isModalOpen)
    {
      regieToDelete := Some(e);
    }

    /**
     * `handleConfirmDelete`: nothing without a selection; otherwise the row
     * is deleted by id and the selection cleared, or, when the delete fails,
     * the table and the selection are left as they were.
     */
    method HandleConfirmDelete(db: Store, fails: set<Write>)
      requires db.Valid()
      modifies this, db
      ensures db.Valid()
      ensures old(regieToDelete).Some? ==> !isDeleting
      ensures old(regieToDelete).None? ==> isDeleting == old(isDeleting)
      ensures db.interventions == old(db.interventions) && db.reports == old(db.reports)
      ensures db.emails == old(db.emails) && db.users == old(db.users) && db.invoices == old(db.invoices)
      ensures old(regieToDelete).None? ==> db.regies == old(db.regies) && regieToDelete.None?
      ensures old(regieToDelete).Some? && RegieDelete in fails ==>
        db.regies == old(db.regies) && regieToDelete == old(regieToDelete)
      ensures old(regieToDelete).Some? && RegieDelete !in fails ==>
        db.regies == old(db.regies) - {old(regieToDelete).value.id} && regieToDelete.None?
      ensures regieToEdit == old(regieToEdit) && isModalOpen == old(isModalOpen)
    {
      if regieToDelete.None? {
        return;
      }
      isDeleting := true;
      if RegieDelete !in fails {
        db.regies := db.regies - {regieToDelete.value.id};
        regieToDelete := None;
      }
      isDeleting := false;
    }
  }
}
