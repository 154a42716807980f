/**
 * The create / edit dialog of a regie (src/components/admin/CreateRegieModal.tsx):
 * the form is filled from the regie being edited or left blank, and
 * submitting trims the fields, stores empty optional fields as null and the
 * keyword in upper case, then inserts a new regie or updates the edited one.
 */
module CreateRegieModal {
  import opened Wrappers
  import opened Strings
  import opened Database
  import opened Webhook
  import opened Backend

  /** The four text inputs. */
  datatype RegieForm = RegieForm(name: string, emailContact: string, keyword: string, address: string)

  const BlankForm := RegieForm("", "", "", "")

  /** The effect on opening: the edited regie's fields (`x || ''`), or a blank form. */
  function FormFor(regieToEdit: Option<Regie>): (f: RegieForm)
    ensures regieToEdit.None? ==> f == BlankForm
    ensures regieToEdit.Some? ==>
      var r := regieToEdit.value;
      f.name == r.name && f.keyword == r.keyword
      && (f.emailContact == "" <==> OrNull(r.emailContact).None?)
      && (OrNull(r.emailContact).Some? ==> f.emailContact == r.emailContact.value)
      && (f.address == "" <==> OrNull(r.address).None?)
      && (OrNull(r.address).Some? ==> f.address == r.address.value)
  {
    match regieToEdit
    case None => BlankForm
    case Some(r) => RegieForm(r.name, r.emailContact.GetOr(""), r.keyword, r.address.GetOr(""))
  }

  /** The keyword as saved: trimmed and upper-cased. */
  function SavedKeyword(keyword: string): string {
    ToUpper(Trim(keyword))
  }

  lemma UpperCharIsNotLower(c: char)
    ensures !('a' <= UpperChar(c) <= 'z')
  {
  }

  /** The row inserted for a new regie: active, no discount, the other columns null. */
  function InsertedRegie(f: RegieForm): Regie {
    Regie(Trim(f.name), SavedKeyword(f.keyword), EmptyAsNull(Trim(f.emailContact)), None,
      EmptyAsNull(Trim(f.address)), 0, None, None, true, None)
  }

  /** The edited regie: the four form columns and the update time replaced, the rest kept. */
  function UpdatedRegie(current: Regie, f: RegieForm, now: string): Regie {
    var c := InsertedRegie(f);
    current.(name := c.name, keyword := c.keyword, emailContact := c.emailContact, address := c.address,
      updatedAt := Some(now))
  }

  /**
   * A created regie is active with no discount and no phone, billing
   * address, notes or update time, and a blank optional field or name is
   * stored empty or null.
   */
  lemma InsertedRegieIsNormalised(f: RegieForm)
    ensures var r := InsertedRegie(f);
      r.isActive && r.discountPercentage == 0
      && r.phone.None? && r.billingEmail.None? && r.notes.None? && r.updatedAt.None?
      && (r.emailContact.None? <==> IsBlank(f.emailContact))
      && (r.address.None? <==> IsBlank(f.address))
      && (r.name == [] <==> IsBlank(f.name))
  {
  }

  /** The stored name has no white space at either end. */
  lemma InsertedNameIsTrimmed(f: RegieForm)
    ensures var n := InsertedRegie(f).name;
      n != [] ==> !IsWhitespace(n[0]) && !IsWhitespace(n[|n| - 1])
  {
    var n := Trim(f.name);
    assert n != [] ==> !IsWhitespace(n[0]) && !IsWhitespace(n[|n| - 1]);
  }

  /** The stored keyword holds no lower-case letter. */
  lemma InsertedKeywordIsUpperCase(f: RegieForm)
    ensures var k := InsertedRegie(f).keyword;
      forall i :: 0 <= i < |k| ==> !('a' <= k[i] <= 'z')
  {
    var k := SavedKeyword(f.keyword);
    forall i | 0 <= i < |k| ensures !('a' <= k[i] <= 'z') {
      UpperCharIsNotLower(Trim(f.keyword)[i]);
    }
  }

  /**
   * An edit writes the same four columns a creation from the same form
   * would, stamps the update time, and keeps the active flag, the discount,
   * the phone, the billing address and the notes.
   */
  lemma UpdateKeepsUneditedColumns(current: Regie, f: RegieForm, now: string)
    ensures var r := UpdatedRegie(current, f, now);
      var c := InsertedRegie(f);
      r.name == c.name && r.keyword == c.keyword && r.emailContact == c.emailContact && r.address == c.address
      && r.updatedAt == Some(now)
      && r.isActive == current.isActive && r.discountPercentage == current.discountPercentage
      && r.phone == current.phone && r.billingEmail == current.billingEmail && r.notes == current.notes
  {
  }

  /** The submit button is enabled when not saving and both name and keyword have text. */
  predicate CanSubmit(isLoading: bool, f: RegieForm) {
    !isLoading && !IsBlank(f.name) && !IsBlank(f.keyword)
  }

  /** An enabled submit never saves a regie with an empty name or keyword, whether it inserts or updates. */
  lemma EnabledSubmitSavesNameAndKeyword(isLoading: bool, f: RegieForm, current: Regie, now: string)
    requires CanSubmit(isLoading, f)
    ensures InsertedRegie(f).name != [] && InsertedRegie(f).keyword != []
    ensures UpdatedRegie(current, f, now).name != [] && UpdatedRegie(current, f, now).keyword != []
  {
  }

  /** Upper-casing a letter and lower-casing it again gives its lower case. */
  lemma LowerOfUpper(c: char)
    ensures LowerChar(UpperChar(c)) == LowerChar(c)
  {
  }

  /**
   * Saving the keyword in upper case loses nothing for the e-mail webhook:
   * the saved keyword matches a pattern case-insensitively exactly when
   * the typed (trimmed) keyword does.
   */
  lemma SavedKeywordMatchesAsTyped(keyword: string, pattern: string)
    ensures ILike(SavedKeyword(keyword), pattern) <==> ILike(Trim(keyword), pattern)
  {
    var t := Trim(keyword);
    var u := SavedKeyword(keyword);
    forall i | 0 <= i < |t| ensures ToLower(u)[i] == ToLower(t)[i] {
      LowerOfUpper(t[i]);
    }
    assert ToLower(u) == ToLower(t);
  }

  /** `.update(...).eq('id', id)`: the row with that id, if there is one. */
  method UpdateRegie(db: Store, id: Id, f: RegieForm, now: string)
    requires db.Valid()
    modifies db
    ensures db.Valid()
    ensures db.interventions == old(db.interventions) && db.reports == old(db.reports)
    ensures db.emails == old(db.emails) && db.users == old(db.users) && db.invoices == old(db.invoices)
    ensures id in old(db.regies) ==>
      db.regies == old(db.regies)[id := UpdatedRegie(old(db.regies)[id], f, now)]
    ensures id !in old(db.regies) ==> db.regies == old(db.regies)
  {
    if id in db.regies {
      db.PutRegie(id, UpdatedRegie(db.regies[id], f, now));
    }
  }

  /** `.insert(...)`: a new row under a fresh id. */
  method InsertRegie(db: Store, f: RegieForm)
    requires db.Valid()
    modifies db
    ensures db.Valid()
    ensures db.interventions == old(db.interventions) && db.reports == old(db.reports)
    ensures db.emails == old(db.emails) && db.users == old(db.users) && db.invoices == old(db.invoices)
    ensures old(db.nextId) !in old(db.regies) && db.regies == old(db.regies)[old(db.nextId) := InsertedRegie(f)]
  {
    var id := db.FreshId();
    db.PutRegie(id, InsertedRegie(f));
  }

  class RegieModal {
    var isLoading: bool
    var error: Option<string>
    var form: RegieForm

    constructor()
      ensures !isLoading && error.None? && form == BlankForm
    {
      isLoading, error, form := false, None, BlankForm;
    }

    /** The effect run when the dialog opens or the edited regie changes. */
    method Open(regieToEdit: Option<Regie>)
      modifies this
      ensures form == FormFor(regieToEdit) && error.None? && isLoading == old(isLoading)
    {
      form := FormFor(regieToEdit);
      error := None;
    }

    /**
     * `handleSubmit`: an edit updates the row with the edited id (a missing
     * row is no error, as an update matching nothing is not), a creation
     * inserts a new row. On success the form is cleared and the dialog
     * closes; on failure the error is shown and the form kept.
     */
    method HandleSubmit(db: Store, editing: Option<Id>, now: string, fails: set<Write>)
      returns (saved: bool)
      requires db.Valid()
      modifies this, db
      ensures db.Valid() && !isLoading
      ensures db.interventions == old(db.interventions) && db.reports == old(db.reports)
      ensures db.emails == old(db.emails) && db.users == old(db.users) && db.invoices == old(db.invoices)
      ensures saved <==> RegieWrite !in fails
      ensures !saved ==> db.regies == old(db.regies) && error.Some? && form == old(form)
      ensures saved ==> error.None? && form == BlankForm
      ensures saved && editing.Some? && editing.value in old(db.regies) ==>
        db.regies == old(db.regies)[editing.value := UpdatedRegie(old(db.regies)[editing.value], old(form), now)]
      ensures saved && editing.Some? && editing.value !in old(db.regies) ==> db.regies == old(db.regies)
      ensures saved && editing.None? ==>
        old(db.nextId) !in old(db.regies) && db.regies == old(db.regies)[old(db.nextId) := InsertedRegie(old(form))]
    {
      error := None;
      isLoading := true;
      if RegieWrite in fails {
        error := Some("Une erreur est survenue");
        isLoading := false;
        return false;
      }
      match editing {
        case Some(id) => UpdateRegie(db, id, form, now);
        case None => InsertRegie(db, form);
      }
      form := BlankForm;
      isLoading := false;
      return true;
    }
  }

  /**
   * A regie created with keyword `k` is then found by the e-mail webhook
   * for any keyword equal to the trimmed `k` up to case.
   */
  lemma CreatedRegieIsFoundByKeyword(db: Store, id: Id, f: RegieForm, pattern: string)
    requires id in db.regies && db.regies[id] == InsertedRegie(f)
    requires ILike(Trim(f.keyword), pattern)
    ensures id in db.RegiesWithKeyword(pattern)
  {
    SavedKeywordMatchesAsTyped(f.keyword, pattern);
  }
}
