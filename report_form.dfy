/**
 * The technician's report form (src/components/reports/ReportForm.tsx):
 * the stored photos split into before/after, the checklist and material
 * list edits, the materials total, the row written to `reports`, and the
 * submit sequence (photo uploads, signature upload, report write,
 * intervention update) with its early refusal.
 */
module ReportForm {
  import opened Wrappers
  import opened Strings
  import opened Database
  import opened Webhook
  import opened Backend
  import opened Storage

  /** The checklist a new report starts with: six steps, none done. */
  const DefaultChecklist: seq<ChecklistItem> := [
    ChecklistItem("Coupure eau/gaz effectuée", false),
    ChecklistItem("Zone de travail protégée", false),
    ChecklistItem("Diagnostic effectué", false),
    ChecklistItem("Réparation/intervention réalisée", false),
    ChecklistItem("Test de fonctionnement", false),
    ChecklistItem("Nettoyage zone de travail", false)]

  // ------------------------------------------------------------------
  // Photos of the form
  // ------------------------------------------------------------------

  /** A photo in the form: a stored URL, or a local preview with the picked file. */
  datatype FormPhoto = FormPhoto(url: string, caption: Option<string>, isLocal: bool, file: Option<nat>)

  /** `photo.isLocal && photo.file`: the photo still has to be uploaded. */
  predicate NeedsUpload(p: FormPhoto) {
    p.isLocal && p.file.Some?
  }

  datatype Side = BeforeSide | AfterSide | Uncategorised

  /** Where a stored photo goes: bare strings and unknown categories are uncategorised. */
  function SideOf(p: StoredPhoto): Side {
    match p
    case UrlOnly(_) => Uncategorised
    case PhotoItem(_, _, c) =>
      if c == Some("before") then BeforeSide
      else if c == Some("after") then AfterSide
      else Uncategorised
  }

  /** A stored photo shown in the form: its URL and caption, nothing to upload. */
  function AsFormPhoto(p: StoredPhoto): FormPhoto {
    match p
    case UrlOnly(u) => FormPhoto(u, None, false, None)
    case PhotoItem(u, c, _) => FormPhoto(u, c, false, None)
  }

  function AllAsFormPhotos(photos: seq<StoredPhoto>): (r: seq<FormPhoto>)
    ensures |r| == |photos|
  {
    if photos == [] then []
    else AllAsFormPhotos(photos[..|photos| - 1]) + [AsFormPhoto(photos[|photos| - 1])]
  }

  /** The photos of `photos` on one side, in their stored order. */
  function OnSide(photos: seq<StoredPhoto>, side: Side): (r: seq<FormPhoto>)
    ensures |r| <= |photos|
  {
    if photos == [] then []
    else
      var last := photos[|photos| - 1];
      OnSide(photos[..|photos| - 1], side) + (if SideOf(last) == side then [AsFormPhoto(last)] else [])
  }

  /**
   * `parseExistingPhotos`: one pass pushing each photo into before, after
   * or uncategorised; the uncategorised ones follow the `before` photos,
   * and with no categorised photo at all they are the whole before list.
   */
  method ParseExistingPhotos(existing: Option<Report>) returns (before: seq<FormPhoto>, after: seq<FormPhoto>)
    ensures var photos := if existing.Some? then existing.value.photos else [];
      before == OnSide(photos, BeforeSide) + OnSide(photos, Uncategorised)
      && after == OnSide(photos, AfterSide)
  {
    var photos := if existing.Some? then existing.value.photos else [];
    var b, a, u := [], [], [];
    var i := 0;
    while i < |photos|
      invariant 0 <= i <= |photos|
      invariant b == OnSide(photos[..i], BeforeSide)
      invariant a == OnSide(photos[..i], AfterSide)
      invariant u == OnSide(photos[..i], Uncategorised)
    {
      assert photos[..i + 1][..i] == photos[..i];
      var photo := photos[i];
      match SideOf(photo) {
        case BeforeSide => b := b + [AsFormPhoto(photo)];
        case AfterSide => a := a + [AsFormPhoto(photo)];
        case Uncategorised => u := u + [AsFormPhoto(photo)];
      }
      i := i + 1;
    }
    assert photos[..i] == photos;
    if |b| == 0 && |a| == 0 && |u| > 0 {
      return u, [];
    }
    return b + u, a;
  }

  /** Every stored photo lands on exactly one side: the three lists together are the photos. */
  lemma {:induction false} SidesPartitionPhotos(photos: seq<StoredPhoto>)
    ensures multiset(OnSide(photos, BeforeSide)) + multiset(OnSide(photos, AfterSide))
      + multiset(OnSide(photos, Uncategorised)) == multiset(AllAsFormPhotos(photos))
    ensures |OnSide(photos, BeforeSide)| + |OnSide(photos, AfterSide)|
      + |OnSide(photos, Uncategorised)| == |photos|
  {
    if photos != [] {
      SidesPartitionPhotos(photos[..|photos| - 1]);
    }
  }

  /** With no photo categorised `before` or `after`, every photo is a before photo, in order. */
  lemma {:induction false} UncategorisedAreBefore(photos: seq<StoredPhoto>)
    requires forall i :: 0 <= i < |photos| ==> SideOf(photos[i]) == Uncategorised
    ensures OnSide(photos, BeforeSide) == [] && OnSide(photos, AfterSide) == []
    ensures OnSide(photos, Uncategorised) == AllAsFormPhotos(photos)
  {
    if photos != [] {
      UncategorisedAreBefore(photos[..|photos| - 1]);
    }
  }

  // ------------------------------------------------------------------
  // Checklist
  // ------------------------------------------------------------------

  /** `toggleChecklistItem(index)`: item `index` flipped, the others as they were. */
  function ToggleChecklistItem(list: seq<ChecklistItem>, index: int): (r: seq<ChecklistItem>)
    ensures |r| == |list|
    ensures forall i :: 0 <= i < |r| ==> r[i].item == list[i].item
    ensures forall i :: 0 <= i < |r| && i != index ==> r[i] == list[i]
    ensures 0 <= index < |list| ==> r[index].done == !list[index].done
  {
    seq(|list|, i requires 0 <= i < |list| =>
      if i == index then list[i].(done := !list[i].done) else list[i])
  }

  /** Toggling the same item twice gives the list back. */
  lemma ToggleTwice(list: seq<ChecklistItem>, index: int)
    ensures ToggleChecklistItem(ToggleChecklistItem(list, index), index) == list
  {
  }

  /** `checklist.filter(c => c.done).length` */
  function CompletedCount(list: seq<ChecklistItem>): (n: nat)
    ensures n <= |list|
  {
    if list == [] then 0
    else CompletedCount(list[..|list| - 1]) + (if list[|list| - 1].done then 1 else 0)
  }

  /** Two lists that agree on every `done` but at `k` differ by that item's count. */
  lemma {:induction false} CompletedCountAt(a: seq<ChecklistItem>, b: seq<ChecklistItem>, k: int)
    requires |a| == |b| && 0 <= k < |a|
    requires forall i :: 0 <= i < |a| && i != k ==> a[i].done == b[i].done
    ensures CompletedCount(b) == CompletedCount(a) - (if a[k].done then 1 else 0) + (if b[k].done then 1 else 0)
  {
    var n := |a|;
    if k == n - 1 {
      SameDoneSameCount(a[..n - 1], b[..n - 1]);
    } else {
      CompletedCountAt(a[..n - 1], b[..n - 1], k);
    }
  }

  lemma {:induction false} SameDoneSameCount(a: seq<ChecklistItem>, b: seq<ChecklistItem>)
    requires |a| == |b|
    requires forall i :: 0 <= i < |a| ==> a[i].done == b[i].done
    ensures CompletedCount(a) == CompletedCount(b)
  {
    if a != [] {
      SameDoneSameCount(a[..|a| - 1], b[..|b| - 1]);
    }
  }

  /** Ticking an item adds one to the progress, unticking takes one away. */
  lemma ToggleMovesProgressByOne(list: seq<ChecklistItem>, index: int)
    requires 0 <= index < |list|
    ensures CompletedCount(ToggleChecklistItem(list, index))
      == CompletedCount(list) + (if list[index].done then -1 else 1)
  {
    CompletedCountAt(list, ToggleChecklistItem(list, index), index);
  }

  // ------------------------------------------------------------------
  // Materials
  // ------------------------------------------------------------------

  /** A catalogue product; `price` in cents. */
  datatype Product = Product(id: Id, name: string, price: int)

  /** `products.find(p => p.id === productId)`: the first product with that id. */
  function FindProduct(products: seq<Product>, productId: Id): (r: Option<Product>)
    ensures r.None? <==> forall i :: 0 <= i < |products| ==> products[i].id != productId
    ensures r.Some? ==> exists i :: (0 <= i < |products| && products[i] == r.value
      && (forall j :: 0 <= j < i ==> products[j].id != productId))
    ensures r.Some? ==> r.value.id == productId
  {
    if products == [] then None
    else if products[0].id == productId then
      assert products[0] == products[0];
      Some(products[0])
    else
      var r := FindProduct(products[1..], productId);
      assert r.Some? ==> exists i :: (0 <= i < |products| && products[i] == r.value
        && (forall j :: 0 <= j < i ==> products[j].id != productId)) by {
        if r.Some? {
          var i :| 0 <= i < |products[1..]| && products[1..][i] == r.value
            && (forall j :: 0 <= j < i ==> products[1..][j].id != productId);
          assert products[i + 1] == r.value;
          assert forall j :: 0 <= j < i + 1 ==> products[j].id != productId by {
            forall j | 0 <= j < i + 1 ensures products[j].id != productId {
              if j > 0 { assert products[j] == products[1..][j - 1]; }
            }
          }
        }
      }
      r
  }

  /** The material line a product becomes: one unit at the catalogue price. */
  function LineFor(p: Product): MaterialUsed {
    MaterialUsed(Some(p.id), p.name, 1, p.price)
  }

  /** `addMaterial(productId)`: an unknown product changes nothing; a known one appends its line. */
  function AddMaterial(materials: seq<MaterialUsed>, products: seq<Product>, productId: Id): (r: seq<MaterialUsed>)
    ensures FindProduct(products, productId).None? ==> r == materials
    ensures FindProduct(products, productId).Some? ==>
      |r| == |materials| + 1 && r[..|materials|] == materials
      && r[|materials|].productId == Some(productId) && r[|materials|].quantity == 1
      && r[|materials|].unitPrice == FindProduct(products, productId).value.price
  {
    match FindProduct(products, productId)
    case None => materials
    case Some(p) => materials + [LineFor(p)]
  }

  /** `removeMaterial(index)`: the line at `index` is dropped; any other index changes nothing. */
  function RemoveMaterial(materials: seq<MaterialUsed>, index: int): (r: seq<MaterialUsed>)
    ensures 0 <= index < |materials| ==> (|r| == |materials| - 1
      && (forall i :: 0 <= i < index ==> r[i] == materials[i])
      && (forall i :: index <= i < |r| ==> r[i] == materials[i + 1]))
    ensures !(0 <= index < |materials|) ==> r == materials
  {
    if 0 <= index < |materials| then materials[..index] + materials[index + 1..] else materials
  }

  /** `updateMaterialQuantity(index, quantity)`: quantity at least 1, only at `index`. */
  function UpdateMaterialQuantity(materials: seq<MaterialUsed>, index: int, quantity: int): (r: seq<MaterialUsed>)
    ensures |r| == |materials|
    ensures forall i :: 0 <= i < |r| && i != index ==> r[i] == materials[i]
    ensures 0 <= index < |r| ==> (r[index].quantity >= 1
      && r[index] == materials[index].(quantity := r[index].quantity)
      && (quantity >= 1 ==> r[index].quantity == quantity))
  {
    seq(|materials|, i requires 0 <= i < |materials| =>
      if i == index then materials[i].(quantity := if quantity > 1 then quantity else 1) else materials[i])
  }

  function LineCost(m: MaterialUsed): int {
    m.quantity * m.unitPrice
  }

  /** `totalMaterialsCost`: quantity times unit price, summed from the left. */
  function TotalMaterialsCost(materials: seq<MaterialUsed>): int {
    if materials == [] then 0
    else TotalMaterialsCost(materials[..|materials| - 1]) + LineCost(materials[|materials| - 1])
  }

  lemma {:induction false} TotalCostAppend(a: seq<MaterialUsed>, b: seq<MaterialUsed>)
    ensures TotalMaterialsCost(a + b) == TotalMaterialsCost(a) + TotalMaterialsCost(b)
  {
    if b == [] {
      assert a + b == a;
    } else {
      assert (a + b)[..|a + b| - 1] == a + b[..|b| - 1];
      TotalCostAppend(a, b[..|b| - 1]);
    }
  }

  /** Adding a known product adds its price to the total; an unknown one adds nothing. */
  lemma AddMaterialCost(materials: seq<MaterialUsed>, products: seq<Product>, productId: Id)
    ensures TotalMaterialsCost(AddMaterial(materials, products, productId)) == TotalMaterialsCost(materials)
      + (if FindProduct(products, productId).Some? then FindProduct(products, productId).value.price else 0)
  {
    var p := FindProduct(products, productId);
    if p.Some? {
      TotalCostAppend(materials, [LineFor(p.value)]);
      assert [LineFor(p.value)][..0] == [];
    }
  }

  /** Removing a line takes exactly its cost off the total. */
  lemma RemoveMaterialCost(materials: seq<MaterialUsed>, index: int)
    requires 0 <= index < |materials|
    ensures TotalMaterialsCost(RemoveMaterial(materials, index))
      == TotalMaterialsCost(materials) - LineCost(materials[index])
  {
    var pre, line, post := materials[..index], [materials[index]], materials[index + 1..];
    var tp, tl, tq := TotalMaterialsCost(pre), TotalMaterialsCost(line), TotalMaterialsCost(post);
    assert TotalMaterialsCost(materials) == tp + tl + tq by {
      SplitAround(materials, index);
      TotalCostAppend(pre + line, post);
      TotalCostAppend(pre, line);
    }
    assert TotalMaterialsCost(RemoveMaterial(materials, index)) == tp + tq by {
      assert RemoveMaterial(materials, index) == pre + post;
      TotalCostAppend(pre, post);
    }
    assert tl == LineCost(materials[index]) by {
      SingleLineCost(materials[index]);
    }
  }

  lemma SplitAround(materials: seq<MaterialUsed>, index: int)
    requires 0 <= index < |materials|
    ensures materials == materials[..index] + [materials[index]] + materials[index + 1..]
  {
  }

  lemma SingleLineCost(m: MaterialUsed)
    ensures TotalMaterialsCost([m]) == LineCost(m)
  {
    assert [m][..0] == [];
  }

  // ------------------------------------------------------------------
  // Form state and the row written to `reports`
  // ------------------------------------------------------------------

  /** The form's state; an absent string field is `''`. */
  datatype FormState = FormState(
    textContent: string, vocalUrl: string, vocalTranscription: string,
    photosBefore: seq<FormPhoto>, photosAfter: seq<FormPhoto>,
    checklist: seq<ChecklistItem>, isBillable: bool, billableReason: string,
    workDuration: int, materials: seq<MaterialUsed>, suppliesText: string,
    clientSignature: Option<string>)

  /**
   * The state the form opens with: the existing report's values, `''` for
   * absent text, the default checklist and no materials for a new report,
   * billable unless stated otherwise, and 60 minutes when no duration (or
   * zero) is stored.
   */
  function InitialState(existing: Option<Report>): (s: FormState)
    ensures existing.None? ==> s.checklist == DefaultChecklist && s.materials == [] && s.isBillable
    ensures existing.None? ==> s.textContent == "" && s.clientSignature.None? && s.workDuration == 60
    ensures existing.None? ==> s.photosBefore == [] && s.photosAfter == [] && s.billableReason == ""
    ensures existing.Some? ==> s.checklist == existing.value.checklist && s.isBillable == existing.value.isBillable
    ensures existing.Some? ==>
      var r := existing.value;
      s.textContent == r.textContent.GetOr("") && s.vocalUrl == r.vocalUrl.GetOr("")
      && s.vocalTranscription == r.vocalTranscription.GetOr("")
      && s.billableReason == r.billableReason.GetOr("") && s.suppliesText == r.suppliesText.GetOr("")
      && s.materials == r.materialsUsed && s.clientSignature == OrNull(r.clientSignature)
    // photos tagged `before` and untagged ones open on the before side
    ensures existing.Some? ==>
      s.photosBefore == OnSide(existing.value.photos, BeforeSide) + OnSide(existing.value.photos, Uncategorised)
      && s.photosAfter == OnSide(existing.value.photos, AfterSide)
    ensures existing.Some? ==>
      var d := existing.value.workDurationMinutes;
      if d.None? || d.value == 0 then s.workDuration == 60 else s.workDuration == d.value
    ensures s.clientSignature.Some? ==> s.clientSignature.value != ""
    ensures s.workDuration != 0
  {
    match existing
    case None =>
      FormState("", "", "", [], [], DefaultChecklist, true, "", 60, [], "", None)
    case Some(r) =>
      var photos := r.photos;
      FormState(r.textContent.GetOr(""), r.vocalUrl.GetOr(""), r.vocalTranscription.GetOr(""),
        OnSide(photos, BeforeSide) + OnSide(photos, Uncategorised), OnSide(photos, AfterSide),
        r.checklist, r.isBillable, r.billableReason.GetOr(""),
        if r.workDurationMinutes.None? || r.workDurationMinutes.value == 0 then 60 else r.workDurationMinutes.value,
        r.materialsUsed, r.suppliesText.GetOr(""), OrNull(r.clientSignature))
  }

  /** A photo after `uploadPhotos`: its URL and the category of its list. */
  datatype UploadedPhoto = UploadedPhoto(url: string, category: string)

  function AsStored(u: UploadedPhoto): StoredPhoto {
    PhotoItem(u.url, None, Some(u.category))
  }

  /**
   * `buildReportData`: the columns written for the report of `interventionId`.
   * Empty text fields become null, the non-billable reason is kept only for
   * a non-billable report, and captions are not carried over from the form.
   */
  function BuildReportData(s: FormState, interventionId: Id, technicianId: Id,
                           allPhotos: seq<UploadedPhoto>, signatureUrl: Option<string>,
                           status: ReportStatus): (r: Report)
    ensures r.interventionId == interventionId && r.technicianId == technicianId && r.status == status
    ensures r.billableReason.Some? <==> !s.isBillable
    ensures !s.isBillable ==> r.billableReason == Some(s.billableReason)
    ensures r.isBillable == s.isBillable
    ensures r.textContent.None? <==> s.textContent == ""
    ensures r.textContent.Some? ==> r.textContent.value == s.textContent
    ensures r.vocalUrl.None? <==> s.vocalUrl == ""
    ensures r.vocalUrl.Some? ==> r.vocalUrl.value == s.vocalUrl
    ensures r.vocalTranscription.None? <==> s.vocalTranscription == ""
    ensures r.vocalTranscription.Some? ==> r.vocalTranscription.value == s.vocalTranscription
    ensures r.suppliesText.None? <==> s.suppliesText == ""
    ensures r.suppliesText.Some? ==> r.suppliesText.value == s.suppliesText
    ensures |r.photos| == |allPhotos|
    ensures forall i :: 0 <= i < |allPhotos| ==>
      r.photos[i] == PhotoItem(allPhotos[i].url, None, Some(allPhotos[i].category))
    ensures r.checklist == s.checklist && r.materialsUsed == s.materials
    ensures r.workDurationMinutes == Some(s.workDuration) && r.clientSignature == signatureUrl
  {
    Report(interventionId, technicianId, EmptyAsNull(s.textContent), EmptyAsNull(s.vocalUrl),
      EmptyAsNull(s.vocalTranscription), seq(|allPhotos|, i requires 0 <= i < |allPhotos| => AsStored(allPhotos[i])),
      s.checklist, s.isBillable, if !s.isBillable then Some(s.billableReason) else None,
      Some(s.workDuration), s.materials, EmptyAsNull(s.suppliesText), signatureUrl, status, None, None)
  }

  /**
   * Opening a stored report and saving it untouched writes back its text
   * fields (an empty stored string comes back as null), its checklist, its
   * materials and its flag; only a missing or zero duration becomes 60.
   */
  lemma OpenThenSaveKeepsContent(r: Report, photos: seq<UploadedPhoto>, status: ReportStatus)
    ensures var d := BuildReportData(InitialState(Some(r)), r.interventionId, r.technicianId,
                                     photos, OrNull(r.clientSignature), status);
      d.textContent == OrNull(r.textContent) && d.vocalTranscription == OrNull(r.vocalTranscription)
      && d.suppliesText == OrNull(r.suppliesText) && d.checklist == r.checklist
      && d.materialsUsed == r.materialsUsed && d.isBillable == r.isBillable
      && (r.workDurationMinutes.Some? && r.workDurationMinutes.value != 0 ==>
            d.workDurationMinutes == r.workDurationMinutes)
  {
  }

  /** `handleSubmit`'s first test: a report needs a description or a transcription. */
  predicate HasDescription(s: FormState) {
    s.textContent != "" || s.vocalTranscription != ""
  }

  // ------------------------------------------------------------------
  // Uploads and the write sequence
  // ------------------------------------------------------------------

  /** The number of photos of `photos` that must be uploaded. */
  function LocalCount(photos: seq<FormPhoto>): (n: nat)
    ensures n <= |photos|
  {
    if photos == [] then 0
    else LocalCount(photos[..|photos| - 1]) + (if NeedsUpload(photos[|photos| - 1]) then 1 else 0)
  }

  /** The files uploaded for `photos`, in order. */
  function LocalFiles(photos: seq<FormPhoto>): (r: seq<Blob>)
    ensures |r| == LocalCount(photos)
  {
    if photos == [] then []
    else
      var last := photos[|photos| - 1];
      LocalFiles(photos[..|photos| - 1]) + FileOf(last)
  }

  /** The file uploaded for one photo: its file when it is local, nothing otherwise. */
  function FileOf(p: FormPhoto): (r: seq<Blob>)
    ensures |r| == if NeedsUpload(p) then 1 else 0
  {
    if NeedsUpload(p) then [PhotoFile(p.file.value)] else []
  }

  /**
   * The result of `uploadPhotos(photos, category)` when the bucket holds
   * `start` objects: a local photo gets the URL of the object it becomes,
   * any other keeps its URL; every entry carries the category.
   */
  function UploadedAs(photos: seq<FormPhoto>, category: string, start: nat): (r: seq<UploadedPhoto>)
    ensures |r| == |photos|
    ensures forall i :: 0 <= i < |r| ==> r[i].category == category
    ensures forall i :: 0 <= i < |r| && !NeedsUpload(photos[i]) ==> r[i].url == photos[i].url
  {
    if photos == [] then []
    else
      var last := photos[|photos| - 1];
      var head := UploadedAs(photos[..|photos| - 1], category, start);
      head + [UploadedPhoto(if NeedsUpload(last) then ObjectUrl(start + LocalCount(photos[..|photos| - 1])) else last.url, category)]
  }

  /** No upload numbered from `start` for `count` objects fails. */
  predicate NoneFail(fails: set<nat>, start: nat, count: nat) {
    forall k :: start <= k < start + count ==> k !in fails
  }

  /** Uploads numbered `[start, start + m + n)` all succeed iff both halves do. */
  lemma NoneFailSplit(fails: set<nat>, start: nat, m: nat, n: nat)
    ensures NoneFail(fails, start, m + n) <==> NoneFail(fails, start, m) && NoneFail(fails, start + m, n)
  {
  }

  /** Zero uploads never fail; one fails exactly when its number is among the failing ones. */
  lemma NoneFailOne(fails: set<nat>, start: nat, n: nat)
    requires n <= 1
    ensures NoneFail(fails, start, n) <==> n == 0 || start !in fails
  {
  }

  lemma PrefixStep<T>(s: seq<T>, i: nat)
    requires i < |s|
    ensures s[..i + 1][..i] == s[..i] && s[..i + 1][i] == s[i]
  {
  }

  /** How the upload count grows by one photo. */
  lemma CountStep(photos: seq<FormPhoto>, i: nat)
    requires i < |photos|
    ensures LocalCount(photos[..i + 1]) == LocalCount(photos[..i]) + (if NeedsUpload(photos[i]) then 1 else 0)
  {
    PrefixStep(photos, i);
  }

  /** How the uploaded files grow by one photo. */
  lemma FilesStep(photos: seq<FormPhoto>, i: nat)
    requires i < |photos|
    ensures LocalFiles(photos[..i + 1]) == LocalFiles(photos[..i]) + FileOf(photos[i])
  {
    PrefixStep(photos, i);
  }

  /** How the uploaded entries grow by one photo. */
  lemma UploadStep(photos: seq<FormPhoto>, i: nat, category: string, start: nat)
    requires i < |photos|
    ensures UploadedAs(photos[..i + 1], category, start) == UploadedAs(photos[..i], category, start)
      + [UploadedPhoto(if NeedsUpload(photos[i]) then ObjectUrl(start + LocalCount(photos[..i])) else photos[i].url, category)]
  {
    PrefixStep(photos, i);
  }

  lemma {:induction false} LocalCountMonotone(photos: seq<FormPhoto>, n: nat)
    requires n <= |photos|
    ensures LocalCount(photos[..n]) <= LocalCount(photos)
    decreases |photos| - n
  {
    if n < |photos| {
      LocalCountMonotone(photos, n + 1);
      assert photos[..n + 1][..n] == photos[..n];
    } else {
      assert photos[..n] == photos;
    }
  }

  /** An upload that fails makes the whole sequence of uploads fail. */
  lemma FailedUploadStops(photos: seq<FormPhoto>, i: nat, fails: set<nat>, start: nat)
    requires i < |photos| && NeedsUpload(photos[i]) && start + LocalCount(photos[..i]) in fails
    ensures !NoneFail(fails, start, LocalCount(photos))
  {
    CountStep(photos, i);
    LocalCountMonotone(photos, i + 1);
  }

  /** The uploads so far and the current one succeeding means the uploads up to it succeed. */
  lemma UploadSucceeds(photos: seq<FormPhoto>, i: nat, fails: set<nat>, start: nat)
    requires i < |photos| && NoneFail(fails, start, LocalCount(photos[..i]))
    requires NeedsUpload(photos[i]) ==> start + LocalCount(photos[..i]) !in fails
    ensures NoneFail(fails, start, LocalCount(photos[..i + 1]))
  {
    CountStep(photos, i);
  }

  /** One turn of `uploadPhotos`' loop: photo `i` is uploaded when it is local, any other keeps its URL. */
  method UploadOne(bucket: Bucket, photos: seq<FormPhoto>, i: nat, category: string, start: nat, fails: set<nat>)
    returns (entry: Option<UploadedPhoto>)
    requires i < |photos| && |bucket.objects| == start + LocalCount(photos[..i])
    modifies bucket
    ensures entry.None? ==>
      NeedsUpload(photos[i]) && start + LocalCount(photos[..i]) in fails && bucket.objects == old(bucket.objects)
    ensures entry.Some? ==> (NeedsUpload(photos[i]) ==> start + LocalCount(photos[..i]) !in fails)
    ensures entry.Some? ==>
      UploadedAs(photos[..i + 1], category, start) == UploadedAs(photos[..i], category, start) + [entry.value]
    ensures entry.Some? ==> bucket.objects == old(bucket.objects) + FileOf(photos[i])
  {
    UploadStep(photos, i, category, start);
    var photo := photos[i];
    if photo.isLocal && photo.file.Some? {
      var url := bucket.Put(PhotoFile(photo.file.value), fails);
      if url.None? {
        return None;
      }
      return Some(UploadedPhoto(url.value, category));
    }
    return Some(UploadedPhoto(photo.url, category));
  }

  lemma AppendAssoc<T>(a: seq<T>, b: seq<T>, c: seq<T>)
    ensures (a + b) + c == a + (b + c)
  {
  }

  /**
   * `uploadPhotos`: one upload per local photo, in order; the first failing
   * upload throws (nothing is returned, the earlier objects stay in the
   * bucket).
   */
  method UploadPhotos(bucket: Bucket, photos: seq<FormPhoto>, category: string, fails: set<nat>)
    returns (res: Option<seq<UploadedPhoto>>)
    modifies bucket
    ensures res.Some? <==> NoneFail(fails, |old(bucket.objects)|, LocalCount(photos))
    ensures res.Some? ==> res.value == UploadedAs(photos, category, |old(bucket.objects)|)
    ensures res.Some? ==> bucket.objects == old(bucket.objects) + LocalFiles(photos)
    ensures old(bucket.objects) <= bucket.objects
  {
    var start := |bucket.objects|;
    var results := [];
    var i := 0;
    while i < |photos|
      invariant 0 <= i <= |photos|
      invariant NoneFail(fails, start, LocalCount(photos[..i]))
      invariant results == UploadedAs(photos[..i], category, start)
      invariant bucket.objects == old(bucket.objects) + LocalFiles(photos[..i])
    {
      var entry := UploadOne(bucket, photos, i, category, start, fails);
      if entry.None? {
        FailedUploadStops(photos, i, fails, start);
        return None;
      }
      UploadSucceeds(photos, i, fails, start);
      FilesStep(photos, i);
      AppendAssoc(old(bucket.objects), LocalFiles(photos[..i]), FileOf(photos[i]));
      results := results + [entry.value];
      i := i + 1;
    }
    assert photos[..i] == photos;
    return Some(results);
  }

  /** The URL a local photo gets is that of an object uploaded for the photos up to it. */
  lemma {:induction false} UploadedUrlBelow(photos: seq<FormPhoto>, category: string, start: nat, i: nat)
    requires i < |photos| && NeedsUpload(photos[i])
    ensures exists k :: (start <= k < start + LocalCount(photos)
      && UploadedAs(photos, category, start)[i].url == ObjectUrl(k))
  {
    var n := |photos|;
    var head := photos[..n - 1];
    if i < n - 1 {
      UploadedUrlBelow(head, category, start, i);
      assert UploadedAs(photos, category, start)[i] == UploadedAs(head, category, start)[i];
    } else {
      assert UploadedAs(photos, category, start)[i].url == ObjectUrl(start + LocalCount(head));
    }
  }

  /** Every local photo gets a URL of its own: two uploaded entries never share an object URL. */
  lemma {:induction false} UploadedUrlsDistinct(photos: seq<FormPhoto>, category: string, start: nat, i: nat, j: nat)
    requires i < j < |photos| && NeedsUpload(photos[i]) && NeedsUpload(photos[j])
    ensures UploadedAs(photos, category, start)[i].url != UploadedAs(photos, category, start)[j].url
  {
    var n := |photos|;
    var head := photos[..n - 1];
    assert UploadedAs(photos, category, start)[i] == UploadedAs(head, category, start)[i];
    if j < n - 1 {
      UploadedUrlsDistinct(head, category, start, i, j);
      assert UploadedAs(photos, category, start)[j] == UploadedAs(head, category, start)[j];
    } else {
      UploadedUrlBelow(head, category, start, i);
      var k :| start <= k < start + LocalCount(head) && UploadedAs(head, category, start)[i].url == ObjectUrl(k);
      if ObjectUrl(k) == ObjectUrl(start + LocalCount(head)) {
        ObjectUrlInjective(k, start + LocalCount(head));
      }
    }
  }

  /** The signature column as `handleSubmit` fills it, once the signature upload (if any) succeeded. */
  function SignatureColumn(signature: Option<string>, objectUrl: string): (r: Option<string>)
    ensures signature.None? || signature.value == "" ==> r.None?
    ensures signature.Some? && signature.value != "" && !StartsWith(signature.value, "data:") ==> r == signature
    ensures signature.Some? && signature.value != "" && StartsWith(signature.value, "data:") ==> r == Some(objectUrl)
  {
    if signature.None? || signature.value == "" then None
    else if StartsWith(signature.value, "data:") then Some(objectUrl)
    else signature
  }

  /** A signature that is a `data:` URL, the one kind that is uploaded. */
  predicate SignatureToUpload(signature: Option<string>) {
    signature.Some? && signature.value != "" && StartsWith(signature.value, "data:")
  }

  /**
   * `uploadSignature` when needed: a `data:` URL is uploaded and replaced
   * by its public URL, any other non-empty value is kept as it is.
   */
  method StoreSignature(bucket: Bucket, signature: Option<string>, fails: set<nat>)
    returns (ok: bool, url: Option<string>)
    modifies bucket
    ensures ok <==> !SignatureToUpload(signature) || |old(bucket.objects)| !in fails
    ensures ok ==> url == SignatureColumn(signature, ObjectUrl(|old(bucket.objects)|))
    ensures ok && SignatureToUpload(signature) ==> bucket.objects == old(bucket.objects) + [DataUrl(signature.value)]
    ensures !(ok && SignatureToUpload(signature)) ==> bucket.objects == old(bucket.objects)
  {
    if signature.None? || signature.value == "" {
      return true, None;
    }
    if StartsWith(signature.value, "data:") {
      url := bucket.Put(DataUrl(signature.value), fails);
      ok := url.Some?;
      return;
    }
    return true, signature;
  }

  /** What the uploads produce when all of them succeed from object `start` on. */
  function AllPhotos(s: FormState, start: nat): seq<UploadedPhoto> {
    UploadedAs(s.photosBefore, "before", start)
      + UploadedAs(s.photosAfter, "after", start + LocalCount(s.photosBefore))
  }

  /** The number of uploads a save makes for the photos and the signature. */
  function UploadCount(s: FormState): nat {
    LocalCount(s.photosBefore) + LocalCount(s.photosAfter) + (if SignatureToUpload(s.clientSignature) then 1 else 0)
  }

  /** The photo uploads of a save: the before photos, then the after photos. */
  method UploadSides(bucket: Bucket, s: FormState, fails: set<nat>)
    returns (res: Option<seq<UploadedPhoto>>)
    modifies bucket
    ensures res.Some? <==>
      NoneFail(fails, |old(bucket.objects)|, LocalCount(s.photosBefore) + LocalCount(s.photosAfter))
    ensures res.Some? ==> res.value == AllPhotos(s, |old(bucket.objects)|)
    ensures res.Some? ==> bucket.objects == old(bucket.objects) + LocalFiles(s.photosBefore) + LocalFiles(s.photosAfter)
  {
    var start := |bucket.objects|;
    var nb := LocalCount(s.photosBefore);
    NoneFailSplit(fails, start, nb, LocalCount(s.photosAfter));
    var beforeUrls := UploadPhotos(bucket, s.photosBefore, "before", fails);
    if beforeUrls.None? {
      return None;
    }
    assert |bucket.objects| == start + nb;
    var afterUrls := UploadPhotos(bucket, s.photosAfter, "after", fails);
    if afterUrls.None? {
      return None;
    }
    return Some(beforeUrls.value + afterUrls.value);
  }

  /**
   * The upload phase of a save: the before photos, the after photos, then
   * the signature; it succeeds iff none of those uploads fails.
   */
  method UploadAll(bucket: Bucket, s: FormState, fails: set<nat>)
    returns (ok: bool, photos: seq<UploadedPhoto>, signatureUrl: Option<string>)
    modifies bucket
    ensures ok <==> NoneFail(fails, |old(bucket.objects)|, UploadCount(s))
    ensures ok ==> photos == AllPhotos(s, |old(bucket.objects)|)
    ensures ok ==> signatureUrl == SignatureColumn(s.clientSignature,
      ObjectUrl(|old(bucket.objects)| + LocalCount(s.photosBefore) + LocalCount(s.photosAfter)))
    ensures ok ==> old(bucket.objects) + LocalFiles(s.photosBefore) + LocalFiles(s.photosAfter) <= bucket.objects
  {
    var start := |bucket.objects|;
    var n := LocalCount(s.photosBefore) + LocalCount(s.photosAfter);
    var ns := if SignatureToUpload(s.clientSignature) then 1 else 0;
    NoneFailSplit(fails, start, n, ns);
    NoneFailOne(fails, start + n, ns);
    var sides := UploadSides(bucket, s, fails);
    if sides.None? {
      return false, [], None;
    }
    photos := sides.value;
    ghost var uploaded := bucket.objects;
    assert |uploaded| == start + n;
    ok, signatureUrl := StoreSignature(bucket, s.clientSignature, fails);
    assert uploaded <= bucket.objects;
  }

  /** An update of row `id` with `data`: the validation stamps stay; no row with that id, no change. */
  function WrittenOver(reports: map<Id, Report>, id: Id, data: Report): (r: map<Id, Report>)
    ensures id !in reports ==> r == reports
    ensures id in reports ==> (r.Keys == reports.Keys && r[id].status == data.status
      && r[id].textContent == data.textContent && r[id].photos == data.photos
      && r[id].validatedAt == reports[id].validatedAt && r[id].validatedBy == reports[id].validatedBy)
    ensures forall k :: k in reports && k != id ==> k in r && r[k] == reports[k]
  {
    if id in reports then
      reports[id := data.(validatedAt := reports[id].validatedAt, validatedBy := reports[id].validatedBy)]
    else reports
  }

  /** The row write of a save: an update of the existing report, or an insert. */
  method WriteReport(db: Store, data: Report, existing: Option<Id>, fails: set<Write>)
    returns (saved: Option<Id>)
    requires db.Valid()
    modifies db
    ensures db.Valid()
    ensures db.interventions == old(db.interventions) && db.emails == old(db.emails)
    ensures db.regies == old(db.regies) && db.users == old(db.users) && db.invoices == old(db.invoices)
    ensures existing.Some? ==> (saved.Some? <==> ReportUpdate !in fails)
    ensures existing.None? ==> (saved.Some? <==> ReportInsert !in fails)
    ensures saved.None? ==> db.reports == old(db.reports)
    ensures saved.Some? && existing.Some? ==>
      saved == existing && db.reports == WrittenOver(old(db.reports), existing.value, data)
    ensures saved.Some? && existing.None? ==>
      saved.value !in old(db.reports) && db.reports == old(db.reports)[saved.value := data]
  {
    if existing.Some? {
      if ReportUpdate in fails {
        return None;
      }
      db.reports := WrittenOver(db.reports, existing.value, data);
      return existing;
    }
    if ReportInsert in fails {
      return None;
    }
    var id := db.FreshId();
    db.PutReport(id, data);
    return Some(id);
  }

  /** The form's outcome of a save or a submit. */
  datatype Outcome =
    | Refused          // no description: nothing uploaded, nothing written
    | Failed           // an upload or the report write failed; the error toast
    | Saved(reportId: Id, statusUpdated: bool)

  /**
   * The part `handleSaveDraft` and `handleSubmit` share: every upload
   * first, and only then the report row. A failing upload stops the
   * sequence before any table is written.
   */
  method SaveReport(db: Store, bucket: Bucket, s: FormState, interventionId: Id, technicianId: Id,
                    existing: Option<Id>, status: ReportStatus, uploadFails: set<nat>, fails: set<Write>)
    returns (saved: Option<Id>, data: Report)
    requires db.Valid()
    modifies db, bucket
    ensures db.Valid()
    ensures db.interventions == old(db.interventions) && db.emails == old(db.emails)
    ensures db.regies == old(db.regies) && db.users == old(db.users) && db.invoices == old(db.invoices)
    ensures !NoneFail(uploadFails, |old(bucket.objects)|, UploadCount(s)) ==> saved.None?
    ensures saved.None? ==> db.reports == old(db.reports)
    ensures saved.Some? ==>
      NoneFail(uploadFails, |old(bucket.objects)|, UploadCount(s))
      && data == SavedData(s, interventionId, technicianId, |old(bucket.objects)|, status)
    ensures saved.Some? && existing.Some? ==>
      saved == existing && db.reports == WrittenOver(old(db.reports), existing.value, data)
    ensures saved.Some? && existing.None? ==>
      saved.value !in old(db.reports) && db.reports == old(db.reports)[saved.value := data]
  {
    var ok, photos, signatureUrl := UploadAll(bucket, s, uploadFails);
    data := BuildReportData(s, interventionId, technicianId, photos, signatureUrl, status);
    if !ok {
      return None, data;
    }
    saved := WriteReport(db, data, existing, fails);
  }

  /**
   * The columns written when every upload succeeds, the bucket holding
   * `start` objects beforehand: the photos in upload order, then the
   * signature.
   */
  function SavedData(s: FormState, interventionId: Id, technicianId: Id, start: nat, status: ReportStatus): Report {
    BuildReportData(s, interventionId, technicianId, AllPhotos(s, start),
      SignatureColumn(s.clientSignature, ObjectUrl(start + LocalCount(s.photosBefore) + LocalCount(s.photosAfter))),
      status)
  }

  /** `handleSaveDraft`: the shared sequence with status `draft`; no description needed. */
  method HandleSaveDraft(db: Store, bucket: Bucket, s: FormState, interventionId: Id, technicianId: Id,
                         existing: Option<Id>, uploadFails: set<nat>, fails: set<Write>)
    returns (outcome: Outcome)
    requires db.Valid()
    modifies db, bucket
    ensures db.Valid()
    ensures db.interventions == old(db.interventions) && db.emails == old(db.emails)
    ensures db.regies == old(db.regies) && db.users == old(db.users) && db.invoices == old(db.invoices)
    ensures outcome != Refused
    ensures outcome == Failed ==> db.Snapshot() == old(db.Snapshot())
    ensures !NoneFail(uploadFails, |old(bucket.objects)|, UploadCount(s)) ==> outcome == Failed
    ensures outcome.Saved? ==> !outcome.statusUpdated && NoneFail(uploadFails, |old(bucket.objects)|, UploadCount(s))
    ensures outcome.Saved? ==>
      var data := SavedData(s, interventionId, technicianId, |old(bucket.objects)|, Draft);
      if existing.Some?
      then outcome.reportId == existing.value && db.reports == WrittenOver(old(db.reports), existing.value, data)
      else outcome.reportId !in old(db.reports) && db.reports == old(db.reports)[outcome.reportId := data]
    ensures outcome.Saved? && (existing.None? || existing.value in old(db.reports)) ==>
      outcome.reportId in db.reports && db.reports[outcome.reportId].status == Draft
  {
    var saved, _ := SaveReport(db, bucket, s, interventionId, technicianId, existing, Draft, uploadFails, fails);
    if saved.None? {
      return Failed;
    }
    return Saved(saved.value, false);
  }

  /**
   * `handleSubmit`: refused without a description (nothing uploaded,
   * nothing written); otherwise the shared sequence with status
   * `submitted`, then the intervention is set to `termine`, a failure of
   * that last update only giving a warning.
   */
  method HandleSubmit(db: Store, bucket: Bucket, s: FormState, interventionId: Id, technicianId: Id,
                      existing: Option<Id>, now: string, uploadFails: set<nat>, fails: set<Write>)
    returns (outcome: Outcome)
    requires db.Valid()
    modifies db, bucket
    ensures db.Valid()
    ensures db.emails == old(db.emails)
    ensures db.regies == old(db.regies) && db.users == old(db.users) && db.invoices == old(db.invoices)
    ensures outcome == Refused <==> !HasDescription(s)
    ensures outcome == Refused ==> db.Snapshot() == old(db.Snapshot()) && bucket.objects == old(bucket.objects)
    ensures outcome == Failed ==> db.Snapshot() == old(db.Snapshot())
    ensures HasDescription(s) && !NoneFail(uploadFails, |old(bucket.objects)|, UploadCount(s)) ==> outcome == Failed
    ensures outcome.Saved? && (existing.None? || existing.value in old(db.reports)) ==>
      outcome.reportId in db.reports && db.reports[outcome.reportId].status == Submitted
    ensures outcome.Saved? ==>
      var data := SavedData(s, interventionId, technicianId, |old(bucket.objects)|, Submitted);
      NoneFail(uploadFails, |old(bucket.objects)|, UploadCount(s))
      && if existing.Some?
         then outcome.reportId == existing.value && db.reports == WrittenOver(old(db.reports), existing.value, data)
         else outcome.reportId !in old(db.reports) && db.reports == old(db.reports)[outcome.reportId := data]
    ensures outcome.Saved? ==>
      (outcome.statusUpdated <==> InterventionUpdate !in fails)
      && db.interventions == (
           if InterventionUpdate !in fails && interventionId in old(db.interventions)
           then old(db.interventions)[interventionId :=
                  old(db.interventions)[interventionId].(status := Termine, dateCompleted := Some(now))]
           else old(db.interventions))
  {
    if !HasDescription(s) {
      return Refused;
    }
    var saved, _ := SaveReport(db, bucket, s, interventionId, technicianId, existing, Submitted, uploadFails, fails);
    if saved.None? {
      return Failed;
    }
    var updated := InterventionUpdate !in fails;
    if updated && interventionId in db.interventions {
      db.PutIntervention(interventionId, db.interventions[interventionId].(status := Termine, dateCompleted := Some(now)));
    }
    return Saved(saved.value, updated);
  }
}
