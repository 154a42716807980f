/**
 * The photo picker of the report form
 * (src/components/reports/PhotoUploader.tsx): picked files are appended as
 * local photos, up to a cap; a photo can be removed by its index. Files are
 * handles (`nat`), and the browser's object URL of a file is `blob:`
 * followed by its handle.
 */
module PhotoUploader {
  import opened Wrappers
  import opened Strings
  import opened Storage
  import opened ReportForm

  /** `maxPhotos = 10` */
  const DefaultMaxPhotos: nat := 10

  /** `URL.createObjectURL(file)` */
  function ObjectUrl(file: nat): (u: string)
    ensures StartsWith(u, "blob:")
  {
    "blob:" + NatToString(file)
  }

  /** A picked file as the form shows it before upload. */
  function LocalPhoto(file: nat): (p: FormPhoto)
    ensures NeedsUpload(p) && p.file == Some(file) && p.caption.None?
  {
    FormPhoto(ObjectUrl(file), None, true, Some(file))
  }

  function LocalPhotos(files: seq<nat>): (r: seq<FormPhoto>)
    ensures |r| == |files|
    ensures forall i :: 0 <= i < |files| ==> r[i] == LocalPhoto(files[i])
  {
    if files == [] then [] else LocalPhotos(files[..|files| - 1]) + [LocalPhoto(files[|files| - 1])]
  }

  /** The toast that follows a pick. */
  datatype Notice = NoNotice | TooMany(max: nat) | Added(count: nat)

  /**
   * `handleFileChange`: an empty pick does nothing; a pick that would take
   * the list past `maxPhotos` is refused whole; otherwise the picked files
   * follow the existing photos, in pick order, each as a local photo.
   */
  method HandleFileChange(photos: seq<FormPhoto>, files: seq<nat>, maxPhotos: nat)
    returns (result: seq<FormPhoto>, notice: Notice)
    ensures files == [] ==> result == photos && notice == NoNotice
    ensures files != [] && |photos| + |files| > maxPhotos ==> result == photos && notice == TooMany(maxPhotos)
    ensures files != [] && |photos| + |files| <= maxPhotos ==>
      result == photos + LocalPhotos(files) && notice == Added(|files|)
    ensures |photos| <= maxPhotos ==> |result| <= maxPhotos
  {
    if files == [] {
      return photos, NoNotice;
    }
    if |photos| + |files| > maxPhotos {
      return photos, TooMany(maxPhotos);
    }
    var newPhotos: seq<FormPhoto> := [];
    var i := 0;
    while i < |files|
      invariant 0 <= i <= |files|
      invariant newPhotos == LocalPhotos(files[..i])
    {
      assert files[..i + 1][..i] == files[..i];
      newPhotos := newPhotos + [LocalPhoto(files[i])];
      i := i + 1;
    }
    assert files[..i] == files;
    return photos + newPhotos, Added(|files|);
  }

  /** `photos.filter((_, i) => i !== index)` */
  function RemoveAt(photos: seq<FormPhoto>, index: nat): (r: seq<FormPhoto>)
    requires index < |photos|
    ensures |r| == |photos| - 1
    ensures forall j :: 0 <= j < index ==> r[j] == photos[j]
    ensures forall j :: index <= j < |r| ==> r[j] == photos[j + 1]
  {
    photos[..index] + photos[index + 1..]
  }

  /** `removePhoto`: the list without that photo, and whether its blob URL is released. */
  function RemovePhoto(photos: seq<FormPhoto>, index: nat): (r: (seq<FormPhoto>, bool))
    requires index < |photos|
    ensures r.0 == RemoveAt(photos, index)
    ensures r.1 <==> photos[index].isLocal && StartsWith(photos[index].url, "blob:")
  {
    (RemoveAt(photos, index), photos[index].isLocal && StartsWith(photos[index].url, "blob:"))
  }

  /** The add control is shown while there is room for one more photo. */
  predicate CanAddMore(photos: seq<FormPhoto>, maxPhotos: nat) {
    |photos| < maxPhotos
  }

  /** Picking one file and removing it again gives back the list, and the URL is released. */
  lemma AddThenRemove(photos: seq<FormPhoto>, file: nat, maxPhotos: nat)
    requires |photos| < maxPhotos
    ensures RemovePhoto(photos + LocalPhotos([file]), |photos|) == (photos, true)
  {
    var added := photos + LocalPhotos([file]);
    assert added[..|photos|] == photos;
    assert added[|photos| + 1..] == [];
    assert added[|photos|] == LocalPhoto(file);
    assert StartsWith(ObjectUrl(file), "blob:");
    assert RemoveAt(added, |photos|) == added[..|photos|] + added[|photos| + 1..];
    assert RemovePhoto(added, |photos|).1;
    assert RemoveAt(added, |photos|) == photos;
  }

  /** The files of a list split at a join. */
  lemma {:induction false} LocalFilesAppend(a: seq<FormPhoto>, b: seq<FormPhoto>)
    ensures LocalFiles(a + b) == LocalFiles(a) + LocalFiles(b)
    decreases |b|
  {
    if b == [] {
      assert a + b == a;
    } else {
      var b' := b[..|b| - 1];
      assert (a + b)[..|a + b| - 1] == a + b';
      LocalFilesAppend(a, b');
    }
  }

  /** The picked files are uploaded in pick order, each once. */
  lemma {:induction false} LocalFilesOfPick(files: seq<nat>)
    ensures LocalFiles(LocalPhotos(files)) == seq(|files|, i requires 0 <= i < |files| => PhotoFile(files[i]))
    decreases |files|
  {
    if files != [] {
      var f := files[..|files| - 1];
      LocalFilesOfPick(f);
      assert LocalPhotos(files)[..|files| - 1] == LocalPhotos(f);
    }
  }

  /**
   * What a pick adds is exactly what the form's upload step will upload
   * after the photos already there.
   */
  lemma PickedFilesAreUploaded(photos: seq<FormPhoto>, files: seq<nat>)
    ensures LocalFiles(photos + LocalPhotos(files))
      == LocalFiles(photos) + seq(|files|, i requires 0 <= i < |files| => PhotoFile(files[i]))
  {
    LocalFilesAppend(photos, LocalPhotos(files));
    LocalFilesOfPick(files);
  }
}
