/**
 * Supabase Storage's `photos` bucket as the report form uses it: uploads
 * are appended one after another, the n-th object gets a public URL of its
 * own, and an upload can fail. Which uploads fail is an input, numbered by
 * the position the object would have taken.
 */
module Storage {
  import opened Wrappers
  import opened Strings

  /** What is uploaded: a photo file picked on the device, or a `data:` URL (the signature). */
  datatype Blob = PhotoFile(file: nat) | DataUrl(content: string)

  /** `getPublicUrl` of the object stored at position `k`. */
  function ObjectUrl(k: nat): (url: string)
    ensures StartsWith(url, "photos/")
  {
    "photos/" + NatToString(k)
  }

  /** Different objects have different public URLs. */
  lemma ObjectUrlInjective(j: nat, k: nat)
    requires ObjectUrl(j) == ObjectUrl(k)
    ensures j == k
  {
    var sj, sk := NatToString(j), NatToString(k);
    assert sj == ObjectUrl(j)[7..];
    assert sk == ObjectUrl(k)[7..];
    ParseNatToString(j);
    ParseNatToString(k);
  }

  class Bucket {
    var objects: seq<Blob>

    constructor()
      ensures objects == []
    {
      objects := [];
    }

    /** `upload` then `getPublicUrl`: the URL of the new object, or nothing when the upload fails. */
    method Put(b: Blob, fails: set<nat>) returns (url: Option<string>)
      modifies this
      ensures |old(objects)| in fails ==> url.None? && objects == old(objects)
      ensures |old(objects)| !in fails ==>
        url == Some(ObjectUrl(|old(objects)|)) && objects == old(objects) + [b]
    {
      if |objects| in fails {
        return None;
      }
      url := Some(ObjectUrl(|objects|));
      objects := objects + [b];
    }
  }
}
