/** Uploaded files of a multipart form and the attachment metadata both
    servers record for them (`_attachment_meta`). */
module Forms {
  import opened Common

  /** An uploaded file part: its file name (possibly missing) and content type. */
  datatype Upload = Upload(filename: Option<string>, contentType: Option<string>)

  /** The `{"name", "content_type"}` record kept for an upload. */
  datatype Attachment = Attachment(name: string, contentType: Option<string>)

  predicate Named(u: Upload) {
    Truthy(u.filename)
  }

  /** One record per upload whose file name is truthy, in upload order. */
  function AttachmentMeta(files: seq<Upload>): (r: seq<Attachment>)
    ensures |r| <= |files|
    ensures forall a :: a in r ==> a.name != ""
    ensures forall a :: a in r ==> exists u :: u in files && u.filename == Some(a.name) && u.contentType == a.contentType
  {
    if files == [] then []
    else
      var head := if Named(files[0]) then [Attachment(files[0].filename.value, files[0].contentType)] else [];
      head + AttachmentMeta(files[1..])
  }

  /** The filter keeps order: metadata of concatenated uploads is the concatenation. */
  lemma {:induction false} AttachmentMetaAppend(a: seq<Upload>, b: seq<Upload>)
    ensures AttachmentMeta(a + b) == AttachmentMeta(a) + AttachmentMeta(b)
  {
    if a != [] {
      assert (a + b)[1..] == a[1..] + b;
      AttachmentMetaAppend(a[1..], b);
    } else {
      assert a + b == b;
    }
  }

  /** When every upload has a file name nothing is dropped, and the i-th record
      describes the i-th upload. */
  lemma {:induction false} AttachmentMetaAllNamed(files: seq<Upload>)
    requires forall i :: 0 <= i < |files| ==> Named(files[i])
    ensures |AttachmentMeta(files)| == |files|
    ensures forall i :: 0 <= i < |files| ==>
      && files[i].filename.Some?
      && AttachmentMeta(files)[i] == Attachment(files[i].filename.value, files[i].contentType)
  {
    if files != [] {
      AttachmentMetaAllNamed(files[1..]);
    }
  }

  /** Uploads without a file name contribute nothing. */
  lemma {:induction false} AttachmentMetaNoneNamed(files: seq<Upload>)
    requires forall u :: u in files ==> !Named(u)
    ensures AttachmentMeta(files) == []
  {
    if files != [] {
      assert forall u :: u in files[1..] ==> u in files;
      AttachmentMetaNoneNamed(files[1..]);
    }
  }
}
