/**
 The driver's-licence upload card (DLUpload.tsx): a file chosen in the
 picker is checked for its MIME type and then its size, and an accepted file
 is handed to the parent once the simulated upload finishes. The 1.5-second
 timer is the separate `Complete` event, possible only while an upload is
 pending.
 */
module LicenceUpload {
  import opened Options
  import Text

  /** Largest accepted file, in bytes: 10 MiB. */
  const MaxFileSize: nat := 10 * 1024 * 1024

  /** The parts of a picked `File` the card looks at. */
  datatype File = File(name: string, mimeType: string, size: nat)

  datatype UploadError = NotAnImage | TooLarge

  /** The message shown for each error. */
  function Message(e: UploadError): string
  {
    match e
    case NotAnImage => "Please upload an image file"
    case TooLarge => "File size must be less than 10MB"
  }

  /**
   The card's state: whether an upload is in flight, the error shown, and
   the file the pending timer will hand over.
   */
  datatype Card = Card(isUploading: bool, error: Option<UploadError>, pending: Option<File>)

  const Initial: Card := Card(false, None, None)

  /**
   The error line under the picker: shown exactly when the card holds an
   error, with the message the failed check sets.
   */
  function ErrorLine(c: Card): (line: Option<string>)
    ensures line.Some? <==> c.error.Some?
    ensures line.Some? ==> |line.value| > 0
    ensures c.error == Some(NotAnImage) ==> line == Some("Please upload an image file")
    ensures c.error == Some(TooLarge) ==> line == Some("File size must be less than 10MB")
  {
    c.error.Map(Message)
  }

  /**
   The checks of `handleFileUpload`, in order: first the MIME type must
   start with `image/`, then the size must not exceed `MaxFileSize`.
   */
  function Precheck(f: File): (r: Option<UploadError>)
    ensures r.None? <==> Text.StartsWith(f.mimeType, "image/") && f.size <= MaxFileSize
    ensures r == Some(NotAnImage) <==> !Text.StartsWith(f.mimeType, "image/")
    ensures r == Some(TooLarge) <==> Text.StartsWith(f.mimeType, "image/") && f.size > MaxFileSize
  {
    if !Text.StartsWith(f.mimeType, "image/") then Some(NotAnImage)
    else if f.size > MaxFileSize then Some(TooLarge)
    else None
  }

  /** The file input and the camera button are both disabled while uploading, and hidden once the parent reports the licence uploaded. */
  predicate InputEnabled(c: Card, isUploaded: bool)
  {
    !isUploaded && !c.isUploading
  }

  /**
   `handleFileUpload`. With no file picked nothing changes. A rejected file
   shows its error and starts nothing. An accepted file clears the error and
   starts the upload.
   */
  function Pick(c: Card, file: Option<File>): (r: Card)
    ensures file.None? ==> r == c
    ensures file.Some? && Precheck(file.value).Some? ==>
      r == c.(error := Precheck(file.value))
    ensures file.Some? && Precheck(file.value).None? ==>
      r.isUploading && r.error.None? && r.pending == file
    ensures r.isUploading && !c.isUploading ==> r.pending.Some? && Precheck(r.pending.value).None?
  {
    match file
    case None => c
    case Some(f) =>
      match Precheck(f)
      case Some(e) => c.(error := Some(e))
      case None => Card(true, None, Some(f))
  }

  /** The timer fires only after an accepted file started uploading. */
  predicate CanComplete(c: Card)
  {
    c.pending.Some?
  }

  /**
   The timer callback: uploading stops and the pending file goes to
   `onUploadComplete`, returned as the second component.
   */
  function Complete(c: Card): (r: (Card, File))
    requires CanComplete(c)
    ensures !r.0.isUploading && r.0.pending.None?
    ensures r.1 == c.pending.value
    ensures r.0.error == c.error
  {
    (c.(isUploading := false, pending := None), c.pending.value)
  }

  /** The card's own states: a timer is pending exactly while uploading, and its file passed the checks. */
  ghost predicate Inv(c: Card)
  {
    && (c.isUploading <==> c.pending.Some?)
    && (c.pending.Some? ==> Precheck(c.pending.value).None?)
  }

  datatype Event = Choose(file: Option<File>) | Finish

  /**
   Runs the events while the card offers each one, collecting the files
   handed to `onUploadComplete`; `None` when an event is not on offer.
   */
  function Run(c: Card, isUploaded: bool, es: seq<Event>): Option<(Card, seq<File>)>
    decreases |es|
  {
    if es == [] then Some((c, []))
    else match es[0]
      case Choose(file) =>
        if !InputEnabled(c, isUploaded) then None
        else Run(Pick(c, file), isUploaded, es[1..])
      case Finish =>
        if !CanComplete(c) then None
        else
          var (c', f) := Complete(c);
          match Run(c', isUploaded, es[1..])
          case None => None
          case Some((last, delivered)) => Some((last, [f] + delivered))
  }

  /**
   Along any run the card keeps its invariant, every file handed to the
   parent passed both checks, and each upload hands over its file once:
   there are never more hand-overs than accepted picks.
   */
  lemma {:induction false} RunDeliversCheckedFiles(c: Card, isUploaded: bool, es: seq<Event>)
    requires Inv(c)
    ensures Run(c, isUploaded, es).Some? ==>
      && Inv(Run(c, isUploaded, es).value.0)
      && (forall i :: 0 <= i < |Run(c, isUploaded, es).value.1| ==>
            Precheck(Run(c, isUploaded, es).value.1[i]).None?)
      && |Run(c, isUploaded, es).value.1| <= Accepted(es) + (if c.pending.Some? then 1 else 0)
    decreases |es|
  {
    if es != [] {
      match es[0]
      case Choose(file) =>
        if InputEnabled(c, isUploaded) {
          RunDeliversCheckedFiles(Pick(c, file), isUploaded, es[1..]);
        }
      case Finish =>
        if CanComplete(c) {
          var (c', f) := Complete(c);
          RunDeliversCheckedFiles(c', isUploaded, es[1..]);
        }
    }
  }

  /** The number of picks in `es` whose file passes the checks. */
  function Accepted(es: seq<Event>): (n: nat)
    ensures n <= |es|
  {
    if es == [] then 0
    else
      (if es[0].Choose? && es[0].file.Some? && Precheck(es[0].file.value).None? then 1 else 0)
      + Accepted(es[1..])
  }

  /** The boundary: exactly 10 MiB passes, one byte more is too large; the type is checked first. */
  lemma SizeBoundaryAndCheckOrder(name: string)
    ensures Precheck(File(name, "image/png", 10485760)).None?
    ensures Precheck(File(name, "image/png", 10485761)) == Some(TooLarge)
    ensures Precheck(File(name, "application/pdf", 10485761)) == Some(NotAnImage)
  {
    assert "image/png"[..6] == "image/";
    assert "application/pdf"[..6][0] != "image/"[0];
  }

  /** Picking a valid file and letting the timer fire hands exactly that file over, once. */
  lemma PickThenCompleteDeliversOnce(c: Card, f: File)
    requires !c.isUploading && Precheck(f).None?
    ensures CanComplete(Pick(c, Some(f)))
    ensures Complete(Pick(c, Some(f))).1 == f
    ensures !CanComplete(Complete(Pick(c, Some(f))).0)
    ensures Complete(Pick(c, Some(f))).0 == Initial
  {
  }
}
