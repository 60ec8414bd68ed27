/**
 * The resume upload widget. A submitted file is checked first against a
 * three-entry allow-list of MIME types and then against a 5 MiB size limit;
 * an accepted file is held and marked as uploading, and a completion step is
 * scheduled that later marks the upload as finished and hands the file to the
 * `onUploadComplete` callback.
 *
 * Scheduled completion steps are not cancelled by a reset or by a new
 * submission: they wait in `pending`, in the order they were scheduled, which
 * is the order they fire in since they all use the same delay. Each firing is
 * an explicit `Complete` event.
 */
module ResumeUploader {
  import opened Wrappers

  /** What the widget reads of a browser `File`: its declared type, byte size and name. */
  datatype File = File(mimeType: string, size: nat, name: string)

  const PdfType := "application/pdf"
  const DocType := "application/msword"
  const DocxType := "application/vnd.openxmlformats-officedocument.wordprocessingml.document"
  const ValidTypes: seq<string> := [PdfType, DocType, DocxType]

  const MaxSize: nat := 5 * 1024 * 1024

  datatype Rejection = UnsupportedType | TooLarge

  /** The text the widget shows for each rejection. */
  function Message(r: Rejection): (m: string)
    ensures |m| > 0
  {
    match r
    case UnsupportedType => "Please upload a PDF or Word document."
    case TooLarge => "File size should be less than 5MB."
  }

  /** The two checks of `processFile`, in their order: type first, size only if the type passed. */
  function Validate(f: File): (r: Option<Rejection>)
    ensures r == Some(TooLarge) ==> f.mimeType in ValidTypes
    ensures r == None ==> f.mimeType in ValidTypes && f.size <= MaxSize
  {
    if f.mimeType !in ValidTypes then Some(UnsupportedType)
    else if f.size > MaxSize then Some(TooLarge)
    else None
  }

  predicate Accepted(f: File) {
    Validate(f) == None
  }

  /** A snapshot of the widget's state. */
  datatype Intake = Intake(
    isDragging: bool,
    file: Option<File>,
    uploading: bool,
    uploadSuccess: bool,
    error: Option<Rejection>,
    pending: seq<File>,    // completion steps scheduled and not yet run, in firing order
    notified: seq<File>,   // the files handed to `onUploadComplete`, in call order
    hasCallback: bool)     // whether the `onUploadComplete` prop was given

  function Initial(hasCallback: bool): Intake {
    Intake(false, None, false, false, None, [], [], hasCallback)
  }

  // ------------------------------------------------------ transitions

  /** `processFile`. */
  function Submit(s: Intake, f: File): (t: Intake)
    ensures t.isDragging == s.isDragging && t.notified == s.notified && t.hasCallback == s.hasCallback
    ensures t.file == s.file || t.file == Some(f)
    ensures t.pending == s.pending || t.pending == s.pending + [f]
  {
    var cleared := s.(error := None, uploadSuccess := false);
    if f.mimeType !in ValidTypes then cleared.(error := Some(UnsupportedType))
    else if f.size > MaxSize then cleared.(error := Some(TooLarge))
    else cleared.(file := Some(f), uploading := true, pending := s.pending + [f])
  }

  /** The body of the oldest scheduled timer; nothing happens when none is scheduled. */
  function Fire(s: Intake): (t: Intake)
    ensures t.file == s.file && t.error == s.error && t.isDragging == s.isDragging
    ensures s.pending != [] ==> |t.pending| == |s.pending| - 1 && t.uploadSuccess
    ensures |s.notified| <= |t.notified| <= |s.notified| + 1
  {
    if s.pending == [] then s
    else s.(uploading := false, uploadSuccess := true, pending := s.pending[1..],
            notified := if s.hasCallback then s.notified + [s.pending[0]] else s.notified)
  }

  /** `resetUpload`. */
  function Clear(s: Intake): (t: Intake)
    ensures t.file == None && t.error == None && !t.uploadSuccess
    ensures t.uploading == s.uploading && t.pending == s.pending && t.notified == s.notified
  {
    s.(file := None, uploadSuccess := false, error := None)
  }

  /** `handleDragEnter` (true) and `handleDragLeave` (false). */
  function Drag(s: Intake, over: bool): (t: Intake)
    ensures t.isDragging == over
    ensures t.(isDragging := s.isDragging) == s
  {
    s.(isDragging := over)
  }

  /** `handleDrop`: always stops dragging, then processes the first dropped file, if any. */
  function DropFiles(s: Intake, files: seq<File>): (t: Intake)
    ensures !t.isDragging
    ensures |files| == 0 ==> t == s.(isDragging := false)
  {
    var s' := Drag(s, false);
    if |files| > 0 then Submit(s', files[0]) else s'
  }

  /** `handleFileSelect`: processes the first chosen file, if any. */
  function SelectFiles(s: Intake, files: seq<File>): (t: Intake)
    ensures t.isDragging == s.isDragging
    ensures |files| == 0 ==> t == s
  {
    if |files| > 0 then Submit(s, files[0]) else s
  }

  datatype Event =
    | Enter | Leave | DropOf(files: seq<File>) | SelectOf(files: seq<File>) | TimerFires | ResetClick

  function Step(s: Intake, e: Event): Intake {
    match e
    case Enter => Drag(s, true)
    case Leave => Drag(s, false)
    case DropOf(files) => DropFiles(s, files)
    case SelectOf(files) => SelectFiles(s, files)
    case TimerFires => Fire(s)
    case ResetClick => Clear(s)
  }

  function Run(s: Intake, events: seq<Event>): Intake
    decreases |events|
  {
    if events == [] then s else Run(Step(s, events[0]), events[1..])
  }

  /** The files an event sequence submits that pass validation, in order. */
  function AcceptedFiles(events: seq<Event>): seq<File>
    decreases |events|
  {
    if events == [] then []
    else
      var e := events[0];
      var now :=
        if (e.DropOf? || e.SelectOf?) && |e.files| > 0 && Accepted(e.files[0]) then [e.files[0]] else [];
      now + AcceptedFiles(events[1..])
  }

  // ------------------------------------------------------ processFile

  /** The type check decides first, and the message depends on nothing else. */
  lemma ValidateOrder(f: File)
    ensures Validate(f) == Some(UnsupportedType) <==> f.mimeType !in ValidTypes
    ensures Validate(f) == Some(TooLarge) <==> f.mimeType in ValidTypes && f.size > MaxSize
    ensures Validate(f) == None <==> f.mimeType in ValidTypes && f.size <= MaxSize
  {
  }

  /** After a submission the widget shows the type message, the size message or none, by the checks' outcome. */
  lemma SubmitShowsMessage(s: Intake, f: File)
    ensures f.mimeType !in ValidTypes ==>
      Message(Submit(s, f).error.value) == "Please upload a PDF or Word document."
    ensures f.mimeType in ValidTypes && f.size > MaxSize ==>
      Message(Submit(s, f).error.value) == "File size should be less than 5MB."
    ensures Submit(s, f).error == None <==> Accepted(f)
    ensures Message(UnsupportedType) != Message(TooLarge)
  {
  }

  /** An unlisted type is rejected with the type message; the held file and the upload flag stay. */
  lemma SubmitRejectsType(s: Intake, f: File)
    requires f.mimeType !in ValidTypes
    ensures Submit(s, f).error == Some(UnsupportedType)
    ensures Submit(s, f).file == s.file && Submit(s, f).uploading == s.uploading
    ensures Submit(s, f).pending == s.pending
  {
  }

  /** For an unlisted type the size is never consulted. */
  lemma SubmitTypeBeforeSize(s: Intake, f: File, size: nat)
    requires f.mimeType !in ValidTypes
    ensures Submit(s, f) == Submit(s, f.(size := size))
  {
  }

  /** With a listed type, the size limit is 5242880 bytes, inclusive. */
  lemma SubmitSizeLimit(s: Intake, f: File)
    requires f.mimeType in ValidTypes
    ensures MaxSize == 5242880
    ensures Submit(s, f).error == Some(TooLarge) <==> f.size > 5242880
    ensures f.size > 5242880 ==> Submit(s, f).file == s.file && Submit(s, f).pending == s.pending
    ensures Submit(s, f.(size := 5242880)).file == Some(f.(size := 5242880))
    ensures Submit(s, f.(size := 0)).file == Some(f.(size := 0))
  {
  }

  /** Every submission first clears the error and the success flag, even when it then rejects. */
  lemma SubmitClearsFirst(s: Intake, f: File)
    ensures Submit(s, f).error == Validate(f)
    ensures !Submit(s, f).uploadSuccess
    ensures Submit(s, f).isDragging == s.isDragging && Submit(s, f).notified == s.notified
  {
  }

  /** An accepted file is held, marked as uploading, and gets one completion step scheduled. */
  lemma SubmitAccepts(s: Intake, f: File)
    requires Accepted(f)
    ensures Submit(s, f).file == Some(f)
    ensures Submit(s, f).uploading && Submit(s, f).error == None
    ensures Submit(s, f).pending == s.pending + [f]
  {
  }

  // ------------------------------------------------------ completion, reset, drag/drop

  /** The timer body ends the upload and calls the callback once with the file it was scheduled for. */
  lemma FireCompletes(s: Intake)
    requires s.pending != []
    ensures !Fire(s).uploading && Fire(s).uploadSuccess
    ensures Fire(s).pending == s.pending[1..]
    ensures Fire(s).notified == s.notified + (if s.hasCallback then [s.pending[0]] else [])
    ensures Fire(s).file == s.file && Fire(s).error == s.error && Fire(s).isDragging == s.isDragging
  {
  }

  /** `resetUpload` empties the slot but leaves `uploading` and the scheduled steps alone; twice is once. */
  lemma ClearEmpties(s: Intake)
    ensures Clear(s).file == None && !Clear(s).uploadSuccess && Clear(s).error == None
    ensures Clear(s).uploading == s.uploading && Clear(s).pending == s.pending
    ensures Clear(Clear(s)) == Clear(s)
  {
  }

  /** Drag enter sets the flag, drag leave clears it, and nothing else changes. */
  lemma DragFlags(s: Intake)
    ensures Drag(s, true).isDragging && !Drag(s, false).isDragging
    ensures Drag(s, true).(isDragging := s.isDragging) == s
    ensures Drag(s, false).(isDragging := s.isDragging) == s
  {
  }

  /** Drop and select process only the first file, do nothing on an empty list, and drop stops dragging. */
  lemma FirstFileOnly(s: Intake, files: seq<File>)
    ensures !DropFiles(s, files).isDragging
    ensures DropFiles(s, []) == s.(isDragging := false)
    ensures SelectFiles(s, []) == s
    ensures |files| > 0 ==> DropFiles(s, files) == Submit(s.(isDragging := false), files[0])
    ensures |files| > 0 ==> SelectFiles(s, files) == Submit(s, files[0])
    ensures |files| > 0 ==> DropFiles(s, files) == DropFiles(s, files[..1])
    ensures |files| > 0 ==> SelectFiles(s, files) == SelectFiles(s, files[..1])
  {
  }

  // ------------------------------------------------------ whole sessions

  /** Whatever the widget holds or has scheduled passed validation. */
  predicate HoldsOnlyAccepted(s: Intake) {
    && (s.file.Some? ==> Accepted(s.file.value))
    && (forall i :: 0 <= i < |s.pending| ==> Accepted(s.pending[i]))
    && (forall i :: 0 <= i < |s.notified| ==> Accepted(s.notified[i]))
  }

  lemma StepHoldsOnlyAccepted(s: Intake, e: Event)
    requires HoldsOnlyAccepted(s)
    ensures HoldsOnlyAccepted(Step(s, e))
    ensures Step(s, e).hasCallback == s.hasCallback
  {
    if e.TimerFires? && s.pending != [] {
      assert Accepted(s.pending[0]);
    }
  }

  lemma {:induction false} RunHoldsOnlyAccepted(s: Intake, events: seq<Event>)
    requires HoldsOnlyAccepted(s)
    ensures HoldsOnlyAccepted(Run(s, events))
    decreases |events|
  {
    if events != [] {
      StepHoldsOnlyAccepted(s, events[0]);
      RunHoldsOnlyAccepted(Step(s, events[0]), events[1..]);
    }
  }

  /** Every session from a fresh widget only ever holds, schedules and reports accepted files. */
  lemma SessionHoldsOnlyAccepted(hasCallback: bool, events: seq<Event>)
    ensures HoldsOnlyAccepted(Run(Initial(hasCallback), events))
  {
    RunHoldsOnlyAccepted(Initial(hasCallback), events);
  }

  lemma StepAccounting(s: Intake, e: Event)
    requires s.hasCallback
    ensures Step(s, e).hasCallback
    ensures Step(s, e).notified + Step(s, e).pending == s.notified + s.pending + AcceptedFiles([e])
  {
    assert [e][1..] == [];
    match e
    case DropOf(files) =>
      SubmitAccounting(Drag(s, false), files);
    case SelectOf(files) =>
      SubmitAccounting(s, files);
    case TimerFires =>
      if s.pending != [] {
        assert s.pending == [s.pending[0]] + s.pending[1..];
      }
    case _ =>
  }

  lemma SubmitAccounting(s: Intake, files: seq<File>)
    requires s.hasCallback
    ensures SelectFiles(s, files).hasCallback
    ensures SelectFiles(s, files).notified + SelectFiles(s, files).pending
         == s.notified + s.pending + (if |files| > 0 && Accepted(files[0]) then [files[0]] else [])
  {
  }

  /**
   * With a callback, every accepted file is reported exactly once, in
   * submission order: what has been reported followed by what is still
   * scheduled grows by exactly the accepted files.
   */
  lemma {:induction false} CallbackOncePerAcceptedFile(s: Intake, events: seq<Event>)
    requires s.hasCallback
    ensures Run(s, events).notified + Run(s, events).pending == s.notified + s.pending + AcceptedFiles(events)
    decreases |events|
  {
    if events != [] {
      var e := events[0];
      StepAccounting(s, e);
      CallbackOncePerAcceptedFile(Step(s, e), events[1..]);
      assert AcceptedFiles(events) == AcceptedFiles([e]) + AcceptedFiles(events[1..]);
    }
  }

  /** Without a callback nothing is ever reported. */
  lemma {:induction false} NoCallbackNoReports(s: Intake, events: seq<Event>)
    requires !s.hasCallback
    ensures Run(s, events).notified == s.notified
    decreases |events|
  {
    if events != [] {
      NoCallbackNoReports(Step(s, events[0]), events[1..]);
    }
  }

  function Timers(n: nat): (r: seq<Event>)
    ensures |r| == n && forall i :: 0 <= i < n ==> r[i] == TimerFires
  {
    if n == 0 then [] else [TimerFires] + Timers(n - 1)
  }

  /** Once all scheduled steps have fired, nothing is pending and each was reported in turn. */
  lemma {:induction false} AllTimersFire(s: Intake)
    ensures Run(s, Timers(|s.pending|)).pending == []
    ensures Run(s, Timers(|s.pending|)).notified
        == s.notified + (if s.hasCallback then s.pending else [])
    decreases |s.pending|
  {
    if s.pending != [] {
      var t := Fire(s);
      assert Timers(|s.pending|)[1..] == Timers(|t.pending|);
      AllTimersFire(t);
      assert s.pending == [s.pending[0]] + t.pending;
    }
  }

  // ------------------------------------------------------ scenarios

  const Resume := File(PdfType, 1024, "resume.pdf")

  /** A small PDF is accepted, uploads, and completes with one callback carrying it. */
  lemma AcceptedPdfScenario()
    ensures var s := SelectFiles(Initial(true), [Resume]);
      s.uploading && !s.uploadSuccess && s.file == Some(Resume) && s.error == None
    ensures var t := Fire(SelectFiles(Initial(true), [Resume]));
      !t.uploading && t.uploadSuccess && t.file == Some(Resume) && t.notified == [Resume]
  {
  }

  /** A PNG is refused with the type message; a 6 MiB PDF with the size message. */
  lemma RejectedScenarios()
    ensures SelectFiles(Initial(true), [File("image/png", 1024, "photo.png")]).error == Some(UnsupportedType)
    ensures SelectFiles(Initial(true), [File(PdfType, 6291456, "big.pdf")]).error == Some(TooLarge)
    ensures SelectFiles(Initial(true), [File(PdfType, 6291456, "big.pdf")]).file == None
  {
  }

  /** A reset does not cancel the scheduled step: it still fires, reports success and calls back. */
  lemma ResetDoesNotCancel()
    ensures var t := Fire(Clear(SelectFiles(Initial(true), [Resume])));
      t.file == None && t.uploadSuccess && !t.uploading && t.notified == [Resume]
  {
  }

  /** A rejected file leaves the previously accepted one in the slot. */
  lemma RejectionKeepsHeldFile()
    ensures var s := SelectFiles(SelectFiles(Initial(true), [Resume]), [File("image/png", 1, "x.png")]);
      s.file == Some(Resume) && s.error == Some(UnsupportedType) && s.uploading
  {
  }

  // ------------------------------------------------------ the component

  /** The widget's state and its handlers. */
  class Uploader {
    var isDragging: bool
    var file: Option<File>
    var uploading: bool
    var uploadSuccess: bool
    var error: Option<Rejection>
    var pending: seq<File>
    var notified: seq<File>
    const hasCallback: bool

    function State(): Intake
      reads this
    {
      Intake(isDragging, file, uploading, uploadSuccess, error, pending, notified, hasCallback)
    }

    constructor (hasCallback: bool)
      ensures State() == Initial(hasCallback)
    {
      this.hasCallback := hasCallback;
      isDragging, file, uploading, uploadSuccess, error := false, None, false, false, None;
      pending, notified := [], [];
    }

    /** `processFile`: clear, check the type, check the size, then accept and schedule. */
    method ProcessFile(f: File)
      modifies this
      ensures !uploadSuccess && error == Validate(f)
      ensures file == (if Accepted(f) then Some(f) else old(file))
      ensures uploading == (Accepted(f) || old(uploading))
      ensures State() == Submit(old(State()), f)
    {
      error := None;
      uploadSuccess := false;
      if f.mimeType !in ValidTypes {
        error := Some(UnsupportedType);
        return;
      }
      if f.size > MaxSize {
        error := Some(TooLarge);
        return;
      }
      file := Some(f);
      uploading := true;
      pending := pending + [f];
    }

    /** The timer body; `delivered` is the file passed to `onUploadComplete`, if it was called. */
    method Complete() returns (delivered: Option<File>)
      modifies this
      ensures old(pending) != [] ==> !uploading && uploadSuccess
      ensures delivered == if old(pending) != [] && hasCallback then Some(old(pending)[0]) else None
      ensures State() == Fire(old(State()))
    {
      delivered := None;
      if pending == [] {
        return;
      }
      var f := pending[0];
      pending := pending[1..];
      uploading := false;
      uploadSuccess := true;
      if hasCallback {
        notified := notified + [f];
        delivered := Some(f);
      }
    }

    /** `resetUpload`. */
    method Reset()
      modifies this
      ensures file == None && !uploadSuccess && error == None
      ensures uploading == old(uploading)
      ensures State() == Clear(old(State()))
    {
      file := None;
      uploadSuccess := false;
      error := None;
    }

    /** `handleDragEnter`. */
    method DragEnter()
      modifies this
      ensures isDragging
      ensures State() == Drag(old(State()), true)
    {
      isDragging := true;
    }

    /** `handleDragLeave`. */
    method DragLeave()
      modifies this
      ensures !isDragging
      ensures State() == Drag(old(State()), false)
    {
      isDragging := false;
    }

    /** `handleDrop`. */
    method Drop(files: seq<File>)
      modifies this
      ensures !isDragging
      ensures State() == DropFiles(old(State()), files)
    {
      isDragging := false;
      if |files| > 0 {
        ProcessFile(files[0]);
      }
    }

    /** `handleFileSelect`. */
    method Select(files: seq<File>)
      modifies this
      ensures State() == SelectFiles(old(State()), files)
    {
      if |files| > 0 {
        ProcessFile(files[0]);
      }
    }
  }
}
