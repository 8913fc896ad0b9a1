/** The speech-to-text upload page: selection-time validation of an audio file,
    a drag-highlight flag, and one transcription request at a time. */
module SpeechToText {
  import opened Wrappers

  /** A browser `File`: its name, its MIME type (possibly empty) and its size in bytes. */
  datatype AudioFile = AudioFile(name: string, mimeType: string, size: nat)

  /** The MIME types accepted without looking at the name. */
  const ValidTypes: seq<string> := ["audio/wav", "audio/x-wav", "audio/mpeg", "audio/mp3"]

  /** The largest accepted upload: 25 MiB. */
  const MaxUploadBytes: nat := 25 * 1024 * 1024

  const FormatError := "Invalid file format. Please upload a .wav or .mp3 file."
  const SizeError := "File is too large. Please use a file smaller than 25MB for this demo."
  const FailedToTranscribe := "Failed to transcribe audio."
  const UnexpectedError := "An unexpected error occurred. Please try again."

  // ---------------------------------------------------------------------------
  // File-name extension test (the case-insensitive regular expression \.(wav|mp3)$)
  // ---------------------------------------------------------------------------

  /** Case folding of the `i` flag: ASCII upper-case letters map to lower case. */
  function Fold(c: char): char
  {
    if 'A' <= c <= 'Z' then (c as int + 32) as char else c
  }

  function Lower(s: string): (r: string)
    ensures |r| == |s|
    ensures forall k :: 0 <= k < |s| ==> r[k] == Fold(s[k])
  {
    seq(|s|, k requires 0 <= k < |s| => Fold(s[k]))
  }

  predicate EndsWith(s: string, suffix: string)
  {
    |suffix| <= |s| && s[|s| - |suffix|..] == suffix
  }

  /** The extension test as computed: fold the name, then compare its last four characters. */
  predicate HasAudioExtension(name: string)
  {
    var low := Lower(name);
    EndsWith(low, ".wav") || EndsWith(low, ".mp3")
  }

  /** Two strings agree character by character up to case folding. */
  predicate SameIgnoringCase(a: string, b: string)
  {
    |a| == |b| && forall k :: 0 <= k < |a| ==> Fold(a[k]) == Fold(b[k])
  }

  /** A match of the pattern \.(wav|mp3)$ that starts at position i of the name:
      one of the two alternatives, case-insensitively, ending at the end of input. */
  predicate PatternMatchesAt(name: string, i: int)
  {
    0 <= i <= |name| &&
    (SameIgnoringCase(name[i..], ".wav") || SameIgnoringCase(name[i..], ".mp3"))
  }

  /** `RegExp.prototype.test`: the pattern matches at some start position. */
  ghost predicate RegexTest(name: string)
  {
    exists i :: PatternMatchesAt(name, i)
  }

  lemma FoldedSuffix(name: string, lit: string)
    requires |lit| <= |name|
    requires forall k :: 0 <= k < |lit| ==> Fold(lit[k]) == lit[k]
    ensures EndsWith(Lower(name), lit) <==> SameIgnoringCase(name[|name| - |lit|..], lit)
  {
  }

  /** The folded-suffix test is exactly the regular expression's verdict. */
  lemma {:induction false} ExtensionTestIsRegex(name: string)
    ensures HasAudioExtension(name) <==> RegexTest(name)
  {
    if |name| >= 4 {
      FoldedSuffix(name, ".wav");
      FoldedSuffix(name, ".mp3");
      if HasAudioExtension(name) {
        assert PatternMatchesAt(name, |name| - 4);
      }
    }
    if RegexTest(name) {
      var i :| PatternMatchesAt(name, i);
      assert |name[i..]| == 4;
      assert i == |name| - 4;
      FoldedSuffix(name, ".wav");
      FoldedSuffix(name, ".mp3");
    }
  }

  // ---------------------------------------------------------------------------
  // Selection-time validation
  // ---------------------------------------------------------------------------

  /** The format check: an accepted MIME type, or a .wav/.mp3 name in any case. */
  predicate IsWavOrMp3(f: AudioFile)
  {
    f.mimeType in ValidTypes || HasAudioExtension(f.name)
  }

  /** A file that passes both checks. */
  predicate Acceptable(f: AudioFile)
  {
    IsWavOrMp3(f) && f.size <= MaxUploadBytes
  }

  /** What one selection leads to. */
  datatype Verdict = NoSelection | Rejected(message: string) | Accepted(file: AudioFile)

  /** The decision taken on a selection; the format check comes before the size check. */
  function Validate(selection: Option<AudioFile>): (v: Verdict)
    ensures selection.None? <==> v == NoSelection
    ensures v.Accepted? <==> selection.Some? && Acceptable(selection.value)
    ensures v.Accepted? ==> v.file == selection.value
    ensures selection.Some? && !IsWavOrMp3(selection.value) ==> v == Rejected(FormatError)
    ensures selection.Some? && IsWavOrMp3(selection.value) && selection.value.size > MaxUploadBytes
      ==> v == Rejected(SizeError)
  {
    match selection
    case None => NoSelection
    case Some(f) =>
      if !IsWavOrMp3(f) then Rejected(FormatError)
      else if f.size > MaxUploadBytes then Rejected(SizeError)
      else Accepted(f)
  }

  /** A file of exactly 25 MiB is accepted, one byte more is rejected for its size. */
  lemma SizeBoundary(name: string, mimeType: string)
    requires mimeType in ValidTypes || RegexTest(name)
    ensures Validate(Some(AudioFile(name, mimeType, 26214400))).Accepted?
    ensures Validate(Some(AudioFile(name, mimeType, 26214401))) == Rejected(SizeError)
  {
  }

  /** The format message wins over the size message. */
  lemma BadFormatOversizedGetsFormatError(f: AudioFile)
    requires f.mimeType !in ValidTypes && !RegexTest(f.name)
    requires f.size > MaxUploadBytes
    ensures Validate(Some(f)) == Rejected(FormatError)
  {
    ExtensionTestIsRegex(f.name);
  }

  // ---------------------------------------------------------------------------
  // The drag-highlight flag
  // ---------------------------------------------------------------------------

  predicate Activates(eventType: string)
  {
    eventType == "dragenter" || eventType == "dragover"
  }

  /** Event types that decide the flag; every other type leaves it alone. */
  predicate Decisive(eventType: string)
  {
    Activates(eventType) || eventType == "dragleave"
  }

  /** The flag after `handleDrag` sees one event. */
  function DragStep(active: bool, eventType: string): (r: bool)
    ensures Decisive(eventType) ==> r == Activates(eventType)
    ensures !Decisive(eventType) ==> r == active
  {
    if eventType == "dragenter" || eventType == "dragover" then true
    else if eventType == "dragleave" then false
    else active
  }

  /** The flag after `handleDrag` sees each event of a sequence in turn. */
  function Drags(active: bool, events: seq<string>): bool
  {
    if events == [] then active
    else DragStep(Drags(active, events[..|events| - 1]), events[|events| - 1])
  }

  /** After a run of drag events, the flag is set by the last deciding event. */
  lemma {:induction false} DragFlagFollowsLastDecisive(active: bool, events: seq<string>, i: int)
    requires 0 <= i < |events| && Decisive(events[i])
    requires forall j :: i < j < |events| ==> !Decisive(events[j])
    ensures Drags(active, events) == Activates(events[i])
    decreases |events|
  {
    var n := |events| - 1;
    if i < n {
      var front := events[..n];
      assert front[i] == events[i];
      forall j | i < j < |front| ensures !Decisive(front[j]) {
        assert front[j] == events[j];
      }
      DragFlagFollowsLastDecisive(active, front, i);
    }
  }

  /** With no deciding event, the flag keeps its value. */
  lemma {:induction false} DragFlagUnchangedWithoutDecisive(active: bool, events: seq<string>)
    requires forall j :: 0 <= j < |events| ==> !Decisive(events[j])
    ensures Drags(active, events) == active
    decreases |events|
  {
    if events != [] {
      var front := events[..|events| - 1];
      forall j | 0 <= j < |front| ensures !Decisive(front[j]) {
        assert front[j] == events[j];
      }
      DragFlagUnchangedWithoutDecisive(active, front);
    }
  }

  // ---------------------------------------------------------------------------
  // The transcription request
  // ---------------------------------------------------------------------------

  /** The parsed JSON body: `transcript` on success, an optional `error` string otherwise. */
  datatype SpeechBody = SpeechBody(transcript: string, error: Option<string>)

  /** How the single POST resolves: a parsed response, or an exception (transport failure
      or a body that is not JSON) with its message. */
  datatype SpeechOutcome = Responded(ok: bool, body: SpeechBody) | Threw(message: string)

  /** The catch block's fallback for an exception without a message. */
  function Caught(message: string): string
  {
    if message != "" then message else UnexpectedError
  }

  /** The message thrown for a non-ok response: the server's `error` when it is non-empty. */
  function ServerMessage(body: SpeechBody): string
  {
    if body.error.Some? && body.error.value != "" then body.error.value else FailedToTranscribe
  }

  /** The error shown after the request resolves; None when it succeeded. */
  function CompletionError(o: SpeechOutcome): (e: Option<string>)
    ensures e.None? <==> o.Responded? && o.ok
    ensures e.Some? ==> e.value != ""
    ensures o.Responded? && !o.ok && o.body.error.Some? && o.body.error.value != ""
      ==> e == Some(o.body.error.value)
    ensures o.Responded? && !o.ok && (o.body.error.None? || o.body.error.value == "")
      ==> e == Some(FailedToTranscribe)
    ensures o.Threw? ==> e == Some(if o.message != "" then o.message else UnexpectedError)
  {
    match o
    case Responded(ok, body) => if ok then None else Some(Caught(ServerMessage(body)))
    case Threw(message) => Some(Caught(message))
  }

  /** The state of one speech-to-text page. */
  class SpeechToTextPage {
    var file: Option<AudioFile>
    var transcript: string
    var loading: bool
    var error: string
    var dragActive: bool
    /** Every file sent to the transcription endpoint, oldest first. */
    var uploads: seq<AudioFile>

    /** Only an accepted file is ever stored or uploaded, and no transcript is shown
        while a request is outstanding. */
    ghost predicate Valid()
      reads this
    {
      (file.Some? ==> Acceptable(file.value)) &&
      (loading ==> transcript == "") &&
      (forall k :: 0 <= k < |uploads| ==> Acceptable(uploads[k]))
    }

    constructor ()
      ensures Valid()
      ensures file == None && transcript == "" && !loading && error == "" && !dragActive
      ensures uploads == []
    {
      file, transcript, loading, error, dragActive := None, "", false, "", false;
      uploads := [];
    }

    /** The submit button is disabled with no file or while a request is outstanding. */
    function SubmitDisabled(): (disabled: bool)
      reads this
      ensures !disabled ==> file.Some? && !loading
      ensures disabled ==> file.None? || loading
    {
      file.None? || loading
    }

    /** `validateAndSetFile`: clear the messages, then store the file only if it passes. */
    method ValidateAndSetFile(selection: Option<AudioFile>)
      requires Valid()
      modifies this
      ensures Valid()
      ensures transcript == ""
      ensures error == (if Validate(selection).Rejected? then Validate(selection).message else "")
      ensures file == (if Validate(selection).Accepted? then Some(selection.value) else old(file))
      ensures loading == old(loading) && dragActive == old(dragActive) && uploads == old(uploads)
    {
      error := "";
      transcript := "";
      if selection.None? {
        return;
      }
      var f := selection.value;
      var isWavOrMp3 := f.mimeType in ValidTypes || HasAudioExtension(f.name);
      if !isWavOrMp3 {
        error := FormatError;
        return;
      }
      if f.size > MaxUploadBytes {
        error := SizeError;
        return;
      }
      file := Some(f);
    }

    /** `handleFileChange`: the first chosen file, or nothing when the list is empty. */
    method HandleFileChange(files: seq<AudioFile>)
      requires Valid()
      modifies this
      ensures Valid()
      ensures var selection := if |files| > 0 then Some(files[0]) else None;
        transcript == "" &&
        error == (if Validate(selection).Rejected? then Validate(selection).message else "") &&
        file == (if Validate(selection).Accepted? then selection else old(file))
      ensures loading == old(loading) && dragActive == old(dragActive) && uploads == old(uploads)
    {
      var selection := if |files| > 0 then Some(files[0]) else None;
      ValidateAndSetFile(selection);
    }

    /** `handleDrag`: enter/over raise the flag, leave lowers it, other types leave it. */
    method HandleDrag(eventType: string)
      requires Valid()
      modifies this`dragActive
      ensures Valid()
      ensures dragActive == DragStep(old(dragActive), eventType)
    {
      if eventType == "dragenter" || eventType == "dragover" {
        dragActive := true;
      } else if eventType == "dragleave" {
        dragActive := false;
      }
    }

    /** `handleDrop`: lower the flag, then validate the first dropped file if there is one;
        an empty drop does not touch the messages. */
    method HandleDrop(files: seq<AudioFile>)
      requires Valid()
      modifies this
      ensures Valid()
      ensures !dragActive
      ensures |files| == 0 ==> file == old(file) && transcript == old(transcript) && error == old(error)
      ensures |files| > 0 ==>
        transcript == "" &&
        error == (if Validate(Some(files[0])).Rejected? then Validate(Some(files[0])).message else "") &&
        file == (if Acceptable(files[0]) then Some(files[0]) else old(file))
      ensures loading == old(loading) && uploads == old(uploads)
    {
      dragActive := false;
      if |files| > 0 {
        ValidateAndSetFile(Some(files[0]));
      }
    }

    /** The synchronous half of `handleSubmit`: with no file nothing happens; otherwise
        the page enters the loading state, clears its messages and uploads the file once.
        The disabled button keeps a second submit out while one is outstanding. */
    method BeginSubmit() returns (sent: bool)
      requires Valid() && !loading
      modifies this
      ensures Valid()
      ensures sent <==> old(file).Some?
      ensures !sent ==> (loading == old(loading) && error == old(error) &&
                         transcript == old(transcript) && uploads == old(uploads))
      ensures sent ==> (loading && error == "" && transcript == "" &&
                        uploads == old(uploads) + [old(file).value])
      ensures sent ==> SubmitDisabled()
      ensures file == old(file) && dragActive == old(dragActive)
    {
      if file.None? {
        return false;
      }
      loading := true;
      error := "";
      transcript := "";
      uploads := uploads + [file.value];
      sent := true;
    }

    /** The asynchronous half of `handleSubmit`: store the transcript of an ok response,
        show the error of any other outcome, and leave the loading state in every case. */
    method CompleteSubmit(outcome: SpeechOutcome)
      requires Valid() && loading
      modifies this
      ensures Valid()
      ensures !loading
      ensures SubmitDisabled() <==> file.None?
      ensures outcome.Responded? && outcome.ok ==>
        transcript == outcome.body.transcript && error == old(error)
      ensures !(outcome.Responded? && outcome.ok) ==>
        error == CompletionError(outcome).value && transcript == old(transcript)
      ensures file == old(file) && dragActive == old(dragActive) && uploads == old(uploads)
    {
      var failure := CompletionError(outcome);
      if failure.None? {
        transcript := outcome.body.transcript;
      } else {
        error := failure.value;
      }
      loading := false;
    }
  }
  /** A client run: after a valid file is chosen, a later invalid choice shows its error
      but leaves the valid file selected, and a submit uploads that file. */
  method RejectedChoiceKeepsEarlierFile(good: AudioFile, bad: AudioFile) returns (uploaded: AudioFile, shown: string)
    requires Acceptable(good) && !IsWavOrMp3(bad)
    ensures uploaded == good && shown == FormatError
  {
    var page := new SpeechToTextPage();
    page.HandleFileChange([good]);
    page.HandleFileChange([bad]);
    shown := page.error;
    var sent := page.BeginSubmit();
    uploaded := page.uploads[0];
  }
  /** A client run: the button is available once an accepted file is chosen, locked while
      its upload is outstanding, and available again whatever the outcome. */
  method SubmitLocksUntilResolved(f: AudioFile, outcome: SpeechOutcome)
    returns (before: bool, during: bool, after: bool)
    requires Acceptable(f)
    ensures !before && during && !after
  {
    var page := new SpeechToTextPage();
    page.HandleFileChange([f]);
    before := page.SubmitDisabled();
    var sent := page.BeginSubmit();
    during := page.SubmitDisabled();
    page.CompleteSubmit(outcome);
    after := page.SubmitDisabled();
  }
}
