/**
 * The lesson-detail controller (presentation/detail/LessonDetailViewModel.kt).
 *
 * The view model holds two state records and replaces each with a modified copy.
 * The functions below say what each operation writes; the class runs the
 * operations on its fields and is proved against them.
 *
 * A `viewModelScope.launch { ... }` block runs on the main dispatcher up to its
 * first suspension as part of the call that launches it, and finishes later.
 * Notes generation is therefore two steps: the call that starts it (`setLesson`,
 * `retryGenerateNotes`) also marks the notes as loading and hands back the request
 * to send; `CompleteNotes` applies whatever the request produced, whenever it
 * arrives. Nothing ties a completion to the request that caused it.
 */
module LessonDetailViewModel {
  import opened KotlinStd
  import opened LessonModel
  import opened LessonDetailState

  /** The arguments of one `generateLessonNotesUseCase(mentorName, lessonTitle)` call. */
  datatype NotesRequest = NotesRequest(mentorName: string, lessonTitle: string)

  /** The request made for a lesson: its mentor and its title. */
  function RequestFor(lesson: Lesson): (request: NotesRequest)
    ensures request.mentorName == lesson.mentor && request.lessonTitle == lesson.title
  {
    NotesRequest(lesson.mentor, lesson.title)
  }

  /** The screen-level error fields are clear; no operation ever sets them. */
  predicate ScreenClean(s: LessonDetailUiState) {
    s.error == None && !s.isLoading
  }

  /** The copy `setLesson(lesson)` writes: the lesson stored, the screen-level error fields cleared. */
  function WithLesson(s: LessonDetailUiState, lesson: Lesson): (r: LessonDetailUiState)
    ensures r.lesson == Some(lesson) && ScreenClean(r)
    ensures r.(lesson := s.lesson, isLoading := s.isLoading, error := s.error) == s
  {
    s.(lesson := Some(lesson), isLoading := false, error := None)
  }

  /**
   * The first write of the notes coroutine: loading on, error off. The previous
   * notes, and every other field, stay as they were until the result arrives.
   */
  function NotesStarted(s: LessonDetailUiState): (r: LessonDetailUiState)
    ensures r.isNotesLoading && r.notesError == None
    ensures r.lessonNotes == s.lessonNotes && r.lesson == s.lesson
    ensures r.(isNotesLoading := s.isNotesLoading, notesError := s.notesError) == s
  {
    s.(isNotesLoading := true, notesError := None)
  }

  /** The prefix of the notes error message. */
  const NotesErrorPrefix: string := "Failed to generate lesson notes: "

  /**
   * The last write of the notes coroutine, given what the use case did. Success
   * replaces the notes; an exception keeps the old notes and records its message
   * (a null message is rendered as "null", as the string template does). Loading
   * ends either way and nothing else changes.
   */
  function NotesCompleted(s: LessonDetailUiState, result: Outcome<string>): (r: LessonDetailUiState)
    ensures !r.isNotesLoading
    ensures result.Returned? ==> r.lessonNotes == result.value && r.notesError == None
    ensures result.Threw? ==> r.lessonNotes == s.lessonNotes
    ensures result.Threw? ==> r.notesError == Some(NotesErrorPrefix + Render(result.message))
    ensures r.(lessonNotes := s.lessonNotes, isNotesLoading := s.isNotesLoading, notesError := s.notesError) == s
  {
    match result
    case Returned(notes) => s.(lessonNotes := notes, isNotesLoading := false, notesError := None)
    case Threw(message) => s.(isNotesLoading := false, notesError := Some(NotesErrorPrefix + Render(message)))
  }

  /** `toggleVideoPlayback()`: the playing flag flips and nothing else changes. */
  function VideoToggled(s: LessonDetailUiState): (r: LessonDetailUiState)
    ensures r.isVideoPlaying == !s.isVideoPlaying
    ensures r.(isVideoPlaying := s.isVideoPlaying) == s
  {
    s.(isVideoPlaying := !s.isVideoPlaying)
  }

  /** Toggling twice gives back the state toggled. */
  lemma ToggleTwiceRestores(s: LessonDetailUiState)
    ensures VideoToggled(VideoToggled(s)) == s
  {
  }

  /** `showSubmitBottomSheet()`: the sheet opens idle, and a file chosen earlier stays chosen. */
  function SheetShown(u: UploadUiState): (r: UploadUiState)
    ensures r.isBottomSheetVisible && r.uploadState == Idle
    ensures r.selectedFileName == u.selectedFileName && r.selectedFileUri == u.selectedFileUri
  {
    u.(isBottomSheetVisible := true, uploadState := Idle)
  }

  /** `hideSubmitBottomSheet()`: whatever came before, the sheet is back to its initial state. */
  function SheetHidden(u: UploadUiState): (r: UploadUiState)
    ensures r == InitialUploadState
  {
    u.(isBottomSheetVisible := false, uploadState := Idle, selectedFileName := None, selectedFileUri := None)
  }

  /** `onFileSelected(uri, fileName)`: only the file's name and uri change. */
  function FileChosen(u: UploadUiState, uri: Option<Uri>, fileName: Option<string>): (r: UploadUiState)
    ensures r.selectedFileName == fileName && r.selectedFileUri == uri
    ensures r.uploadState == u.uploadState && r.isBottomSheetVisible == u.isBottomSheetVisible
  {
    u.(selectedFileName := fileName, selectedFileUri := uri)
  }

  /** The message of a failed upload. */
  const UploadFailedMessage: string := "Upload failed. Please try again."

  /**
   * The values of Kotlin's `first..last step step`: `first`, `first + step`, ...
   * as long as they do not exceed `last`.
   */
  function Progression(first: int, last: int, step: int): seq<int>
    requires step > 0
    decreases last - first
  {
    if first > last then [] else [first] + Progression(first + step, last, step)
  }

  /**
   * A progression stays within `[first, last]`, starts at `first`, strictly
   * increases, and stops only when the next value would pass `last`.
   */
  lemma {:induction false} ProgressionShape(first: int, last: int, step: int)
    requires step > 0
    ensures var p := Progression(first, last, step);
      && (forall i :: 0 <= i < |p| ==> first <= p[i] <= last)
      && (forall i, j :: 0 <= i < j < |p| ==> p[i] < p[j])
      && (first <= last ==> |p| > 0 && p[0] == first && p[|p| - 1] + step > last)
      && (first > last ==> p == [])
    decreases last - first
  {
    if first <= last {
      ProgressionShape(first + step, last, step);
    }
  }

  /** The loop of `uploadFile()` runs over 0, 10, ..., 100. */
  lemma UploadTicks()
    ensures Progression(0, 100, 10) == [0, 10, 20, 30, 40, 50, 60, 70, 80, 90, 100]
  {
  }

  /** The records the progress loop writes: `u` with each value in turn as progress. */
  function ProgressWrites(u: UploadUiState, progress: seq<int>): (ws: seq<UploadUiState>)
    ensures |ws| == |progress|
    ensures forall i :: 0 <= i < |progress| ==> ws[i] == u.(uploadState := InProgress(progress[i]))
  {
    if progress == [] then [] else [u.(uploadState := InProgress(progress[0]))] + ProgressWrites(u, progress[1..])
  }

  /** The record in place after `writes` were assigned, one after another, starting from `u`. */
  function LastWritten(u: UploadUiState, writes: seq<UploadUiState>): UploadUiState {
    if writes == [] then u else writes[|writes| - 1]
  }

  /** After one more assignment, that record is in place. */
  lemma LastWrittenAppend(u: UploadUiState, writes: seq<UploadUiState>, w: UploadUiState)
    ensures LastWritten(u, writes + [w]) == w
  {
  }

  /** Two upload records that agree on everything but the upload status. */
  predicate SameSheet(a: UploadUiState, b: UploadUiState) {
    && a.selectedFileName == b.selectedFileName
    && a.selectedFileUri == b.selectedFileUri
    && a.isBottomSheetVisible == b.isBottomSheetVisible
  }

  /** A progression that has not passed its end starts with `first`, then goes on from `first + step`. */
  lemma ProgressionStep(first: int, last: int, step: int)
    requires step > 0 && first <= last
    ensures Progression(first, last, step) == [first] + Progression(first + step, last, step)
  {
  }

  /** One more progress value writes one more record, at the end. */
  lemma ProgressWritesSnoc(u: UploadUiState, progress: seq<int>, p: int)
    ensures ProgressWrites(u, progress + [p]) == ProgressWrites(u, progress) + [u.(uploadState := InProgress(p))]
  {
    var l := ProgressWrites(u, progress + [p]);
    var r := ProgressWrites(u, progress) + [u.(uploadState := InProgress(p))];
    assert |l| == |r|;
    forall i | 0 <= i < |l|
      ensures l[i] == r[i]
    {
      assert (progress + [p])[i] == if i < |progress| then progress[i] else p;
    }
  }

  /**
   * One pass of the progress loop: the value `progress` moves from the values
   * still to come to those done, and its record is appended to the writes.
   */
  lemma ProgressLoopStep(u: UploadUiState, first: int, done: seq<int>, progress: int, last: int, step: int)
    requires step > 0 && progress <= last
    requires done + Progression(progress, last, step) == Progression(first, last, step)
    ensures (done + [progress]) + Progression(progress + step, last, step) == Progression(first, last, step)
    ensures ProgressWrites(u, done + [progress]) == ProgressWrites(u, done) + [u.(uploadState := InProgress(progress))]
  {
    ProgressionStep(progress, last, step);
    assert done + ([progress] + Progression(progress + step, last, step))
        == (done + [progress]) + Progression(progress + step, last, step);
    ProgressWritesSnoc(u, done, progress);
  }

  /** The progress records do not depend on the status held before them. */
  lemma ProgressWritesIgnoreStatus(u: UploadUiState, v: UploadUiState, progress: seq<int>)
    requires SameSheet(u, v)
    ensures ProgressWrites(u, progress) == ProgressWrites(v, progress)
  {
    var l := ProgressWrites(u, progress);
    var r := ProgressWrites(v, progress);
    forall i | 0 <= i < |l|
      ensures l[i] == r[i]
    {
    }
  }

  /** The records an upload writes after its progress loop. */
  function UploadEnding(u: UploadUiState, isSuccess: bool): seq<UploadUiState> {
    if isSuccess then [u.(uploadState := Success), SheetHidden(u.(uploadState := Success))]
    else [u.(uploadState := Error(UploadFailedMessage))]
  }

  /** The ending records do not depend on the status held before them. */
  lemma UploadEndingIgnoresStatus(u: UploadUiState, v: UploadUiState, isSuccess: bool)
    requires SameSheet(u, v)
    ensures UploadEnding(u, isSuccess) == UploadEnding(v, isSuccess)
  {
    assert u.(uploadState := Success) == v.(uploadState := Success);
    assert u.(uploadState := Error(UploadFailedMessage)) == v.(uploadState := Error(UploadFailedMessage));
  }

  /**
   * Every record `uploadFile()` writes, in order, starting from `u`: progress 0,
   * then 0, 10, ..., 100, then either success followed by the hidden sheet, or
   * the failure message.
   */
  function UploadTrace(u: UploadUiState, isSuccess: bool): seq<UploadUiState> {
    [u.(uploadState := InProgress(0))] + ProgressWrites(u, Progression(0, 100, 10)) + UploadEnding(u, isSuccess)
  }

  /** Where each record of an upload comes from: the first write, the loop, or the ending. */
  lemma TraceAt(u: UploadUiState, ticks: seq<int>, isSuccess: bool, i: int)
    requires 0 <= i < 1 + |ticks| + |UploadEnding(u, isSuccess)|
    ensures var t := [u.(uploadState := InProgress(0))] + ProgressWrites(u, ticks) + UploadEnding(u, isSuccess);
      && (i == 0 ==> t[i] == u.(uploadState := InProgress(0)))
      && (1 <= i <= |ticks| ==> t[i] == u.(uploadState := InProgress(ticks[i - 1])))
      && (|ticks| < i ==> t[i] == UploadEnding(u, isSuccess)[i - 1 - |ticks|])
  {
  }

  /** The shape of an upload's records for any increasing progress values within [0, 100]. */
  lemma TraceShapeOver(u: UploadUiState, ticks: seq<int>, isSuccess: bool)
    requires forall i :: 0 <= i < |ticks| ==> 0 <= ticks[i] <= 100
    requires forall i, j :: 0 <= i < j < |ticks| ==> ticks[i] < ticks[j]
    ensures var t := [u.(uploadState := InProgress(0))] + ProgressWrites(u, ticks) + UploadEnding(u, isSuccess);
      && t[0].uploadState == InProgress(0)
      && (forall i :: 0 <= i < |t| && t[i].uploadState.InProgress? ==>
            0 <= t[i].uploadState.progress <= 100)
      && (forall i, j :: 0 <= i < j < |t| && t[i].uploadState.InProgress? && t[j].uploadState.InProgress? ==>
            t[i].uploadState.progress <= t[j].uploadState.progress)
      && (forall i :: 0 <= i < |t| - 1 ==>
            t[i].isBottomSheetVisible == u.isBottomSheetVisible && t[i].selectedFileName == u.selectedFileName
            && t[i].selectedFileUri == u.selectedFileUri)
      && (isSuccess ==> t[|t| - 2].uploadState == Success && t[|t| - 1] == InitialUploadState)
      && (!isSuccess ==> t[|t| - 1] == u.(uploadState := Error(UploadFailedMessage)))
  {
    var t := [u.(uploadState := InProgress(0))] + ProgressWrites(u, ticks) + UploadEnding(u, isSuccess);
    var n := |ticks|;
    assert |t| == 1 + n + |UploadEnding(u, isSuccess)|;
    TraceAt(u, ticks, isSuccess, 0);
    forall i | 0 <= i < |t| && t[i].uploadState.InProgress?
      ensures 0 <= t[i].uploadState.progress <= 100
    {
      TraceAt(u, ticks, isSuccess, i);
    }
    forall i, j | 0 <= i < j < |t| && t[i].uploadState.InProgress? && t[j].uploadState.InProgress?
      ensures t[i].uploadState.progress <= t[j].uploadState.progress
    {
      TraceAt(u, ticks, isSuccess, i);
      TraceAt(u, ticks, isSuccess, j);
    }
    forall i | 0 <= i < |t| - 1
      ensures t[i].isBottomSheetVisible == u.isBottomSheetVisible && t[i].selectedFileName == u.selectedFileName
      ensures t[i].selectedFileUri == u.selectedFileUri
    {
      TraceAt(u, ticks, isSuccess, i);
    }
    TraceAt(u, ticks, isSuccess, |t| - 1);
    if isSuccess {
      TraceAt(u, ticks, isSuccess, |t| - 2);
    }
  }

  /**
   * What an upload shows: the progress never leaves [0, 100] and never goes
   * down; the sheet and the chosen file stay put while it runs; a success ends
   * with the sheet back in its initial state, a failure ends on the failure
   * message with the sheet still open and the file still chosen.
   */
  lemma UploadTraceShape(u: UploadUiState, isSuccess: bool)
    ensures var t := UploadTrace(u, isSuccess);
      && t[0].uploadState == InProgress(0)
      && (forall i :: 0 <= i < |t| && t[i].uploadState.InProgress? ==>
            0 <= t[i].uploadState.progress <= 100)
      && (forall i, j :: 0 <= i < j < |t| && t[i].uploadState.InProgress? && t[j].uploadState.InProgress? ==>
            t[i].uploadState.progress <= t[j].uploadState.progress)
      && (forall i :: 0 <= i < |t| - 1 ==>
            t[i].isBottomSheetVisible == u.isBottomSheetVisible && t[i].selectedFileName == u.selectedFileName
            && t[i].selectedFileUri == u.selectedFileUri)
      && (isSuccess ==> t[|t| - 2].uploadState == Success && t[|t| - 1] == InitialUploadState)
      && (!isSuccess ==> t[|t| - 1] == u.(uploadState := Error(UploadFailedMessage)))
  {
    ProgressionShape(0, 100, 10);
    TraceShapeOver(u, Progression(0, 100, 10), isSuccess);
  }

  /** The operations that write the detail record, as a caller of the view model performs them. */
  datatype DetailEvent =
    | SetLessonEvent(lesson: Lesson)
    | RetryEvent
    | NotesResultEvent(result: Outcome<string>)
    | ToggleVideoEvent

  /** The detail record after one operation. */
  function Step(s: LessonDetailUiState, e: DetailEvent): LessonDetailUiState {
    match e
    case SetLessonEvent(lesson) => NotesStarted(WithLesson(s, lesson))
    case RetryEvent => if s.lesson.Some? then NotesStarted(s) else s
    case NotesResultEvent(result) => NotesCompleted(s, result)
    case ToggleVideoEvent => VideoToggled(s)
  }

  /** The detail record after a sequence of operations, in order. */
  function Run(s: LessonDetailUiState, events: seq<DetailEvent>): LessonDetailUiState
    decreases |events|
  {
    if events == [] then s else Run(Step(s, events[0]), events[1..])
  }

  /** No sequence of operations ever sets the screen-level `isLoading` or `error`. */
  lemma {:induction false} RunKeepsScreenClean(s: LessonDetailUiState, events: seq<DetailEvent>)
    requires ScreenClean(s)
    ensures ScreenClean(Run(s, events))
    decreases |events|
  {
    if events != [] {
      RunKeepsScreenClean(Step(s, events[0]), events[1..]);
    }
  }

  /** Every reachable detail record has `isLoading == false` and `error == null`. */
  lemma ReachableStatesAreClean(events: seq<DetailEvent>)
    ensures Run(InitialDetailState, events).error == None
    ensures !Run(InitialDetailState, events).isLoading
  {
    RunKeepsScreenClean(InitialDetailState, events);
  }

  /** Every notes result in the sequence is a returned text, none an exception. */
  predicate OnlyReturnedNotes(events: seq<DetailEvent>) {
    forall i :: 0 <= i < |events| && events[i].NotesResultEvent? ==> events[i].result.Returned?
  }

  /**
   * If the notes use case never throws, `notesError` is never set: the error
   * branch of the notes coroutine is reached only through an exception.
   */
  lemma {:induction false} NoNotesErrorWithoutExceptions(s: LessonDetailUiState, events: seq<DetailEvent>)
    requires s.notesError == None && OnlyReturnedNotes(events)
    ensures Run(s, events).notesError == None
    decreases |events|
  {
    if events != [] {
      assert OnlyReturnedNotes(events[1..]) by {
        forall i | 0 <= i < |events[1..]| && events[1..][i].NotesResultEvent?
          ensures events[1..][i].result.Returned?
        {
          assert events[1..][i] == events[i + 1];
        }
      }
      NoNotesErrorWithoutExceptions(Step(s, events[0]), events[1..]);
    }
  }

  /**
   * Nothing tells an old request's result from the current one: when lesson
   * `b` replaces lesson `a` and the answer for `a` arrives last, the screen
   * shows `b` with the notes generated for `a`.
   */
  lemma StaleResultOverwrites(s: LessonDetailUiState, a: Lesson, b: Lesson, notesForA: string, notesForB: string)
    ensures var r := Run(s, [SetLessonEvent(a), SetLessonEvent(b),
                             NotesResultEvent(Returned(notesForB)), NotesResultEvent(Returned(notesForA))]);
      r.lesson == Some(b) && r.lessonNotes == notesForA && !r.isNotesLoading
  {
    var s1 := Step(s, SetLessonEvent(a));
    var s2 := Step(s1, SetLessonEvent(b));
    var s3 := Step(s2, NotesResultEvent(Returned(notesForB)));
    var s4 := Step(s3, NotesResultEvent(Returned(notesForA)));
    assert Run(s4, []) == s4;
    assert Run(s3, [NotesResultEvent(Returned(notesForA))]) == s4;
    assert Run(s2, [NotesResultEvent(Returned(notesForB)), NotesResultEvent(Returned(notesForA))]) == s4;
    assert Run(s1, [SetLessonEvent(b), NotesResultEvent(Returned(notesForB)), NotesResultEvent(Returned(notesForA))]) == s4;
  }

  /**
   * The controller. Its invariant, `Valid`, is the property that the
   * screen-level `isLoading` and `error` fields are never set.
   */
  class LessonDetailViewModel {
    var uiState: LessonDetailUiState
    var uploadUiState: UploadUiState

    ghost predicate Valid()
      reads this
    {
      ScreenClean(uiState)
    }

    /** A fresh view model holds both records at their defaults. */
    constructor ()
      ensures Valid()
      ensures uiState == InitialDetailState && uploadUiState == InitialUploadState
      ensures uiState.lesson == None && !uiState.isVideoPlaying && uiState.lessonNotes == ""
      ensures !uiState.isNotesLoading && uiState.notesError == None
    {
      uiState := InitialDetailState;
      uploadUiState := InitialUploadState;
    }

    /**
     * `setLesson(lesson)`: store the lesson, then start generating its notes;
     * `request` is what the launched coroutine asks the use case.
     */
    method SetLesson(lesson: Lesson) returns (request: NotesRequest)
      modifies this
      ensures Valid()
      ensures uiState == NotesStarted(WithLesson(old(uiState), lesson))
      ensures uploadUiState == old(uploadUiState)
      ensures request == RequestFor(lesson)
    {
      uiState := uiState.(lesson := Some(lesson), isLoading := false, error := None);
      request := StartNotes(lesson.mentor, lesson.title);
    }

    /** The synchronous part of `generateLessonNotes(mentorName, lessonTitle)`. */
    method StartNotes(mentorName: string, lessonTitle: string) returns (request: NotesRequest)
      requires Valid()
      modifies this
      ensures Valid()
      ensures uiState == NotesStarted(old(uiState))
      ensures uploadUiState == old(uploadUiState)
      ensures request == NotesRequest(mentorName, lessonTitle)
    {
      uiState := uiState.(isNotesLoading := true, notesError := None);
      request := NotesRequest(mentorName, lessonTitle);
    }

    /** The rest of the notes coroutine: apply what the use case did. */
    method CompleteNotes(result: Outcome<string>)
      requires Valid()
      modifies this
      ensures Valid()
      ensures uiState == NotesCompleted(old(uiState), result)
      ensures uploadUiState == old(uploadUiState)
    {
      match result {
        case Returned(notes) =>
          uiState := uiState.(lessonNotes := notes, isNotesLoading := false, notesError := None);
        case Threw(message) =>
          uiState := uiState.(isNotesLoading := false, notesError := Some(NotesErrorPrefix + Render(message)));
      }
    }

    /**
     * `retryGenerateNotes()`: without a stored lesson nothing happens; with one,
     * notes generation starts again for its mentor and title.
     */
    method RetryGenerateNotes() returns (request: Option<NotesRequest>)
      requires Valid()
      modifies this
      ensures Valid()
      ensures old(uiState).lesson == None ==> request == None && uiState == old(uiState)
      ensures old(uiState).lesson.Some? ==>
        request == Some(RequestFor(old(uiState).lesson.value)) && uiState == NotesStarted(old(uiState))
      ensures uploadUiState == old(uploadUiState)
    {
      match uiState.lesson {
        case None =>
          request := None;
        case Some(lesson) =>
          var r := StartNotes(lesson.mentor, lesson.title);
          request := Some(r);
      }
    }

    /** `toggleVideoPlayback()`. */
    method ToggleVideoPlayback()
      requires Valid()
      modifies this
      ensures Valid()
      ensures uiState == VideoToggled(old(uiState))
      ensures uploadUiState == old(uploadUiState)
    {
      uiState := uiState.(isVideoPlaying := !uiState.isVideoPlaying);
    }

    /** `showSubmitBottomSheet()`. */
    method ShowSubmitBottomSheet()
      requires Valid()
      modifies this
      ensures Valid()
      ensures uploadUiState == SheetShown(old(uploadUiState))
      ensures uiState == old(uiState)
    {
      uploadUiState := uploadUiState.(isBottomSheetVisible := true, uploadState := Idle);
    }

    /** `hideSubmitBottomSheet()`. */
    method HideSubmitBottomSheet()
      requires Valid()
      modifies this
      ensures Valid()
      ensures uploadUiState == SheetHidden(old(uploadUiState))
      ensures uiState == old(uiState)
    {
      uploadUiState := uploadUiState.(isBottomSheetVisible := false, uploadState := Idle,
                                      selectedFileName := None, selectedFileUri := None);
    }

    /** `onFileSelected(uri, fileName)`. */
    method OnFileSelected(uri: Option<Uri>, fileName: Option<string>)
      requires Valid()
      modifies this
      ensures Valid()
      ensures uploadUiState == FileChosen(old(uploadUiState), uri, fileName)
      ensures uiState == old(uiState)
    {
      uploadUiState := uploadUiState.(selectedFileName := fileName, selectedFileUri := uri);
    }

    /**
     * `uploadFile()`, run to its end; `isSuccess` is the `Random.nextBoolean()`
     * it draws. `writes` lists every record assigned to the upload state, in order.
     */
    method UploadFile(isSuccess: bool) returns (writes: seq<UploadUiState>)
      requires Valid()
      modifies this
      ensures Valid()
      ensures writes == UploadTrace(old(uploadUiState), isSuccess)
      ensures uploadUiState == writes[|writes| - 1]
      ensures uiState == old(uiState)
    {
      ghost var base := uploadUiState;
      uploadUiState := uploadUiState.(uploadState := InProgress(0));
      var started := uploadUiState;
      var progressWrites := ReportProgress(0, 100, 10);
      ProgressWritesIgnoreStatus(started, base, Progression(0, 100, 10));
      UploadEndingIgnoresStatus(base, uploadUiState, isSuccess);
      var ending := FinishUpload(isSuccess);
      writes := [started] + progressWrites + ending;
    }

    /**
     * The end of `uploadFile()` once the progress loop is done: on success the
     * `Success` record and then the hidden sheet, on failure the error record.
     */
    method FinishUpload(isSuccess: bool) returns (ending: seq<UploadUiState>)
      requires Valid()
      modifies this
      ensures Valid()
      ensures ending == UploadEnding(old(uploadUiState), isSuccess)
      ensures uploadUiState == ending[|ending| - 1]
      ensures uiState == old(uiState)
    {
      if isSuccess {
        uploadUiState := uploadUiState.(uploadState := Success);
        ending := [uploadUiState];
        HideSubmitBottomSheet();
        ending := ending + [uploadUiState];
      } else {
        uploadUiState := uploadUiState.(uploadState := Error(UploadFailedMessage));
        ending := [uploadUiState];
      }
    }

    /**
     * The loop `for (progress in first..last step step)` of `uploadFile()`, each
     * pass writing `InProgress(progress)`; `writes` lists the records written.
     */
    method ReportProgress(first: int, last: int, step: int) returns (writes: seq<UploadUiState>)
      requires Valid() && step > 0
      modifies this
      ensures Valid()
      ensures writes == ProgressWrites(old(uploadUiState), Progression(first, last, step))
      ensures |writes| > 0 ==> uploadUiState == writes[|writes| - 1]
      ensures |writes| == 0 ==> uploadUiState == old(uploadUiState)
      ensures SameSheet(uploadUiState, old(uploadUiState))
      ensures uiState == old(uiState)
    {
      ghost var base := uploadUiState;
      ghost var done: seq<int> := [];
      writes := [];
      var progress := first;
      while progress <= last
        invariant SameSheet(uploadUiState, base)
        invariant done + Progression(progress, last, step) == Progression(first, last, step)
        invariant writes == ProgressWrites(base, done)
        invariant uploadUiState == LastWritten(base, writes)
        invariant uiState == old(uiState)
        decreases last - progress
      {
        ProgressLoopStep(base, first, done, progress, last, step);
        uploadUiState := uploadUiState.(uploadState := InProgress(progress));
        LastWrittenAppend(base, writes, uploadUiState);
        writes := writes + [uploadUiState];
        done := done + [progress];
        progress := progress + step;
      }
      assert Progression(progress, last, step) == [];
    }

    /** `retryUpload()`: another run of the upload. */
    method RetryUpload(isSuccess: bool) returns (writes: seq<UploadUiState>)
      requires Valid()
      modifies this
      ensures Valid()
      ensures writes == UploadTrace(old(uploadUiState), isSuccess)
      ensures uploadUiState == writes[|writes| - 1]
      ensures uiState == old(uiState)
    {
      writes := UploadFile(isSuccess);
    }
  }
}
