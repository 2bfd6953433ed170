/**
 * The lesson list controller. Its one operation, `loadLessons`, launches a
 * coroutine on the main dispatcher: it first publishes `Loading`
 * (synchronously, before the launch returns), then, once the lessons use case
 * has returned or thrown, publishes `Success` or `Error`. The two halves are the
 * begin and complete steps below; nothing ties a completion to the launch that
 * started it.
 */
module LessonsViewModel {
  import opened KotlinStd
  import opened LessonModel
  import opened LessonDtos
  import opened LessonRepository
  import opened LessonsState

  /** The message shown when the exception carries none. */
  const DefaultLoadError := "An unexpected error occurred"

  /**
   * The state the coroutine publishes once the use case has returned or
   * thrown: never `Loading`; `Success` with exactly the returned lessons; an
   * `Error` carrying the exception's message, or the default one when the
   * message is null.
   */
  function LoadResult(result: Outcome<seq<Lesson>>): (s: LessonsUiState)
    ensures !s.Loading?
    ensures s.Success? <==> result.Returned?
    ensures s.Success? ==> s.lessons == result.value
    ensures result.Threw? && result.message.Some? ==> s == Error(result.message.value)
    ensures result.Threw? && result.message.None? ==> s == Error(DefaultLoadError)
  {
    match result
    case Returned(lessons) => Success(lessons)
    case Threw(message) =>
      Error(if message.Some? then message.value else DefaultLoadError)
  }

  /**
   * The list screen after the repository call: it lists one lesson per DTO in
   * the response, in order, each mapped with its own drawn id; a failing call
   * (network, HTTP or parse error) shows its message, and nothing else shows
   * an error.
   */
  lemma LoadFromRepository(api: Outcome<LessonsResponseDto>, ids: seq<string>)
    requires api.Returned? ==> |ids| == |api.value.lessons|
    ensures var s := LoadResult(GetLessons(api, ids));
      && (s.Success? <==> api.Returned?)
      && (s.Success? ==> |s.lessons| == |api.value.lessons|)
      && (s.Success? ==> forall i :: 0 <= i < |s.lessons| ==>
            (s.lessons[i].id == ids[i]
             && s.lessons[i].title == api.value.lessons[i].lesson_title
             && s.lessons[i].mentor == api.value.lessons[i].mentor_name))
      && (s.Error? ==> api.Threw? && s.message == (if api.message.Some? then api.message.value else DefaultLoadError))
  {
  }

  /** The controller; `uiState` is the value of its `StateFlow`. */
  class LessonsViewModel {
    var uiState: LessonsUiState

    /**
     * The flow starts as `Loading` and `init` calls `loadLessons`, whose first
     * write is `Loading` again; the use case's answer arrives later through
     * `CompleteLoad`.
     */
    constructor ()
      ensures uiState == Loading
    {
      uiState := Loading;
      new;
      BeginLoad();
    }

    /** The synchronous start of `loadLessons`: the list shows a spinner. */
    method BeginLoad()
      modifies this
      ensures uiState == Loading
    {
      uiState := Loading;
    }

    /** The end of a `loadLessons` coroutine, whichever launch it belongs to. */
    method CompleteLoad(result: Outcome<seq<Lesson>>)
      modifies this
      ensures uiState == LoadResult(result)
    {
      match result
      case Returned(lessons) =>
        uiState := Success(lessons);
      case Threw(message) =>
        uiState := Error(if message.Some? then message.value else DefaultLoadError);
    }

    /**
     * One whole `loadLessons` run with no other launch in between (the retry
     * button calls it too): it publishes `Loading`, then the result. What was
     * shown before has no influence on either.
     */
    method LoadLessons(result: Outcome<seq<Lesson>>) returns (writes: seq<LessonsUiState>)
      modifies this
      ensures writes == [Loading, LoadResult(result)]
      ensures uiState == LoadResult(result)
    {
      BeginLoad();
      writes := [uiState];
      CompleteLoad(result);
      writes := writes + [uiState];
    }
  }
}
