/**
 * The notes feature end to end: opening a lesson starts a notes request, the
 * AI service answers it (it never throws: every failure of the model becomes
 * the template notes), the view model stores the answer, and the notes
 * section picks what to show.
 */
module NotesWorkflow {
  import opened KotlinStd
  import opened LessonModel
  import opened LessonDetailState
  import opened GeminiAiService
  import opened LessonDetailViewModel
  import opened NotesSection

  /** Opening `lesson` and receiving the service's answer for it. */
  function OpenAndAnswer(s: LessonDetailUiState, lesson: Lesson,
                         generateContent: string -> ModelResponse): LessonDetailUiState
  {
    Run(s, [SetLessonEvent(lesson),
            NotesResultEvent(Returned(GenerateLessonNotes(lesson.mentor, lesson.title, generateContent)))])
  }

  /** The two-step run unfolded: the lesson is set, then the service's text is stored. */
  lemma OpenAndAnswerUnfold(s: LessonDetailUiState, lesson: Lesson,
                            generateContent: string -> ModelResponse)
    ensures OpenAndAnswer(s, lesson, generateContent)
         == NotesCompleted(NotesStarted(WithLesson(s, lesson)),
                           Returned(GenerateLessonNotes(lesson.mentor, lesson.title, generateContent)))
  {
    var notes := GenerateLessonNotes(lesson.mentor, lesson.title, generateContent);
    var s1 := Step(s, SetLessonEvent(lesson));
    var s2 := Step(s1, NotesResultEvent(Returned(notes)));
    assert Run(s2, []) == s2;
    assert Run(s1, [NotesResultEvent(Returned(notes))]) == s2;
  }

  /**
   * When the model fails (it throws, or answers with no text), the lesson
   * still gets notes: the section shows the template notes, which name the
   * lesson's title and its mentor.
   */
  lemma {:induction false} FailedModelShowsTemplateNotes(s: LessonDetailUiState, lesson: Lesson,
                                                         generateContent: string -> ModelResponse)
    requires generateContent(Prompt(lesson.mentor, lesson.title)).Threw?
          || generateContent(Prompt(lesson.mentor, lesson.title)).value.None?
    ensures var r := OpenAndAnswer(s, lesson, generateContent);
      && r.lesson == Some(lesson) && ScreenClean(r)
      && SelectPanel(r) == NotesText(DefaultLessonNotes(lesson.mentor, lesson.title))
      && Contains(SelectPanel(r).text, lesson.title)
      && Contains(SelectPanel(r).text, lesson.mentor)
  {
    OpenAndAnswerUnfold(s, lesson, generateContent);
    FailureStillGivesNotes(lesson.mentor, lesson.title, generateContent);
  }

  /** When the model answers with a blank text, the section shows the placeholder. */
  lemma {:induction false} BlankModelTextShowsPlaceholder(s: LessonDetailUiState, lesson: Lesson,
                                                          generateContent: string -> ModelResponse)
    requires generateContent(Prompt(lesson.mentor, lesson.title)).Returned?
    requires generateContent(Prompt(lesson.mentor, lesson.title)).value.Some?
    requires IsBlank(generateContent(Prompt(lesson.mentor, lesson.title)).value.value)
    ensures SelectPanel(OpenAndAnswer(s, lesson, generateContent)) == Placeholder(NoNotesText)
    ensures SelectAiNotesPanel(OpenAndAnswer(s, lesson, generateContent)) == Placeholder(NoNotesText)
  {
    OpenAndAnswerUnfold(s, lesson, generateContent);
  }

  /**
   * A notes panel is shown exactly when the model produced text that is not
   * blank, or failed outright; it then shows that text or the template.
   */
  lemma {:induction false} NotesShownUnlessBlank(s: LessonDetailUiState, lesson: Lesson,
                                                 generateContent: string -> ModelResponse)
    ensures var response := generateContent(Prompt(lesson.mentor, lesson.title));
      (SelectPanel(OpenAndAnswer(s, lesson, generateContent)).NotesText?
       <==> !(response.Returned? && response.value.Some? && IsBlank(response.value.value)))
  {
    OpenAndAnswerUnfold(s, lesson, generateContent);
    var response := generateContent(Prompt(lesson.mentor, lesson.title));
    if !(response.Returned? && response.value.Some?) {
      FailureStillGivesNotes(lesson.mentor, lesson.title, generateContent);
    }
  }

  /**
   * The service's answers are always returned values, so as long as every
   * notes result comes from it, neither section ever shows the error panel:
   * the error branch of the notes coroutine is dead code in the app.
   */
  lemma ErrorPanelUnreachable(events: seq<DetailEvent>)
    requires OnlyReturnedNotes(events)
    ensures !SelectPanel(Run(InitialDetailState, events)).ErrorPanel?
    ensures !SelectAiNotesPanel(Run(InitialDetailState, events)).ErrorPanel?
  {
    NoNotesErrorWithoutExceptions(InitialDetailState, events);
  }
}
