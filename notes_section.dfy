/**
 * The "Lesson Notes" card of the detail screen, in its two versions: the
 * plain section in `components/`, which shows the notes verbatim, and the
 * "Lesson Notes (AI Generated)" section in `components/notes/`, which shows
 * them with every `*` turned into `-` (the model's Markdown bullets become
 * dashes). Both pick one of four panels, first match wins: the spinner while
 * notes load, the error with a retry button, the notes when they are not
 * blank, and otherwise a fixed placeholder.
 */
module NotesSection {
  import opened KotlinStd
  import opened LessonDetailState

  /** The panel a notes section shows inside its card. */
  datatype NotesPanel =
    | LoadingPanel
    | ErrorPanel(message: string)
    | NotesText(text: string)
    | Placeholder(text: string)

  /** The italic text shown when there are no notes. */
  const NoNotesText: string := "No lesson notes available at the moment."

  /**
   * The plain section's choice. Each panel is shown exactly when the earlier
   * conditions fail and its own holds; the error panel shows the stored
   * message and the notes panel the stored notes unchanged.
   */
  function SelectPanel(s: LessonDetailUiState): (p: NotesPanel)
    ensures p.LoadingPanel? <==> s.isNotesLoading
    ensures p.ErrorPanel? <==> !s.isNotesLoading && s.notesError.Some?
    ensures p.NotesText? <==> !s.isNotesLoading && s.notesError.None? && !IsBlank(s.lessonNotes)
    ensures p.Placeholder? <==> !s.isNotesLoading && s.notesError.None? && IsBlank(s.lessonNotes)
    ensures p.ErrorPanel? ==> p.message == s.notesError.value
    ensures p.NotesText? ==> p.text == s.lessonNotes
    ensures p.Placeholder? ==> p.text == NoNotesText
  {
    if s.isNotesLoading then LoadingPanel
    else if s.notesError.Some? then ErrorPanel(s.notesError.value)
    else if !IsBlank(s.lessonNotes) then NotesText(s.lessonNotes)
    else Placeholder(NoNotesText)
  }

  /**
   * The AI section's choice: the same conditions in the same order; the notes
   * panel shows the stored notes character for character except that each
   * `*` is a `-`, so it never shows a `*`.
   */
  function SelectAiNotesPanel(s: LessonDetailUiState): (p: NotesPanel)
    ensures p.LoadingPanel? <==> s.isNotesLoading
    ensures p.ErrorPanel? <==> !s.isNotesLoading && s.notesError.Some?
    ensures p.NotesText? <==> !s.isNotesLoading && s.notesError.None? && !IsBlank(s.lessonNotes)
    ensures p.Placeholder? <==> !s.isNotesLoading && s.notesError.None? && IsBlank(s.lessonNotes)
    ensures p.ErrorPanel? ==> p.message == s.notesError.value
    ensures p.NotesText? ==> |p.text| == |s.lessonNotes| && '*' !in p.text
    ensures p.NotesText? ==> forall i :: 0 <= i < |p.text| ==>
              p.text[i] == (if s.lessonNotes[i] == '*' then '-' else s.lessonNotes[i])
    ensures p.Placeholder? ==> p.text == NoNotesText
  {
    if s.isNotesLoading then LoadingPanel
    else if s.notesError.Some? then ErrorPanel(s.notesError.value)
    else if !IsBlank(s.lessonNotes) then NotesText(ReplaceChar(s.lessonNotes, '*', '-'))
    else Placeholder(NoNotesText)
  }

  /**
   * The two sections differ only in the notes text: they pick the same panel
   * for every state, and the AI section's text is the plain one with `*`
   * rewritten, which is the plain one itself when it holds no `*`.
   */
  lemma SectionsAgreeUpToBullets(s: LessonDetailUiState)
    ensures !SelectPanel(s).NotesText? ==> SelectAiNotesPanel(s) == SelectPanel(s)
    ensures SelectPanel(s).NotesText? ==>
      SelectAiNotesPanel(s) == NotesText(ReplaceChar(SelectPanel(s).text, '*', '-'))
    ensures '*' !in s.lessonNotes ==> SelectAiNotesPanel(s) == SelectPanel(s)
  {
    if '*' !in s.lessonNotes {
      ReplaceAbsent(s.lessonNotes, '*', '-');
    }
  }

  /** Rewriting `*` into `-` never makes non-blank notes look blank. */
  lemma {:induction false} AiNotesTextNotBlank(s: LessonDetailUiState)
    requires SelectAiNotesPanel(s).NotesText?
    ensures !IsBlank(SelectAiNotesPanel(s).text)
  {
    var t := SelectAiNotesPanel(s).text;
    var i :| 0 <= i < |s.lessonNotes| && !IsWhitespace(s.lessonNotes[i]);
    assert !IsWhitespace(t[i]);
  }
}
