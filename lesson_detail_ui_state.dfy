/** The state records of the lesson-detail screen (presentation/detail/LessonDetailUiState.kt). */
module LessonDetailState {
  import opened KotlinStd
  import opened LessonModel

  /** Everything the detail screen shows about the lesson, its video and its notes. */
  datatype LessonDetailUiState = LessonDetailUiState(
    lesson: Option<Lesson>,
    isLoading: bool,
    error: Option<string>,
    isVideoPlaying: bool,
    lessonNotes: string,
    isNotesLoading: bool,
    notesError: Option<string>
  )

  /** `LessonDetailUiState()`: every parameter at its declared default. */
  const InitialDetailState: LessonDetailUiState := LessonDetailUiState(
    lesson := None,
    isLoading := false,
    error := None,
    isVideoPlaying := false,
    lessonNotes := "",
    isNotesLoading := false,
    notesError := None
  )

  /** The phase of the simulated practice upload: exactly one of four. */
  datatype UploadState = Idle | InProgress(progress: int) | Success | Error(message: string)

  /** An Android `Uri`: the model only stores and compares it. */
  datatype Uri = Uri(text: string)

  /** The state of the submit-practice bottom sheet. */
  datatype UploadUiState = UploadUiState(
    uploadState: UploadState,
    selectedFileName: Option<string>,
    selectedFileUri: Option<Uri>,
    isBottomSheetVisible: bool
  )

  /** `UploadUiState()`: idle, no file chosen, sheet hidden. */
  const InitialUploadState: UploadUiState := UploadUiState(
    uploadState := Idle,
    selectedFileName := None,
    selectedFileUri := None,
    isBottomSheetVisible := false
  )
}
