/**
 * What the lesson list screen shows: a spinner, the lessons, or an error
 * message with a retry button.
 */
module LessonsState {
  import opened LessonModel

  datatype LessonsUiState =
    | Loading
    | Success(lessons: seq<Lesson>)
    | Error(message: string)
}
