/** The domain entity shown by both screens (domain/model/Lesson.kt). */
module LessonModel {

  /** A tutorial lesson; `id` is generated on the client when the lesson is mapped. */
  datatype Lesson = Lesson(
    id: string,
    title: string,
    mentor: string,
    thumbnailUrl: string,
    videoUrl: string,
    description: string
  )
}
