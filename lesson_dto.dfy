/**
 * The JSON records of the lesson listing endpoint (data/remote/dto/LessonDto.kt).
 * Field names are the JSON keys the records are decoded from.
 */
module LessonDtos {

  /** One lesson as the endpoint sends it. */
  datatype LessonDto = LessonDto(
    mentor_name: string,
    lesson_title: string,
    video_thumbnail_url: string,
    lesson_image_url: string,
    video_url: string
  )

  /** The whole response body: `{ "lessons": [ ... ] }`. */
  datatype LessonsResponseDto = LessonsResponseDto(lessons: seq<LessonDto>)
}
