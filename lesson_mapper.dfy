/** Mapping of an endpoint record to the domain entity (data/mapper/LessonMapper.kt). */
module LessonMapper {
  import opened KotlinStd
  import opened LessonModel
  import opened LessonDtos

  /**
   * The description synthesised for every lesson: "Learn <title in lower case>
   * with <mentor>". It is never empty, starts with "Learn ", carries the
   * lower-cased title right after that prefix and ends with the mentor's name.
   */
  function Description(title: string, mentor: string): (d: string)
    ensures |d| == 12 + |title| + |mentor|
    ensures d[..6] == "Learn "
    ensures d[6..6 + |title|] == Lowercase(title)
    ensures d[6 + |title|..12 + |title|] == " with "
    ensures d[|d| - |mentor|..] == mentor
  {
    "Learn " + Lowercase(title) + " with " + mentor
  }

  /**
   * `LessonDto.toDomain()`. `id` is the `UUID.randomUUID().toString()` drawn at
   * this call, passed in because it is random.
   */
  function ToDomain(dto: LessonDto, id: string): Lesson {
    Lesson(
      id := id,
      title := dto.lesson_title,
      mentor := dto.mentor_name,
      thumbnailUrl := dto.video_thumbnail_url,
      videoUrl := dto.video_url,
      description := Description(dto.lesson_title, dto.mentor_name)
    )
  }

  /**
   * Title, mentor and both URLs are copied verbatim, and the description is
   * built from the title and the mentor alone.
   */
  lemma ToDomainCopiesFields(dto: LessonDto, id: string)
    ensures ToDomain(dto, id).title == dto.lesson_title
    ensures ToDomain(dto, id).mentor == dto.mentor_name
    ensures ToDomain(dto, id).thumbnailUrl == dto.video_thumbnail_url
    ensures ToDomain(dto, id).videoUrl == dto.video_url
    ensures ToDomain(dto, id).description == Description(dto.lesson_title, dto.mentor_name)
  {
  }

  /** The description is never empty, starts with "Learn " and ends with the mentor's name. */
  lemma DescriptionNonEmpty(dto: LessonDto, id: string)
    ensures |ToDomain(dto, id).description| > 0
    ensures ToDomain(dto, id).description[..6] == "Learn "
    ensures ToDomain(dto, id).description[|ToDomain(dto, id).description| - |dto.mentor_name|..] == dto.mentor_name
  {
  }

  /** The id is the drawn value and nothing else: no record field influences it. */
  lemma IdIsTheDrawnValue(dto: LessonDto, other: LessonDto, id: string)
    ensures ToDomain(dto, id).id == id == ToDomain(other, id).id
  {
  }

  /** `lesson_image_url` is dropped: records differing only there map to the same lesson. */
  lemma ImageUrlIgnored(a: LessonDto, b: LessonDto, id: string)
    requires a.(lesson_image_url := b.lesson_image_url) == b
    ensures ToDomain(a, id) == ToDomain(b, id)
  {
  }
}
