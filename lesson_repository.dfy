/** The repository that fetches and maps lessons (data/repository/LessonRepositoryImpl.kt). */
module LessonRepository {
  import opened KotlinStd
  import opened LessonModel
  import opened LessonDtos
  import opened LessonMapper

  /**
   * `lessons.map { it.toDomain() }`; `ids[i]` is the UUID drawn while mapping the
   * i-th record. The result has one lesson per record, in the records' order.
   */
  function MapToDomain(dtos: seq<LessonDto>, ids: seq<string>): (lessons: seq<Lesson>)
    requires |ids| == |dtos|
    ensures |lessons| == |dtos|
    ensures forall i :: 0 <= i < |dtos| ==> lessons[i] == ToDomain(dtos[i], ids[i])
  {
    if dtos == [] then [] else [ToDomain(dtos[0], ids[0])] + MapToDomain(dtos[1..], ids[1..])
  }

  /** Mapping distributes over concatenation: mapping a list in two parts gives the same lessons. */
  lemma {:induction false} MapToDomainAppend(a: seq<LessonDto>, b: seq<LessonDto>, ia: seq<string>, ib: seq<string>)
    requires |ia| == |a| && |ib| == |b|
    ensures MapToDomain(a + b, ia + ib) == MapToDomain(a, ia) + MapToDomain(b, ib)
  {
    if a != [] {
      assert (a + b)[1..] == a[1..] + b;
      assert (ia + ib)[1..] == ia[1..] + ib;
      MapToDomainAppend(a[1..], b, ia[1..], ib);
    }
  }

  /**
   * `LessonRepositoryImpl.getLessons()`: `api` is what `apiService.getLessons()`
   * did. A thrown exception is not caught and reaches the caller unchanged; a
   * response becomes its lessons, mapped one by one in order.
   */
  function GetLessons(api: Outcome<LessonsResponseDto>, ids: seq<string>): (r: Outcome<seq<Lesson>>)
    requires api.Returned? ==> |ids| == |api.value.lessons|
    ensures api.Threw? ==> r == Threw(api.message)
    ensures api.Returned? ==> r.Returned? && |r.value| == |api.value.lessons|
    ensures api.Returned? ==>
      forall i :: 0 <= i < |r.value| ==> r.value[i] == ToDomain(api.value.lessons[i], ids[i])
  {
    match api
    case Threw(m) => Threw(m)
    case Returned(response) => Returned(MapToDomain(response.lessons, ids))
  }

  /** An empty response gives an empty list. */
  lemma EmptyResponse()
    ensures GetLessons(Returned(LessonsResponseDto([])), []) == Returned([])
  {
  }
}
