# Artignment lessons and notes, modelled in Dafny

Artignment is an Android app for music lessons. Its core does four things:

- It fetches a list of lessons from a JSON endpoint and maps each record to a domain `Lesson`. The id is a random UUID and the description is built from the title and the mentor.
- It shows the list: a spinner, the lessons, or an error with a retry button.
- It opens a lesson and asks a generative model for lesson notes. Every failure of the model becomes a fixed template that names the lesson and its mentor.
- It runs a simulated upload of a practice file from a bottom sheet.

One Dafny module models each core Kotlin file:

| module | Kotlin file | form |
|---|---|---|
| `KotlinStd` | (Kotlin runtime) | nullable values, return-or-throw, `isWhitespace`, `isBlank`, `lowercase`, one-character `replace`, substring containment |
| `LessonModel`, `LessonDtos` | `domain/model/Lesson.kt`, `data/remote/dto/LessonDto.kt` | datatypes |
| `LessonMapper` | `data/mapper/LessonMapper.kt` | functions and lemmas |
| `LessonRepository` | `data/repository/LessonRepositoryImpl.kt` | functions and lemmas |
| `GeminiAiService` | `data/ai/GeminiAiService.kt` | functions and lemmas; the model call is a function parameter |
| `LessonsState`, `LessonDetailState` | `LessonsUiState.kt`, `LessonDetailUiState.kt` | datatypes |
| `LessonsViewModel` | `presentation/lessons/LessonsViewModel.kt` | class with a `uiState` field, plus transition functions |
| `LessonDetailViewModel` | `presentation/detail/LessonDetailViewModel.kt` | class with `uiState` and `uploadUiState` fields, plus transition functions and runs of events |
| `NotesSection` | both `LessonNotesSection.kt` files | panel selection functions |
| `NotesWorkflow` | (composition) | the notes feature end to end |

## How the view models are modelled

- Each `MutableStateFlow` is a field of the class. It holds an immutable record, and each method replaces that record the way the Kotlin `copy(...)` does.
- Every method is proved against a pure function that gives the new record. The lemmas are stated about those functions.
- A `viewModelScope.launch` splits into two steps. The begin step is the block's first write, which runs synchronously on the immediate main dispatcher. The complete step applies whatever the suspended call returned or threw.
- The two steps are separate methods (`StartNotes`/`CompleteNotes`, `BeginLoad`/`CompleteLoad`), so a completion can arrive after any other operation.
- `uploadFile()` is modelled as one method that runs the whole coroutine body. It returns the sequence of records it writes. The `Random.nextBoolean()` outcome is a parameter.
- The generative model's `generateContent` is a function parameter of type `string -> Outcome<Option<string>>`: it returns a nullable text or throws. `UUID.randomUUID()` results are parameters (`id`, `ids`), and so is the endpoint's response (`Outcome<LessonsResponseDto>`).

## Behaviours worth knowing

These follow the code as written, even where another behaviour might be expected.

- **Blank model responses.** One might expect a blank answer from the model to fall back to the template notes. The code substitutes the template only when `response.text` is null. A blank text is returned as is, and the notes section then shows its placeholder (`GeminiAiService.BlankNotesComeFromModel`, `NotesWorkflow.BlankModelTextShowsPlaceholder`).
- **Stale notes requests.** Nothing tags a notes request, so nothing discards an out-of-date answer. A completion for an older lesson overwrites the notes of the lesson now shown (`LessonDetailViewModel.StaleResultOverwrites`).
- **The notes error branch.** The view model handles a throwing notes use case and renders a null message as "null". That branch is dead in the app, because the service catches every exception. The model keeps the branch and proves the app never reaches it (`NotesCompleted`, `NotesWorkflow.ErrorPanelUnreachable`).
- **Names with line breaks.** Kotlin applies `trimIndent()` after the names are filled in, so the trimming also reaches into a mentor's name or a lesson title. A carriage return is rejoined as a plain line break. A line break followed by indentation can lower the common indent, and the name's continuation lines then lose their leading spaces. For such names the app's prompt and template notes need not contain the names verbatim. The model's texts, and the containment lemmas about them, describe names without line breaks.
- **The fallback text.** The source file stores the fallback text with mis-decoded UTF-8: its bullets are `â€¢`, its apostrophe is `â€™` and its closing emoji is `ðŸŽ¶`. The model keeps those characters as written.

## Model

| member | source | states |
|---|---|---|
| KotlinStd.Render | app/src/main/java/com/ayaan/artignment/presentation/detail/LessonDetailViewModel.kt:62 | a string template renders a present message as itself and a null message as "null" |
| KotlinStd.Lowercase | app/src/main/java/com/ayaan/artignment/data/mapper/LessonMapper.kt:14 | `lowercase()` keeps the length; each ASCII capital becomes its small letter and every other character is kept |
| KotlinStd.IsWhitespace | app/src/main/java/com/ayaan/artignment/presentation/detail/components/LessonNotesSection.kt:29 | the JVM whitespace set behind `isNotBlank()`: TAB to CR, FS to US, the space, every Unicode space separator including the no-break ones, and the line and paragraph separators |
| KotlinStd.IsBlank | app/src/main/java/com/ayaan/artignment/presentation/detail/components/notes/LessonNotesSection.kt:32 | a text is blank iff every character is whitespace (the empty text included); `NotBlankByFirst` and `AiNotesTextNotBlank` use it |
| KotlinStd.LowercaseIsLower | app/src/main/java/com/ayaan/artignment/data/mapper/LessonMapper.kt:14 | no ASCII capital is left after lower-casing, and lower-casing twice is lower-casing once |
| KotlinStd.ReplaceChar | app/src/main/java/com/ayaan/artignment/presentation/detail/components/notes/LessonNotesSection.kt:34 | `replace("*","-")` keeps the length, turns each `*` into `-`, keeps every other character, and leaves no `*` |
| KotlinStd.ReplaceAbsent | app/src/main/java/com/ayaan/artignment/presentation/detail/components/notes/LessonNotesSection.kt:34 | text without `*` is unchanged by the replacement |
| LessonMapper.Description | app/src/main/java/com/ayaan/artignment/data/mapper/LessonMapper.kt:14 | the description is "Learn ", then the lower-cased title, then " with ", then the mentor's name, and its length is 12 plus both lengths |
| LessonMapper.ToDomain | app/src/main/java/com/ayaan/artignment/data/mapper/LessonMapper.kt:7-16 | `toDomain()`; its partner lemmas `ToDomainCopiesFields`, `IdIsTheDrawnValue` and `ImageUrlIgnored` state which record field goes where and that the image URL is dropped |
| LessonMapper.ToDomainCopiesFields | app/src/main/java/com/ayaan/artignment/data/mapper/LessonMapper.kt:7-16 | title, mentor, thumbnail URL and video URL are copied from the record; the description comes from title and mentor only |
| LessonMapper.DescriptionNonEmpty | app/src/main/java/com/ayaan/artignment/data/mapper/LessonMapper.kt:14 | every mapped lesson has a non-empty description that starts with "Learn " and ends with the mentor's name |
| LessonMapper.IdIsTheDrawnValue | app/src/main/java/com/ayaan/artignment/data/mapper/LessonMapper.kt:9 | the id is the freshly drawn UUID, whatever the record holds |
| LessonMapper.ImageUrlIgnored | app/src/main/java/com/ayaan/artignment/data/mapper/LessonMapper.kt:7-16 | `lesson_image_url` is dropped: records that differ only there map to the same lesson |
| LessonRepository.MapToDomain | app/src/main/java/com/ayaan/artignment/data/repository/LessonRepositoryImpl.kt:17 | mapping the response gives one lesson per record, in order, each mapped with its own UUID |
| LessonRepository.MapToDomainAppend | app/src/main/java/com/ayaan/artignment/data/repository/LessonRepositoryImpl.kt:17 | mapping a concatenated list gives the concatenation of the mapped parts |
| LessonRepository.GetLessons | app/src/main/java/com/ayaan/artignment/data/repository/LessonRepositoryImpl.kt:15-18 | an exception from the endpoint reaches the caller unchanged; a response gives exactly its records, mapped in order |
| LessonRepository.EmptyResponse | app/src/main/java/com/ayaan/artignment/data/repository/LessonRepositoryImpl.kt:15-18 | an empty response gives an empty list |
| GeminiAiService.PromptEmbedsNames | app/src/main/java/com/ayaan/artignment/data/ai/GeminiAiService.kt:25-40 | the prompt contains the lesson title and the mentor's name |
| GeminiAiService.Prompt | app/src/main/java/com/ayaan/artignment/data/ai/GeminiAiService.kt:25-40 | the prompt after `trimIndent()`, with the title and the mentor filled in; `PromptEmbedsNames` proves both names appear in it |
| GeminiAiService.DefaultNotesEmbedNames | app/src/main/java/com/ayaan/artignment/data/ai/GeminiAiService.kt:54-85 | the fallback notes are not blank and contain the lesson title and the mentor's name |
| GeminiAiService.DefaultLessonNotes | app/src/main/java/com/ayaan/artignment/data/ai/GeminiAiService.kt:54-85 | `getDefaultLessonNotes` after `trimIndent()`, characters as stored in the source; `DefaultNotesEmbedNames` proves it non-blank and naming the title and the mentor |
| GeminiAiService.GenerateLessonNotes | app/src/main/java/com/ayaan/artignment/data/ai/GeminiAiService.kt:24-52 | a returned non-null text is the notes as is; a throw or a null text gives the fallback notes; the function never throws |
| GeminiAiService.FailureStillGivesNotes | app/src/main/java/com/ayaan/artignment/data/ai/GeminiAiService.kt:42-51 | when the model throws or returns no text, the notes are not blank and name the lesson and the mentor |
| GeminiAiService.BlankNotesComeFromModel | app/src/main/java/com/ayaan/artignment/data/ai/GeminiAiService.kt:45 | blank notes happen only when the model itself returned a blank text |
| LessonsViewModel.LoadResult | app/src/main/java/com/ayaan/artignment/presentation/lessons/LessonsViewModel.kt:28-35 | the load never ends in Loading; it is Success with exactly the returned lessons iff the use case returned, otherwise Error with the exception's message or "An unexpected error occurred" |
| LessonsViewModel.LoadFromRepository | app/src/main/java/com/ayaan/artignment/presentation/lessons/LessonsViewModel.kt:25-37 | after a fetch the list shows one lesson per record, with the drawn ids, titles and mentors, iff the endpoint answered; an error shows only for an endpoint failure, with its message |
| LessonsViewModel.LessonsViewModel.constructor | app/src/main/java/com/ayaan/artignment/presentation/lessons/LessonsViewModel.kt:18-23 | a new list controller shows Loading, and its `init` load has started |
| LessonsViewModel.LessonsViewModel.BeginLoad | app/src/main/java/com/ayaan/artignment/presentation/lessons/LessonsViewModel.kt:27 | starting a load shows Loading |
| LessonsViewModel.LessonsViewModel.CompleteLoad | app/src/main/java/com/ayaan/artignment/presentation/lessons/LessonsViewModel.kt:28-35 | finishing a load stores `LoadResult` of what the use case did |
| LessonsViewModel.LessonsViewModel.LoadLessons | app/src/main/java/com/ayaan/artignment/presentation/lessons/LessonsViewModel.kt:25-37 | an uninterrupted load writes Loading and then the result, whatever was shown before |
| LessonDetailViewModel.RequestFor | app/src/main/java/com/ayaan/artignment/presentation/detail/LessonDetailViewModel.kt:42 | a notes request asks for the lesson's own mentor and title |
| LessonDetailViewModel.WithLesson | app/src/main/java/com/ayaan/artignment/presentation/detail/LessonDetailViewModel.kt:36-40 | setting a lesson stores it, clears `isLoading` and `error`, and changes nothing else |
| LessonDetailViewModel.NotesStarted | app/src/main/java/com/ayaan/artignment/presentation/detail/LessonDetailViewModel.kt:47-50 | starting notes sets `isNotesLoading`, clears `notesError`, keeps the old notes and the lesson, and changes nothing else |
| LessonDetailViewModel.NotesCompleted | app/src/main/java/com/ayaan/artignment/presentation/detail/LessonDetailViewModel.kt:52-64 | a finished request clears `isNotesLoading`. Returned text replaces the notes and clears the error; a throw keeps the notes and sets "Failed to generate lesson notes: " plus the rendered message. Nothing else changes |
| LessonDetailViewModel.VideoToggled | app/src/main/java/com/ayaan/artignment/presentation/detail/LessonDetailViewModel.kt:74-78 | toggling flips `isVideoPlaying` and changes nothing else |
| LessonDetailViewModel.ToggleTwiceRestores | app/src/main/java/com/ayaan/artignment/presentation/detail/LessonDetailViewModel.kt:74-78 | toggling twice restores the state |
| LessonDetailViewModel.SheetShown | app/src/main/java/com/ayaan/artignment/presentation/detail/LessonDetailViewModel.kt:80-85 | showing the sheet makes it visible and Idle and keeps the chosen file |
| LessonDetailViewModel.SheetHidden | app/src/main/java/com/ayaan/artignment/presentation/detail/LessonDetailViewModel.kt:87-94 | hiding the sheet returns the upload state to its initial value |
| LessonDetailViewModel.FileChosen | app/src/main/java/com/ayaan/artignment/presentation/detail/LessonDetailViewModel.kt:100-105 | choosing a file stores its URI and name and keeps the upload state and the sheet's visibility |
| LessonDetailViewModel.ProgressionShape | app/src/main/java/com/ayaan/artignment/presentation/detail/LessonDetailViewModel.kt:112 | `first..last step s` lies within [first, last], strictly increases, starts at `first` when not empty, and is empty iff first > last |
| LessonDetailViewModel.Progression | app/src/main/java/com/ayaan/artignment/presentation/detail/LessonDetailViewModel.kt:112 | the Kotlin progression `first..last step s`; `ProgressionShape` and `UploadTicks` state its range, order and, for the upload, its exact values |
| LessonDetailViewModel.UploadTicks | app/src/main/java/com/ayaan/artignment/presentation/detail/LessonDetailViewModel.kt:112 | the upload loop visits 0, 10, ..., 100 |
| LessonDetailViewModel.ProgressWrites | app/src/main/java/com/ayaan/artignment/presentation/detail/LessonDetailViewModel.kt:112-117 | the loop writes one InProgress record per value, in order, with all other upload fields unchanged |
| LessonDetailViewModel.UploadTraceShape | app/src/main/java/com/ayaan/artignment/presentation/detail/LessonDetailViewModel.kt:107-131 | an upload starts at progress 0 and its progress stays in [0, 100] and never decreases. The sheet and the chosen file stay put until the last write. Success ends in the initial upload state right after a Success record; failure ends on "Upload failed. Please try again." |
| LessonDetailViewModel.UploadTrace | app/src/main/java/com/ayaan/artignment/presentation/detail/LessonDetailViewModel.kt:107-131 | every record `uploadFile()` writes, in order; `UploadTraceShape` states its shape and `UploadFile` is proved to write exactly it |
| LessonDetailViewModel.UploadEnding | app/src/main/java/com/ayaan/artignment/presentation/detail/LessonDetailViewModel.kt:119-129 | the records written after the loop; `UploadTraceShape` states that success ends with Success and then the initial state, and failure ends on the message. `FinishUpload` is proved to write exactly these records |
| LessonDetailViewModel.RunKeepsScreenClean | app/src/main/java/com/ayaan/artignment/presentation/detail/LessonDetailViewModel.kt:35-78 | no sequence of detail-screen operations sets `isLoading` or `error` |
| LessonDetailViewModel.Step | app/src/main/java/com/ayaan/artignment/presentation/detail/LessonDetailViewModel.kt:35-78 | one detail-screen operation (set lesson, retry, notes result, toggle video) as the record it leaves; each case applies the same transition function that the matching class method is proved to write |
| LessonDetailViewModel.Run | app/src/main/java/com/ayaan/artignment/presentation/detail/LessonDetailViewModel.kt:23-78 | the record after a sequence of operations from a given one; the invariant lemmas `RunKeepsScreenClean`, `ReachableStatesAreClean`, `NoNotesErrorWithoutExceptions` and `StaleResultOverwrites` are stated over it |
| LessonDetailViewModel.ReachableStatesAreClean | app/src/main/java/com/ayaan/artignment/presentation/detail/LessonDetailViewModel.kt:23 | from the initial record, `isLoading` stays false and `error` stays null |
| LessonDetailViewModel.NoNotesErrorWithoutExceptions | app/src/main/java/com/ayaan/artignment/presentation/detail/LessonDetailViewModel.kt:52-64 | if the notes use case never throws, `notesError` is never set |
| LessonDetailViewModel.StaleResultOverwrites | app/src/main/java/com/ayaan/artignment/presentation/detail/LessonDetailViewModel.kt:45-66 | when lesson b replaces lesson a and a's result arrives last, the screen shows b with a's notes |
| LessonDetailViewModel.LessonDetailViewModel.constructor | app/src/main/java/com/ayaan/artignment/presentation/detail/LessonDetailViewModel.kt:23-27 | both records start at their defaults |
| LessonDetailViewModel.LessonDetailViewModel.SetLesson | app/src/main/java/com/ayaan/artignment/presentation/detail/LessonDetailViewModel.kt:35-43 | `setLesson` stores the lesson, starts notes for its mentor and title, and leaves the upload state alone |
| LessonDetailViewModel.LessonDetailViewModel.StartNotes | app/src/main/java/com/ayaan/artignment/presentation/detail/LessonDetailViewModel.kt:45-50 | the synchronous start of notes generation writes `NotesStarted` and issues the request |
| LessonDetailViewModel.LessonDetailViewModel.CompleteNotes | app/src/main/java/com/ayaan/artignment/presentation/detail/LessonDetailViewModel.kt:52-64 | the rest of the coroutine writes `NotesCompleted` |
| LessonDetailViewModel.LessonDetailViewModel.RetryGenerateNotes | app/src/main/java/com/ayaan/artignment/presentation/detail/LessonDetailViewModel.kt:68-72 | retrying without a lesson does nothing; with one, it restarts notes for that lesson |
| LessonDetailViewModel.LessonDetailViewModel.ToggleVideoPlayback | app/src/main/java/com/ayaan/artignment/presentation/detail/LessonDetailViewModel.kt:74-78 | writes `VideoToggled` |
| LessonDetailViewModel.LessonDetailViewModel.ShowSubmitBottomSheet | app/src/main/java/com/ayaan/artignment/presentation/detail/LessonDetailViewModel.kt:80-85 | writes `SheetShown` |
| LessonDetailViewModel.LessonDetailViewModel.HideSubmitBottomSheet | app/src/main/java/com/ayaan/artignment/presentation/detail/LessonDetailViewModel.kt:87-94 | writes `SheetHidden` |
| LessonDetailViewModel.LessonDetailViewModel.OnFileSelected | app/src/main/java/com/ayaan/artignment/presentation/detail/LessonDetailViewModel.kt:100-105 | writes `FileChosen` |
| LessonDetailViewModel.LessonDetailViewModel.UploadFile | app/src/main/java/com/ayaan/artignment/presentation/detail/LessonDetailViewModel.kt:107-131 | the records the upload writes are exactly `UploadTrace`, the last one is the final state, and the detail record is untouched |
| LessonDetailViewModel.LessonDetailViewModel.ReportProgress | app/src/main/java/com/ayaan/artignment/presentation/detail/LessonDetailViewModel.kt:112-117 | the progress loop writes exactly `ProgressWrites` of the progression; the record left in place is the last one written, or the old record when the progression is empty; only the upload status changes |
| LessonDetailViewModel.LessonDetailViewModel.FinishUpload | app/src/main/java/com/ayaan/artignment/presentation/detail/LessonDetailViewModel.kt:119-129 | after the loop, success writes Success and then hides the sheet; failure writes "Upload failed. Please try again."; the last record written is the final state |
| LessonDetailViewModel.LessonDetailViewModel.RetryUpload | app/src/main/java/com/ayaan/artignment/presentation/detail/LessonDetailViewModel.kt:133-135 | retrying runs the same upload again |
| NotesSection.SelectPanel | app/src/main/java/com/ayaan/artignment/presentation/detail/components/LessonNotesSection.kt:17-46 | spinner iff loading; error iff not loading and an error is stored; notes verbatim iff no error and not blank; placeholder otherwise |
| NotesSection.SelectAiNotesPanel | app/src/main/java/com/ayaan/artignment/presentation/detail/components/notes/LessonNotesSection.kt:20-49 | the same four conditions; the notes panel shows the notes with every `*` turned into `-`, and never shows a `*` |
| NotesSection.SectionsAgreeUpToBullets | app/src/main/java/com/ayaan/artignment/presentation/detail/components/notes/LessonNotesSection.kt:32-38 | both sections pick the same panel; they differ only by the `*` rewrite of the notes, and not at all when there is no `*` |
| NotesSection.AiNotesTextNotBlank | app/src/main/java/com/ayaan/artignment/presentation/detail/components/notes/LessonNotesSection.kt:32-38 | the rewritten notes are still not blank |
| NotesWorkflow.FailedModelShowsTemplateNotes | app/src/main/java/com/ayaan/artignment/data/ai/GeminiAiService.kt:42-51 | when the model fails, opening a lesson ends with the template notes on screen, naming the lesson's title and mentor |
| NotesWorkflow.BlankModelTextShowsPlaceholder | app/src/main/java/com/ayaan/artignment/presentation/detail/components/LessonNotesSection.kt:29-45 | a blank model answer shows the placeholder in both sections |
| NotesWorkflow.NotesShownUnlessBlank | app/src/main/java/com/ayaan/artignment/data/ai/GeminiAiService.kt:45 | the notes panel shows iff the model did not answer with a blank text |
| NotesWorkflow.ErrorPanelUnreachable | app/src/main/java/com/ayaan/artignment/presentation/detail/LessonDetailViewModel.kt:59-64 | while every notes result comes from the service, which never throws, neither section ever shows the error panel |

## Left out

- Prompt and fallback texts: Kotlin's `trimIndent()` is not modelled in general. The texts are written as they are after trimming, which is exact when the mentor's name and the lesson title contain no line break.
- GeminiAiService.Prompt: it is the text after `trimIndent()` only for names without line breaks. For a name holding a carriage return, or a line break followed by indentation, the app's trimming alters the name inside the prompt, and the model does not reproduce that.
- GeminiAiService.DefaultLessonNotes: likewise, it equals the app's fallback only for names without line breaks.
- GeminiAiService.PromptEmbedsNames: the containment is proved of the modelled text, for all names. In the app, a name with a carriage return, or with a line break followed by indentation, is altered by `trimIndent()` and need not appear verbatim.
- GeminiAiService.DefaultNotesEmbedNames: the same limit as `PromptEmbedsNames`, for the fallback notes.
- GeminiAiService.FailureStillGivesNotes: its non-blankness holds in the app as well. Its containment of both names holds there only for names without line breaks, as for `DefaultNotesEmbedNames`.
- NotesWorkflow.FailedModelShowsTemplateNotes: the same limit on the names shown in the template notes.
- KotlinStd.Lowercase: only ASCII letters are lowered; Kotlin's full Unicode `lowercase()` is not modelled.
- The random UUIDs, `Random.nextBoolean()`, the HTTP call and the model call are parameters, not implementations.
- Retrofit, Moshi decoding, the Hilt wiring and the two use cases are not modelled. The use cases only forward to the repository and the service, and the model treats them that way.
- The model's configuration is not modelled: its name, API key and generation settings (temperature, top-k, top-p and the token limit) only influence what the model returns.
- The `Log` calls and `printStackTrace` have no effect on state and are left out.
- The upload coroutine: its `delay` calls, and other operations landing during those delays, are not modelled. An upload is one uninterrupted run.
- `StateFlow` conflation and collection, and Compose rendering, are not modelled. The notes sections are modelled only as the choice of panel and its text.
- `selectFile()` and `setFilePickerCallback` only invoke a UI callback and are left out.
