/**
 * The lesson-notes client (data/ai/GeminiAiService.kt): it builds a prompt from
 * the mentor and the title, asks the generative model for text, and falls back to
 * a canned text when the call throws or the response carries no text.
 */
module GeminiAiService {
  import opened KotlinStd

  /**
   * What `generativeModel.generateContent(prompt)` did, seen through
   * `response.text`: it threw, or it returned a response whose text is nullable.
   */
  type ModelResponse = Outcome<Option<string>>

  /**
   * The prompt sent to the model: the raw-string template with the title and the
   * mentor interpolated, after `trimIndent()` (common indentation, the leading
   * blank line and the trailing blank line removed).
   */
  function Prompt(mentorName: string, lessonTitle: string): string {
    PromptOpening + lessonTitle + PromptAfterTitle(mentorName)
  }

  /** The prompt up to the title. */
  const PromptOpening: string := "Generate comprehensive lesson notes for a tutorial lesson titled \""

  /** The prompt after the title. */
  function PromptAfterTitle(mentorName: string): string {
    "\" taught by " + mentorName + PromptInstructions
  }

  /** The prompt after the mentor's name: the fixed instructions. */
  const PromptInstructions: string := @".

Please create 10-15 lines of educational content organized in 2-3 paragraphs with the following structure:
- Introduction paragraph explaining the topic
- 1 main concept paragraphs with bullet points and detailed explanations
- Conclusion paragraph with practical tips and next steps in points

Make the content educational, engaging, and suitable for beginners to intermediate learners.
Include specific examples and practical applications where relevant.
Give simple texts, avoid any markdown or HTML formatting, and do not use any code blocks.
Format the response as plain text with clear paragraph breaks and bullet points.
Do not add any personal opinions or subjective statements.
Ensure the content is original and not copied from any source.
The content should be informative, concise, and easy to understand."

  /** The prompt names the lesson's title and its mentor. */
  lemma {:induction false} PromptEmbedsNames(mentorName: string, lessonTitle: string)
    ensures Contains(Prompt(mentorName, lessonTitle), lessonTitle)
    ensures Contains(Prompt(mentorName, lessonTitle), mentorName)
  {
    ContainsInfix(PromptOpening, lessonTitle, PromptAfterTitle(mentorName));
    ContainsInfix("\" taught by ", mentorName, PromptInstructions);
    ContainsAfter(PromptOpening + lessonTitle, PromptAfterTitle(mentorName), mentorName);
  }

  /**
   * `getDefaultLessonNotes(mentorName, lessonTitle)`: the canned notes, after
   * `trimIndent()`. The title appears once, the mentor three times. The
   * apostrophe of "Let's" and the closing emoji are spelled as the source file
   * holds them ("â€™", "ðŸŽ¶").
   */
  function DefaultLessonNotes(mentorName: string, lessonTitle: string): string {
    FallbackOpening + lessonTitle + FallbackAfterTitle(mentorName)
  }

  /** The canned notes up to the title. */
  const FallbackOpening: string := "Welcome to this engaging music lesson on "

  /** The canned notes after the title. */
  function FallbackAfterTitle(mentorName: string): string {
    " with " + mentorName + FallbackAfterMentor(mentorName)
  }

  /** The canned notes after the mentor's first mention. */
  function FallbackAfterMentor(mentorName: string): string {
    FallbackSession + mentorName + FallbackMiddle + mentorName + FallbackTail
  }

  /** From the end of the greeting line to the mentor's second mention (a line keeps its trailing space). */
  const FallbackSession: string := @"!

In this session, we will dive into the essential concepts and practical skills needed to understand and enjoy music. 
"

  /**
   * The canned notes between the mentor's second and third mention. Each
   * bullet is the three characters "â€¢" that the source file holds: the
   * UTF-8 bytes of U+2022 read as Windows-1252.
   */
  const FallbackMiddle: string := @" will guide you through each topic, sharing expertise and passion for music education.

Lesson Structure:
â€¢ Introduction to the main theme and its relevance in music
â€¢ Key musical concepts explained with clear examples
â€¢ Step-by-step breakdowns of techniques or theory
â€¢ Practical exercises and listening activities
â€¢ Tips for practice and further exploration

Throughout the lesson, you will:
â€¢ Learn foundational music theory and terminology
â€¢ Explore real-world applications, such as composing or performing
â€¢ Practice with hands-on activities to reinforce your understanding
â€¢ Discover how to listen actively and analyze musical pieces

Best Practices for Music Learning:
â€¢ Listen to a variety of music styles and genres
â€¢ Practice regularly, even in short sessions
â€¢ Record yourself to track progress and identify areas for improvement
â€¢ Collaborate with others or join a music community
â€¢ Stay curious and open to new musical experiences

Remember, learning music is a journey that combines creativity, discipline, and enjoyment. "

  /** The canned notes after the mentor's last mention. */
  const FallbackTail: string := @" is here to support you every step of the way. Take your time, have fun, and let the music inspire you!

Ready to start? Letâ€™s make some music together! ðŸŽ¶"

  /**
   * The canned notes are never blank (they open with "Welcome") and carry the
   * lesson's title and its mentor's name verbatim.
   */
  lemma {:induction false} DefaultNotesEmbedNames(mentorName: string, lessonTitle: string)
    ensures !IsBlank(DefaultLessonNotes(mentorName, lessonTitle))
    ensures Contains(DefaultLessonNotes(mentorName, lessonTitle), lessonTitle)
    ensures Contains(DefaultLessonNotes(mentorName, lessonTitle), mentorName)
  {
    var notes := DefaultLessonNotes(mentorName, lessonTitle);
    assert notes[0] == FallbackOpening[0] == 'W';
    NotBlankByFirst(notes);
    ContainsInfix(FallbackOpening, lessonTitle, FallbackAfterTitle(mentorName));
    ContainsInfix(" with ", mentorName, FallbackAfterMentor(mentorName));
    ContainsAfter(FallbackOpening + lessonTitle, FallbackAfterTitle(mentorName), mentorName);
  }

  /**
   * `generateLessonNotes(mentorName, lessonTitle)`. `generateContent` stands for
   * the model call; it is asked about `Prompt(mentorName, lessonTitle)`. The call
   * never throws to its caller: an exception, or a response whose text is null,
   * gives the canned notes; any text the model returns, even an empty or blank
   * one, is returned as it is.
   */
  function GenerateLessonNotes(mentorName: string, lessonTitle: string,
                               generateContent: string -> ModelResponse): (notes: string)
    ensures generateContent(Prompt(mentorName, lessonTitle)).Returned?
         && generateContent(Prompt(mentorName, lessonTitle)).value.Some?
         ==> notes == generateContent(Prompt(mentorName, lessonTitle)).value.value
    ensures generateContent(Prompt(mentorName, lessonTitle)).Threw?
         || generateContent(Prompt(mentorName, lessonTitle)).value.None?
         ==> notes == DefaultLessonNotes(mentorName, lessonTitle)
  {
    var response := generateContent(Prompt(mentorName, lessonTitle));
    if response.Returned? && response.value.Some? then response.value.value
    else DefaultLessonNotes(mentorName, lessonTitle)
  }

  /**
   * Whenever the model fails to give text, the notes are not blank and name the
   * lesson's title and mentor.
   */
  lemma FailureStillGivesNotes(mentorName: string, lessonTitle: string,
                               generateContent: string -> ModelResponse)
    requires generateContent(Prompt(mentorName, lessonTitle)).Threw?
          || generateContent(Prompt(mentorName, lessonTitle)).value.None?
    ensures !IsBlank(GenerateLessonNotes(mentorName, lessonTitle, generateContent))
    ensures Contains(GenerateLessonNotes(mentorName, lessonTitle, generateContent), lessonTitle)
    ensures Contains(GenerateLessonNotes(mentorName, lessonTitle, generateContent), mentorName)
  {
    DefaultNotesEmbedNames(mentorName, lessonTitle);
  }

  /** Blank notes come only from a model that itself answered with blank text. */
  lemma BlankNotesComeFromModel(mentorName: string, lessonTitle: string,
                                generateContent: string -> ModelResponse)
    requires IsBlank(GenerateLessonNotes(mentorName, lessonTitle, generateContent))
    ensures generateContent(Prompt(mentorName, lessonTitle)).Returned?
    ensures generateContent(Prompt(mentorName, lessonTitle)).value.Some?
    ensures IsBlank(generateContent(Prompt(mentorName, lessonTitle)).value.value)
  {
    DefaultNotesEmbedNames(mentorName, lessonTitle);
  }
}
