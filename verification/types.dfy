/**
 * The application's data shapes (src/types.ts) and the errors the services raise.
 * The source's `type` fields are called `kind` here, since `type` is a Dafny keyword.
 */
module Types {

  datatype Explanation = Explanation(correct: string, keyPoint: string)

  /** A multiple-choice question as handed to the caller. */
  datatype Question = Question(
    text: string,
    options: seq<string>,
    correctAnswer: int,
    explanation: Explanation,
    difficulty: int,
    topic: string,
    subtopic: string,
    questionType: string,
    ageGroup: string)

  /** A related topic after renaming the provider's `name` to `topic`. */
  datatype RelatedTopic = RelatedTopic(topic: string, kind: string, reason: string)

  /** A related question after renaming the provider's `text` to `question`. */
  datatype RelatedQuestion = RelatedQuestion(question: string, kind: string, context: string)

  datatype ExploreResponse = ExploreResponse(
    content: string,
    relatedTopics: seq<RelatedTopic>,
    relatedQuestions: seq<RelatedQuestion>)

  /** The failures of the generation layer. */
  datatype GenError =
    | ProviderFailure     // makeRequest: "Failed to generate content"
    | NoJsonFound         // "No valid JSON found in response"
    | InvalidJson         // the SyntaxError thrown by JSON.parse
    | MalformedResponse   // a TypeError while reading the parsed value
    | ExploreFailed       // getExploreContent: "Failed to generate explore content"
}
