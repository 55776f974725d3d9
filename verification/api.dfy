/**
 * The `api` facade: each operation first asks the shared rate limiter, then calls
 * the generator, then wraps the result; any generator failure is replaced by one
 * fixed error per operation.
 *
 * The generator's reply is a parameter (`None` when the provider call fails), and
 * `generatorCalls` counts the calls made to the generator.
 */
module Api {
  import opened Wrappers
  import opened Json
  import opened Types
  import opened Normalizer
  import opened Playground
  import opened RateLimit

  /** The errors the facade raises. */
  datatype ApiError =
    | RateLimitExceeded          // "Rate limit exceeded. Please try again later."
    | FailedToGenerateQuestion   // "Failed to generate question"
    | FailedToExploreTopic       // "Failed to explore topic"

  /** `transformQuestion`: every field copied; `subtopic || ""` leaves a string as it
      is, and an empty `questionType` becomes "conceptual". */
  function TransformQuestion(raw: Question): (r: Question)
    ensures r.questionType != ""
    ensures raw.questionType != "" ==> r == raw
    ensures raw.questionType == "" ==> r == raw.(questionType := "conceptual")
  {
    raw.(subtopic := if raw.subtopic != "" then raw.subtopic else "",
         questionType := if raw.questionType != "" then raw.questionType else "conceptual")
  }

  /** `questions.map(transformQuestion)`. */
  function TransformAll(qs: seq<Question>): (r: seq<Question>)
    ensures |r| == |qs| && forall k :: 0 <= k < |qs| ==> r[k] == TransformQuestion(qs[k])
  {
    seq(|qs|, k requires 0 <= k < |qs| => TransformQuestion(qs[k]))
  }

  /** Transforming twice is transforming once. */
  lemma TransformIdempotent(q: Question)
    ensures TransformQuestion(TransformQuestion(q)) == TransformQuestion(q)
  {
  }

  /** The generator already sets `questionType`, so on its questions the transform
      changes nothing. */
  lemma TransformKeepsGenerated(reply: Option<string>, topic: string, level: int, age: int,
                                parse: Parser, pick: Picker)
    requires ValidPicker(pick)
    ensures var r := PlaygroundQuestions(reply, topic, level, age, parse, pick);
      r.Success? ==> TransformAll(r.value) == r.value
  {
    PlaygroundFields(reply, topic, level, age, parse, pick);
  }

  class Facade {
    /** The limiter shared by every operation. */
    const limiter: RateLimiter
    ghost var generatorCalls: nat

    constructor (limiter: RateLimiter)
      ensures this.limiter == limiter && generatorCalls == 0
    {
      this.limiter := limiter;
      generatorCalls := 0;
    }

    /** `api.getQuestion(topic, level, {age})` at time `now`. */
    method GetQuestion(topic: string, level: int, age: int, now: int,
                       reply: Option<string>, parse: Parser, pick: Picker)
      returns (r: Result<seq<Question>, ApiError>)
      requires ValidPicker(pick)
      modifies this, limiter
      ensures var o := Check(old(limiter.State()), now);
        limiter.State() == o.next &&
        (o.admitted ==> limiter.storage == Saved(old(limiter.storage), o.next)) &&
        (!o.admitted ==> limiter.storage == old(limiter.storage))
      ensures !Check(old(limiter.State()), now).admitted ==>
        r == Failure(RateLimitExceeded) && generatorCalls == old(generatorCalls)
      ensures Check(old(limiter.State()), now).admitted ==>
        generatorCalls == old(generatorCalls) + 1 &&
        match PlaygroundQuestions(reply, topic, level, age, parse, pick)
        case Success(qs) => r == Success(qs)
        case Failure(_) => r == Failure(FailedToGenerateQuestion)
    {
      var ok := limiter.CheckLimit(now);
      if !ok {
        return Failure(RateLimitExceeded);
      }
      generatorCalls := generatorCalls + 1;
      var questions := PlaygroundQuestions(reply, topic, level, age, parse, pick);
      TransformKeepsGenerated(reply, topic, level, age, parse, pick);
      match questions
      case Success(qs) => r := Success(TransformAll(qs));
      case Failure(_) => r := Failure(FailedToGenerateQuestion);
    }

    /** `api.explore(query, {age})` at time `now`. */
    method Explore(now: int, reply: Option<string>, parse: Parser)
      returns (r: Result<ExploreResponse, ApiError>)
      modifies this, limiter
      ensures var o := Check(old(limiter.State()), now);
        limiter.State() == o.next &&
        (o.admitted ==> limiter.storage == Saved(old(limiter.storage), o.next)) &&
        (!o.admitted ==> limiter.storage == old(limiter.storage))
      ensures !Check(old(limiter.State()), now).admitted ==>
        r == Failure(RateLimitExceeded) && generatorCalls == old(generatorCalls)
      ensures Check(old(limiter.State()), now).admitted ==>
        generatorCalls == old(generatorCalls) + 1 &&
        match GetExploreContent(reply, parse)
        case Success(e) => r == Success(e)
        case Failure(_) => r == Failure(FailedToExploreTopic)
    {
      var ok := limiter.CheckLimit(now);
      if !ok {
        return Failure(RateLimitExceeded);
      }
      generatorCalls := generatorCalls + 1;
      match GetExploreContent(reply, parse)
      case Success(e) => r := Success(e);
      case Failure(_) => r := Failure(FailedToExploreTopic);
    }
  }
}
