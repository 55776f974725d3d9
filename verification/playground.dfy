/**
 * `GPTService.getPlaygroundQuestion` from the provider's reply on: trim the text,
 * take the greedy `{...}` span, parse it, convert every entry of `questions` and
 * shuffle each converted question's options.
 *
 * The provider call is a parameter (`None` when `makeRequest` throws), `JSON.parse`
 * is the `parse` oracle and `Math.random` is the `pick` function: `pick(k, i)` is
 * the draw made at step `i` of the shuffle of question `k`.
 */
module Playground {
  import opened Wrappers
  import opened Json
  import opened JsStrings
  import opened Types
  import opened Shuffle
  import opened Normalizer

  type Picker = (nat, nat) -> nat

  /** `Math.floor(Math.random() * (i + 1))` lies in `[0, i]`. */
  ghost predicate ValidPicker(pick: Picker) {
    forall k: nat, i: nat :: pick(k, i) <= i
  }

  /** The draws of the shuffle of question `k`, which has `n` options. */
  function Draws(pick: Picker, k: nat, n: nat): (js: seq<nat>)
    requires ValidPicker(pick)
    ensures ValidDraws(js, n)
    ensures forall i :: 0 <= i < n ==> js[i] == pick(k, i)
  {
    seq(n, i requires 0 <= i < n => pick(k, i))
  }

  /** `JSON.parse(jsonString)`, which throws a SyntaxError on text that is not JSON. */
  function ParseSpan(span: string, parse: Parser): (r: Result<Json, GenError>)
    ensures r.Failure? <==> parse(span).None?
    ensures r.Failure? ==> r.error == InvalidJson
    ensures r.Success? ==> parse(span) == Some(r.value)
  {
    match parse(span)
    case None => Failure(InvalidJson)
    case Some(j) => Success(j)
  }

  /** `parsedContent.questions`, on which `.map` is called: anything but an array throws. */
  function QuestionItems(p: Json): (r: Result<seq<Json>, GenError>)
    ensures r.Success? <==> Get(p, "questions").Some? && Get(p, "questions").value.JArr?
    ensures r.Success? ==> Get(p, "questions") == Some(JArr(r.value))
    ensures r.Failure? ==> r.error == MalformedResponse
  {
    match Get(p, "questions")
    case Some(JArr(items)) => Success(items)
    case _ => Failure(MalformedResponse)
  }

  /** The per-question transform with the caller's topic, level and age bound. */
  function BuildFor(topic: string, level: int, age: int): Json -> Result<Question, GenError> {
    q => BuildQuestion(q, topic, level, age)
  }

  /** The entries of `questions` in the reply, before any parsing or conversion. */
  function ReplyItems(reply: Option<string>, parse: Parser): Result<seq<Json>, GenError> {
    match reply
    case None => Failure(ProviderFailure)
    case Some(text) =>
      var span :- ExtractJsonSpan(Trim(text));
      SpanItems(span, parse)
  }

  /** `JSON.parse(jsonString).questions`, checked to be an array. */
  function SpanItems(span: string, parse: Parser): Result<seq<Json>, GenError> {
    var parsed :- ParseSpan(span, parse);
    QuestionItems(parsed)
  }

  /** The questions converted from the reply, in order, before shuffling. */
  function BuiltQuestions(reply: Option<string>, topic: string, level: int, age: int, parse: Parser)
    : (r: Result<seq<Question>, GenError>)
    ensures r.Success? <==>
      ReplyItems(reply, parse).Success? &&
      forall k :: 0 <= k < |ReplyItems(reply, parse).value| ==>
        BuildQuestion(ReplyItems(reply, parse).value[k], topic, level, age).Success?
    ensures r.Success? ==>
      var items := ReplyItems(reply, parse).value;
      |r.value| == |items| &&
      forall k :: 0 <= k < |items| ==> BuildQuestion(items[k], topic, level, age) == Success(r.value[k])
  {
    var items :- ReplyItems(reply, parse);
    MapAll(BuildFor(topic, level, age), items)
  }

  /** Each question shuffled with its own draws. */
  function ShuffleEach(qs: seq<Question>, pick: Picker): (r: seq<Question>)
    requires ValidPicker(pick)
    ensures |r| == |qs|
  {
    seq(|qs|, k requires 0 <= k < |qs| => Shuffled(qs[k], Draws(pick, k, |qs[k].options|)))
  }

  /** `getPlaygroundQuestion(topic, level, {age})` given the provider's reply. */
  function PlaygroundQuestions(reply: Option<string>, topic: string, level: int, age: int,
                               parse: Parser, pick: Picker): (r: Result<seq<Question>, GenError>)
    requires ValidPicker(pick)
    ensures r.Failure? ==> r.error in {ProviderFailure, NoJsonFound, InvalidJson, MalformedResponse}
  {
    var built :- BuiltQuestions(reply, topic, level, age, parse);
    Success(ShuffleEach(built, pick))
  }

  /** The failures, in the order the source meets them: the provider, the missing
      span, the parse, and then the shape of the parsed value. */
  lemma PlaygroundFailures(reply: Option<string>, topic: string, level: int, age: int,
                           parse: Parser, pick: Picker)
    requires ValidPicker(pick)
    ensures var r := PlaygroundQuestions(reply, topic, level, age, parse, pick);
      (reply.None? <==> r == Failure(ProviderFailure)) &&
      (reply.Some? ==> (!HasBracePair(reply.value) <==> r == Failure(NoJsonFound))) &&
      (reply.Some? && HasBracePair(reply.value) ==>
        var span := ExtractJsonSpan(reply.value).value;
        parse(span).None? <==> r == Failure(InvalidJson))
  {
    if reply.Some? {
      TrimKeepsSpan(reply.value);
    }
  }

  /** Every returned question is a converted entry of `questions` with its options
      shuffled: the same options, the same correct option, every other field kept. */
  lemma PlaygroundShufflesEach(reply: Option<string>, topic: string, level: int, age: int,
                               parse: Parser, pick: Picker)
    requires ValidPicker(pick)
    ensures var r := PlaygroundQuestions(reply, topic, level, age, parse, pick);
      var b := BuiltQuestions(reply, topic, level, age, parse);
      r.Success? <==> b.Success?
    ensures var r := PlaygroundQuestions(reply, topic, level, age, parse, pick);
      var b := BuiltQuestions(reply, topic, level, age, parse);
      r.Success? ==> (
        |r.value| == |b.value| &&
        forall k :: 0 <= k < |r.value| ==>
          var q, p := b.value[k], r.value[k];
          multiset(p.options) == multiset(q.options) &&
          p.(options := q.options, correctAnswer := q.correctAnswer) == q &&
          (0 <= q.correctAnswer < |q.options| ==>
             0 <= p.correctAnswer < |p.options| && p.options[p.correctAnswer] == q.options[q.correctAnswer]) &&
          (!(0 <= q.correctAnswer < |q.options|) ==> p.correctAnswer == -1))
  {
    var r := PlaygroundQuestions(reply, topic, level, age, parse, pick);
    var b := BuiltQuestions(reply, topic, level, age, parse);
    if r.Success? {
      forall k | 0 <= k < |r.value|
        ensures var q, p := b.value[k], r.value[k];
          multiset(p.options) == multiset(q.options) &&
          p.(options := q.options, correctAnswer := q.correctAnswer) == q &&
          (0 <= q.correctAnswer < |q.options| ==>
             0 <= p.correctAnswer < |p.options| && p.options[p.correctAnswer] == q.options[q.correctAnswer]) &&
          (!(0 <= q.correctAnswer < |q.options|) ==> p.correctAnswer == -1)
      {
        var js := Draws(pick, k, |b.value[k].options|);
        ShuffledIsPermutation(b.value[k], js);
        ShuffledKeepsAnswer(b.value[k], js);
      }
    }
  }

  /** What each returned question carries from the reply and from the caller. */
  lemma PlaygroundFields(reply: Option<string>, topic: string, level: int, age: int,
                         parse: Parser, pick: Picker)
    requires ValidPicker(pick)
    ensures PlaygroundQuestions(reply, topic, level, age, parse, pick).Success? ==>
      ReplyItems(reply, parse).Success?
    ensures var r := PlaygroundQuestions(reply, topic, level, age, parse, pick);
      r.Success? ==> (
        var items := ReplyItems(reply, parse).value;
        |r.value| == |items| &&
        forall k :: 0 <= k < |items| ==>
          var p := r.value[k];
          Get(items[k], "text") == Some(JStr(p.text)) &&
          OptionValues(Get(items[k], "options")).Success? &&
          multiset(p.options) == multiset(OptionValues(Get(items[k], "options")).value) &&
          ExplanationOf(Get(items[k], "explanation")) == Success(p.explanation) &&
          p.difficulty == level && p.topic == topic && p.questionType == "conceptual" &&
          p.ageGroup == IntToString(age) &&
          (if Truthy(Get(items[k], "subtopic")) then Get(items[k], "subtopic") == Some(JStr(p.subtopic))
           else p.subtopic == topic))
  {
    PlaygroundShufflesEach(reply, topic, level, age, parse, pick);
  }

  /** The questions in a reply with one schema-shaped question. */
  lemma SchemaReplyItems(text: string, span: string, parse: Parser, item: Json)
    requires ExtractJsonSpan(text) == Success(span)
    requires parse(span) == Some(JObj([("questions", JArr([item]))]))
    ensures ReplyItems(Some(text), parse) == Success([item])
  {
    TrimKeepsSpan(text);
    SpanOneItem(span, parse, item);
  }

  lemma SpanOneItem(span: string, parse: Parser, item: Json)
    requires parse(span) == Some(JObj([("questions", JArr([item]))]))
    ensures SpanItems(span, parse) == Success([item])
  {
    var parsed := JObj([("questions", JArr([item]))]);
    assert FirstWithKey(parsed.fields, "questions", 0);
  }

  lemma BuildOne(item: Json, q: Question, topic: string, level: int, age: int)
    requires BuildQuestion(item, topic, level, age) == Success(q)
    ensures MapAll(BuildFor(topic, level, age), [item]) == Success([q])
  {
    var r := MapAll(BuildFor(topic, level, age), [item]);
    assert BuildFor(topic, level, age)([item][0]) == Success(q);
    assert r.Success?;
    assert r.value == [q];
  }

  /** The reply the response schema asks for, with one question, comes back as one
      question holding the options A..D in some order, with the lettered option
      still marked correct. */
  lemma SchemaReplyQuestion(text: string, span: string, parse: Parser, pick: Picker,
                            qText: string, a: string, b: string, c: string, d: string,
                            letter: string, correct: string, keyPoint: string, subtopic: string,
                            topic: string, level: int, age: int)
    requires ValidPicker(pick)
    requires ExtractJsonSpan(text) == Success(span)
    requires parse(span) == Some(JObj([("questions", JArr([SchemaQuestion(qText, SchemaOptions(a, b, c, d),
                                                                        letter, correct, keyPoint, subtopic)]))]))
    ensures var r := PlaygroundQuestions(Some(text), topic, level, age, parse, pick);
      r.Success? && |r.value| == 1 &&
      multiset(r.value[0].options) == multiset([a, b, c, d]) &&
      0 <= r.value[0].correctAnswer < 4 &&
      r.value[0].options[r.value[0].correctAnswer] ==
        if letter == "A" then a else if letter == "B" then b else if letter == "C" then c else d
  {
    var item := SchemaQuestion(qText, SchemaOptions(a, b, c, d), letter, correct, keyPoint, subtopic);
    SchemaReplyItems(text, span, parse, item);
    SchemaQuestionBuilds(qText, a, b, c, d, letter, correct, keyPoint, subtopic, topic, level, age);
    var q := BuildQuestion(item, topic, level, age).value;
    BuildOne(item, q, topic, level, age);
    assert BuiltQuestions(Some(text), topic, level, age, parse) == Success([q]);
    PlaygroundShufflesEach(Some(text), topic, level, age, parse, pick);
  }
}
