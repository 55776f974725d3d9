/**
 * The response normaliser of GPTService: pulling the JSON span out of the
 * model's text, turning each parsed playground question into a `Question`, and
 * mapping explore content from the provider's vocabulary (`name`, `text`,
 * `paragraph1..3`) to the application's (`topic`, `question`, `content`).
 *
 * Reading a property of `undefined` or `null`, or calling `map` on something that
 * is not an array, throws a TypeError in the source; here it is `MalformedResponse`.
 */
module Normalizer {
  import opened Wrappers
  import opened Json
  import opened JsStrings
  import opened Types

  /** Some `{` comes before some `}` in `s`. */
  predicate HasBracePair(s: string) {
    exists i, j :: 0 <= i < j < |s| && s[i] == '{' && s[j] == '}'
  }

  /** `a` is the first `{` of `s`, `b` its last `}`, and `a < b`. */
  predicate OutermostBraces(s: string, a: int, b: int) {
    0 <= a < b < |s| && s[a] == '{' && s[b] == '}' &&
    (forall i :: 0 <= i < a ==> s[i] != '{') &&
    (forall i :: b < i < |s| ==> s[i] != '}')
  }

  /** `s.match(/\{[\s\S]*\}/)`: the greedy match starts at the first `{` and runs to
      the last `}`; with no `{` before a `}` there is no match. */
  function ExtractJsonSpan(s: string): (r: Result<string, GenError>)
    ensures r.Failure? <==> !HasBracePair(s)
    ensures r.Failure? ==> r.error == NoJsonFound
    ensures r.Success? ==>
      var a, b := IndexOf(s, '{'), LastIndexOf(s, '}');
      OutermostBraces(s, a, b) && r.value == s[a..b + 1]
  {
    var a, b := IndexOf(s, '{'), LastIndexOf(s, '}');
    assert 0 <= a < b || !HasBracePair(s) by {
      forall i, j | 0 <= i < j < |s| && s[i] == '{' && !(0 <= a < b) ensures s[j] != '}' {
        assert a >= 0 && a <= i;
      }
    }
    SpanAt(s, a, b)
  }

  /** The text from a `{` at `a` to a `}` at `b`, if `a < b`. */
  function SpanAt(s: string, a: int, b: int): Result<string, GenError> {
    if 0 <= a < b < |s| then Success(s[a..b + 1]) else Failure(NoJsonFound)
  }

  /** Every occurrence of `x` in `s` lies in the window `s[a..a + |t|] == t`. */
  predicate Confined(s: string, t: string, a: nat, x: char) {
    a + |t| <= |s| && (forall k :: 0 <= k < |t| ==> t[k] == s[a + k]) &&
    forall i :: 0 <= i < |s| && s[i] == x ==> a <= i < a + |t|
  }

  lemma ConfinedIndexOf(s: string, t: string, a: nat, x: char)
    requires Confined(s, t, a, x)
    ensures IndexOf(s, x) == if IndexOf(t, x) < 0 then -1 else a + IndexOf(t, x)
    ensures LastIndexOf(s, x) == if LastIndexOf(t, x) < 0 then -1 else a + LastIndexOf(t, x)
  {
    var f, l := IndexOf(s, x), LastIndexOf(s, x);
    if f >= 0 {
      assert t[f - a] == x;
      var f' := IndexOf(t, x);
      assert s[a + f'] == x;
    }
    if l >= 0 {
      assert t[l - a] == x;
      var l' := LastIndexOf(t, x);
      assert s[a + l'] == x;
    }
  }

  /** A window with only whitespace around it holds every non-whitespace character. */
  lemma WindowConfines(s: string, t: string, a: nat, x: char)
    requires a + |t| <= |s| && t == s[a..a + |t|]
    requires forall i :: 0 <= i < |s| && !(a <= i < a + |t|) ==> IsJsWhitespace(s[i])
    requires !IsJsWhitespace(x)
    ensures Confined(s, t, a, x)
  {
    forall k | 0 <= k < |t| ensures t[k] == s[a + k] {
      assert t[k] == s[a..a + |t|][k];
    }
  }

  lemma TrimConfinesBraces(s: string)
    ensures Confined(s, Trim(s), LeadingSpace(s), '{')
    ensures Confined(s, Trim(s), LeadingSpace(s), '}')
  {
    var t, a := Trim(s), LeadingSpace(s);
    WindowConfines(s, t, a, '{');
    WindowConfines(s, t, a, '}');
  }

  /** Shifting both brace positions by the window's offset `a` selects the same text. */
  lemma ShiftedSpan(s: string, t: string, a: nat, f: int, l: int, f': int, l': int)
    requires a + |t| <= |s| && forall k :: 0 <= k < |t| ==> t[k] == s[a + k]
    requires -1 <= f < |t| && -1 <= l < |t|
    requires f' == (if f < 0 then -1 else a + f) && l' == (if l < 0 then -1 else a + l)
    ensures SpanAt(t, f, l) == SpanAt(s, f', l')
  {
    if 0 <= f < l {
      assert s[a + f..a + l + 1] == t[f..l + 1];
    }
  }

  /** When the braces of `s` all lie in the window `t`, the first `{` and the last
      `}` of `s` are those of `t`, shifted, and so select the same text. */
  lemma WindowKeepsSpan(s: string, t: string, a: nat)
    requires Confined(s, t, a, '{') && Confined(s, t, a, '}')
    ensures SpanAt(t, IndexOf(t, '{'), LastIndexOf(t, '}')) ==
            SpanAt(s, IndexOf(s, '{'), LastIndexOf(s, '}'))
  {
    ConfinedIndexOf(s, t, a, '{');
    ConfinedIndexOf(s, t, a, '}');
    ShiftedSpan(s, t, a, IndexOf(t, '{'), LastIndexOf(t, '}'), IndexOf(s, '{'), LastIndexOf(s, '}'));
  }

  /** Trimming the reply before matching changes nothing: braces are not whitespace,
      so the first `{` and the last `}` lie inside the trimmed text. */
  lemma TrimKeepsSpan(s: string)
    ensures ExtractJsonSpan(Trim(s)) == ExtractJsonSpan(s)
  {
    TrimConfinesBraces(s);
    WindowKeepsSpan(s, Trim(s), LeadingSpace(s));
  }

  /** The letter-to-index conversion: "A" is 0, "B" is 1, "C" is 2 and every
      other value, "D" included, falls through to 3. */
  function AnswerIndex(v: Option<Json>): (r: nat)
    ensures r <= 3
    ensures r == 0 <==> v == Some(JStr("A"))
    ensures r == 1 <==> v == Some(JStr("B"))
    ensures r == 2 <==> v == Some(JStr("C"))
  {
    if v == Some(JStr("A")) then 0
    else if v == Some(JStr("B")) then 1
    else if v == Some(JStr("C")) then 2
    else 3
  }

  /** A field the application's types declare as a string. */
  function Text(v: Option<Json>): (r: Result<string, GenError>)
    ensures r.Success? <==> v.Some? && v.value.JStr?
    ensures r.Success? ==> v == Some(JStr(r.value))
    ensures r.Failure? ==> r.error == MalformedResponse
  {
    match v
    case Some(JStr(s)) => Success(s)
    case _ => Failure(MalformedResponse)
  }

  function AsText(j: Json): Result<string, GenError> {
    Text(Some(j))
  }

  /** `items.map(f)` where `f` may throw: all results, or the error of a failing item. */
  function MapAll<A>(f: Json -> Result<A, GenError>, items: seq<Json>): (r: Result<seq<A>, GenError>)
    ensures r.Success? <==> forall k :: 0 <= k < |items| ==> f(items[k]).Success?
    ensures r.Success? ==> |r.value| == |items| && forall k :: 0 <= k < |items| ==> f(items[k]) == Success(r.value[k])
    ensures r.Failure? ==> exists k :: 0 <= k < |items| && f(items[k]) == Failure(r.error)
  {
    if |items| == 0 then Success([])
    else
      match f(items[0])
      case Failure(e) => Failure(e)
      case Success(x) =>
        var rest := MapAll(f, items[1..]);
        assert forall k :: 1 <= k < |items| ==> items[k] == items[1..][k - 1];
        match rest
        case Failure(e) =>
          assert exists k :: 0 <= k < |items[1..]| && f(items[1..][k]) == Failure(e);
          Failure(e)
        case Success(xs) => Success([x] + xs)
  }

  /** The member values of an object, in key order. */
  function Values(fields: seq<(string, Json)>): (r: seq<Json>)
    ensures |r| == |fields| && forall k :: 0 <= k < |fields| ==> r[k] == fields[k].1
  {
    seq(|fields|, k requires 0 <= k < |fields| => fields[k].1)
  }

  /** `Object.values(q.options)`: throws on undefined and null; an object gives its
      member values in key order, an array its items, a string its characters (split
      by Unicode scalar value, where JavaScript splits by UTF-16 code unit), a number
      or boolean nothing. */
  function OptionValues(v: Option<Json>): (r: Result<seq<string>, GenError>)
    ensures (v.None? || v == Some(JNull)) ==> r.Failure?
    ensures v.Some? && v.value.JObj? ==>
      (r.Success? <==> forall k :: 0 <= k < |v.value.fields| ==> v.value.fields[k].1.JStr?)
    ensures r.Success? && v.Some? && v.value.JObj? ==>
      |r.value| == |v.value.fields| &&
      forall k :: 0 <= k < |r.value| ==> v.value.fields[k].1 == JStr(r.value[k])
    ensures r.Failure? ==> r.error == MalformedResponse
  {
    match v
    case None => Failure(MalformedResponse)
    case Some(JNull) => Failure(MalformedResponse)
    case Some(JObj(fields)) => MapAll(AsText, Values(fields))
    case Some(JArr(items)) => MapAll(AsText, items)
    case Some(JStr(s)) => Success(seq(|s|, k requires 0 <= k < |s| => [s[k]]))
    case Some(_) => Success([])
  }

  /** `{correct: e.correct, key_point: e.key_point}`, throwing when `e` is undefined or null. */
  function ExplanationOf(v: Option<Json>): (r: Result<Explanation, GenError>)
    ensures r.Success? <==>
      v.Some? && Text(Get(v.value, "correct")).Success? && Text(Get(v.value, "key_point")).Success?
    ensures r.Success? ==>
      v.Some? && Get(v.value, "correct") == Some(JStr(r.value.correct)) &&
      Get(v.value, "key_point") == Some(JStr(r.value.keyPoint))
    ensures r.Failure? ==> r.error == MalformedResponse
  {
    match v
    case None => Failure(MalformedResponse)
    case Some(e) =>
      var correct :- Text(Get(e, "correct"));
      var keyPoint :- Text(Get(e, "key_point"));
      Success(Explanation(correct, keyPoint))
  }

  /** `q.subtopic || topic`. */
  function SubtopicOf(v: Option<Json>, topic: string): (r: Result<string, GenError>)
    ensures !Truthy(v) ==> r == Success(topic)
    ensures Truthy(v) && r.Success? ==> v == Some(JStr(r.value)) && r.value != ""
  {
    if Truthy(v) then Text(v) else Success(topic)
  }

  /** The per-question transform of `getPlaygroundQuestion`: the model's fields,
      with difficulty, topic and age group filled in from the caller. */
  function BuildQuestion(q: Json, topic: string, level: int, age: int): (r: Result<Question, GenError>)
    ensures r.Success? ==> q.JObj?
    ensures r.Success? ==> Get(q, "text") == Some(JStr(r.value.text))
    ensures r.Success? ==> OptionValues(Get(q, "options")) == Success(r.value.options)
    ensures r.Success? ==> r.value.correctAnswer == AnswerIndex(Get(q, "correctAnswer"))
    ensures r.Success? ==> ExplanationOf(Get(q, "explanation")) == Success(r.value.explanation)
    ensures r.Success? ==>
      r.value.difficulty == level && r.value.topic == topic &&
      r.value.questionType == "conceptual" && r.value.ageGroup == IntToString(age)
    ensures r.Success? ==>
      if Truthy(Get(q, "subtopic")) then Get(q, "subtopic") == Some(JStr(r.value.subtopic))
      else r.value.subtopic == topic
    ensures r.Failure? ==> r.error == MalformedResponse
  {
    var text :- Text(Get(q, "text"));
    var options :- OptionValues(Get(q, "options"));
    var explanation :- ExplanationOf(Get(q, "explanation"));
    var subtopic :- SubtopicOf(Get(q, "subtopic"), topic);
    Success(Question(text, options, AnswerIndex(Get(q, "correctAnswer")), explanation,
                     level, topic, subtopic, "conceptual", IntToString(age)))
  }

  /** The `options` object the response schema asks for. */
  function SchemaOptions(a: string, b: string, c: string, d: string): Json {
    JObj([("A", JStr(a)), ("B", JStr(b)), ("C", JStr(c)), ("D", JStr(d))])
  }

  /** A playground question exactly as the response schema shapes it. */
  function SchemaQuestion(text: string, options: Json, letter: string, correct: string, keyPoint: string,
                          subtopic: string): Json
  {
    JObj([("text", JStr(text)),
          ("options", options),
          ("correctAnswer", JStr(letter)),
          ("explanation", JObj([("correct", JStr(correct)), ("key_point", JStr(keyPoint))])),
          ("subtopic", JStr(subtopic))])
  }

  /** `Object.values` of the schema's options object lists A, B, C, D in that order. */
  lemma SchemaOptionsInOrder(a: string, b: string, c: string, d: string)
    ensures OptionValues(Some(SchemaOptions(a, b, c, d))) == Success([a, b, c, d])
  {
    var values := MapAll(AsText, Values(SchemaOptions(a, b, c, d).fields));
    assert values.value == [a, b, c, d];
  }

  lemma SchemaQuestionFields(text: string, options: Json, letter: string, correct: string, keyPoint: string,
                             subtopic: string)
    ensures var q := SchemaQuestion(text, options, letter, correct, keyPoint, subtopic);
      Get(q, "text") == Some(JStr(text)) && Get(q, "options") == Some(options) &&
      Get(q, "correctAnswer") == Some(JStr(letter)) && Get(q, "subtopic") == Some(JStr(subtopic)) &&
      Get(q, "explanation") == Some(JObj([("correct", JStr(correct)), ("key_point", JStr(keyPoint))]))
  {
    var q := SchemaQuestion(text, options, letter, correct, keyPoint, subtopic);
    assert FirstWithKey(q.fields, "text", 0);
    assert FirstWithKey(q.fields, "options", 1);
    assert FirstWithKey(q.fields, "correctAnswer", 2);
    assert FirstWithKey(q.fields, "explanation", 3);
    assert FirstWithKey(q.fields, "subtopic", 4);
  }

  lemma SchemaExplanation(correct: string, keyPoint: string)
    ensures ExplanationOf(Some(JObj([("correct", JStr(correct)), ("key_point", JStr(keyPoint))])))
      == Success(Explanation(correct, keyPoint))
  {
    var fields := [("correct", JStr(correct)), ("key_point", JStr(keyPoint))];
    assert FirstWithKey(fields, "correct", 0);
    assert FirstWithKey(fields, "key_point", 1);
  }

  /** BuildQuestion assembled from the results of its parts. */
  lemma BuildQuestionParts(q: Json, topic: string, level: int, age: int, text: string, options: seq<string>,
                           explanation: Explanation, subtopic: string)
    requires Text(Get(q, "text")) == Success(text)
    requires OptionValues(Get(q, "options")) == Success(options)
    requires ExplanationOf(Get(q, "explanation")) == Success(explanation)
    requires SubtopicOf(Get(q, "subtopic"), topic) == Success(subtopic)
    ensures BuildQuestion(q, topic, level, age) ==
      Success(Question(text, options, AnswerIndex(Get(q, "correctAnswer")), explanation,
                       level, topic, subtopic, "conceptual", IntToString(age)))
  {
  }

  lemma LetterIndex(letter: string)
    ensures AnswerIndex(Some(JStr(letter))) ==
      if letter == "A" then 0 else if letter == "B" then 1 else if letter == "C" then 2 else 3
  {
  }

  lemma StringSubtopic(subtopic: string, topic: string)
    ensures SubtopicOf(Some(JStr(subtopic)), topic) == Success(if subtopic == "" then topic else subtopic)
  {
  }

  /** A schema-shaped question always converts: options A..D in order, the letter as
      its index, and the subtopic defaulting to the topic when empty. */
  lemma SchemaQuestionBuilds(text: string, a: string, b: string, c: string, d: string,
                             letter: string, correct: string, keyPoint: string, subtopic: string,
                             topic: string, level: int, age: int)
    ensures BuildQuestion(SchemaQuestion(text, SchemaOptions(a, b, c, d), letter, correct, keyPoint, subtopic),
                          topic, level, age)
      == Success(Question(text, [a, b, c, d],
                          if letter == "A" then 0 else if letter == "B" then 1 else if letter == "C" then 2 else 3,
                          Explanation(correct, keyPoint), level, topic,
                          if subtopic == "" then topic else subtopic, "conceptual", IntToString(age)))
  {
    var q := SchemaQuestion(text, SchemaOptions(a, b, c, d), letter, correct, keyPoint, subtopic);
    SchemaQuestionFields(text, SchemaOptions(a, b, c, d), letter, correct, keyPoint, subtopic);
    SchemaOptionsInOrder(a, b, c, d);
    SchemaExplanation(correct, keyPoint);
    LetterIndex(letter);
    StringSubtopic(subtopic, topic);
    BuildQuestionParts(q, topic, level, age, text, [a, b, c, d], Explanation(correct, keyPoint),
                       if subtopic == "" then topic else subtopic);
  }

  /** `{topic: t.name, type: t.type, reason: t.reason}`. */
  function TopicOf(t: Json): (r: Result<RelatedTopic, GenError>)
    ensures r.Success? <==>
      Text(Get(t, "name")).Success? && Text(Get(t, "type")).Success? && Text(Get(t, "reason")).Success?
    ensures r.Success? ==>
      Get(t, "name") == Some(JStr(r.value.topic)) && Get(t, "type") == Some(JStr(r.value.kind)) &&
      Get(t, "reason") == Some(JStr(r.value.reason))
  {
    var name :- Text(Get(t, "name"));
    var kind :- Text(Get(t, "type"));
    var reason :- Text(Get(t, "reason"));
    Success(RelatedTopic(name, kind, reason))
  }

  /** `{question: q.text, type: q.type, context: q.context}`. */
  function QuestionOf(q: Json): (r: Result<RelatedQuestion, GenError>)
    ensures r.Success? <==>
      Text(Get(q, "text")).Success? && Text(Get(q, "type")).Success? && Text(Get(q, "context")).Success?
    ensures r.Success? ==>
      Get(q, "text") == Some(JStr(r.value.question)) && Get(q, "type") == Some(JStr(r.value.kind)) &&
      Get(q, "context") == Some(JStr(r.value.context))
  {
    var text :- Text(Get(q, "text"));
    var kind :- Text(Get(q, "type"));
    var context :- Text(Get(q, "context"));
    Success(RelatedQuestion(text, kind, context))
  }

  /** `v.map(TopicOf)`: throws unless `v` is an array. */
  function NormaliseTopics(v: Option<Json>): (r: Result<seq<RelatedTopic>, GenError>)
    ensures v.Some? && v.value.JArr? ==>
      (r.Success? <==> forall k :: 0 <= k < |v.value.items| ==> TopicOf(v.value.items[k]).Success?)
    ensures r.Success? ==>
      v.Some? && v.value.JArr? && |r.value| == |v.value.items| &&
      forall k :: 0 <= k < |r.value| ==> TopicOf(v.value.items[k]) == Success(r.value[k])
  {
    match v
    case Some(JArr(items)) => MapAll(TopicOf, items)
    case _ => Failure(MalformedResponse)
  }

  /** `v.map(QuestionOf)`: throws unless `v` is an array. */
  function NormaliseQuestions(v: Option<Json>): (r: Result<seq<RelatedQuestion>, GenError>)
    ensures v.Some? && v.value.JArr? ==>
      (r.Success? <==> forall k :: 0 <= k < |v.value.items| ==> QuestionOf(v.value.items[k]).Success?)
    ensures r.Success? ==>
      v.Some? && v.value.JArr? && |r.value| == |v.value.items| &&
      forall k :: 0 <= k < |r.value| ==> QuestionOf(v.value.items[k]) == Success(r.value[k])
  {
    match v
    case Some(JArr(items)) => MapAll(QuestionOf, items)
    case _ => Failure(MalformedResponse)
  }

  /** One element of `[p1, p2, p3].join("\n\n")`: undefined and null join as "". */
  function Paragraph(v: Option<Json>): (r: Result<string, GenError>)
    ensures (v.None? || v == Some(JNull)) ==> r == Success("")
    ensures v.Some? && v.value.JStr? ==> r == Success(v.value.s)
  {
    match v
    case None => Success("")
    case Some(JNull) => Success("")
    case _ => Text(v)
  }

  /** The object literal `getExploreContent` builds from the parsed content. */
  function ExploreOf(p: Json): (r: Result<ExploreResponse, GenError>)
    ensures r.Success? ==>
      NormaliseTopics(Get(p, "relatedTopics")) == Success(r.value.relatedTopics) &&
      NormaliseQuestions(Get(p, "relatedQuestions")) == Success(r.value.relatedQuestions)
    ensures r.Success? ==>
      var c := Get(p, "content");
      c.Some? && c.value != JNull &&
      Paragraph(Get(c.value, "paragraph1")).Success? && Paragraph(Get(c.value, "paragraph2")).Success? &&
      Paragraph(Get(c.value, "paragraph3")).Success? &&
      r.value.content == Paragraph(Get(c.value, "paragraph1")).value + "\n\n" +
                         Paragraph(Get(c.value, "paragraph2")).value + "\n\n" +
                         Paragraph(Get(c.value, "paragraph3")).value
  {
    match Get(p, "content")
    case None => Failure(MalformedResponse)
    case Some(JNull) => Failure(MalformedResponse)
    case Some(c) =>
      var p1 :- Paragraph(Get(c, "paragraph1"));
      var p2 :- Paragraph(Get(c, "paragraph2"));
      var p3 :- Paragraph(Get(c, "paragraph3"));
      var topics :- NormaliseTopics(Get(p, "relatedTopics"));
      var questions :- NormaliseQuestions(Get(p, "relatedQuestions"));
      Success(ExploreResponse(p1 + "\n\n" + p2 + "\n\n" + p3, topics, questions))
  }

  /** `getExploreContent`: the provider's reply (None when the request failed) is parsed
      whole; every failure becomes "Failed to generate explore content". */
  function GetExploreContent(reply: Option<string>, parse: Parser): (r: Result<ExploreResponse, GenError>)
    ensures r.Failure? ==> r.error == ExploreFailed
    ensures r.Success? ==>
      reply.Some? && parse(reply.value).Some? && ExploreOf(parse(reply.value).value) == r
    ensures reply.Some? && parse(reply.value).Some? && ExploreOf(parse(reply.value).value).Success? ==>
      r == ExploreOf(parse(reply.value).value)
  {
    match reply
    case None => Failure(ExploreFailed)
    case Some(text) =>
      match parse(text)
      case None => Failure(ExploreFailed)
      case Some(p) =>
        match ExploreOf(p)
        case Success(e) => Success(e)
        case Failure(_) => Failure(ExploreFailed)
  }

  /** The provider-side shape of a related topic. */
  function EncodeTopic(t: RelatedTopic): Json {
    JObj([("name", JStr(t.topic)), ("type", JStr(t.kind)), ("reason", JStr(t.reason))])
  }

  /** The provider-side shape of a related question. */
  function EncodeQuestion(q: RelatedQuestion): Json {
    JObj([("text", JStr(q.question)), ("type", JStr(q.kind)), ("context", JStr(q.context))])
  }

  /** Explore content as the provider sends it. */
  function ExploreJson(p1: string, p2: string, p3: string,
                       topics: seq<RelatedTopic>, questions: seq<RelatedQuestion>): Json
  {
    JObj([("content", JObj([("paragraph1", JStr(p1)), ("paragraph2", JStr(p2)), ("paragraph3", JStr(p3))])),
          ("relatedTopics", JArr(seq(|topics|, k requires 0 <= k < |topics| => EncodeTopic(topics[k])))),
          ("relatedQuestions", JArr(seq(|questions|, k requires 0 <= k < |questions| => EncodeQuestion(questions[k]))))])
  }

  lemma EncodedTopic(t: RelatedTopic)
    ensures TopicOf(EncodeTopic(t)) == Success(t)
  {
    var f := EncodeTopic(t).fields;
    assert FirstWithKey(f, "name", 0);
    assert FirstWithKey(f, "type", 1);
    assert FirstWithKey(f, "reason", 2);
  }

  lemma EncodedQuestion(q: RelatedQuestion)
    ensures QuestionOf(EncodeQuestion(q)) == Success(q)
  {
    var f := EncodeQuestion(q).fields;
    assert FirstWithKey(f, "text", 0);
    assert FirstWithKey(f, "type", 1);
    assert FirstWithKey(f, "context", 2);
  }

  /** Renaming loses nothing: provider-shaped topics normalise back to the topics they encode. */
  lemma TopicsRoundTrip(topics: seq<RelatedTopic>)
    ensures NormaliseTopics(Some(JArr(seq(|topics|, k requires 0 <= k < |topics| => EncodeTopic(topics[k])))))
      == Success(topics)
  {
    var items := seq(|topics|, k requires 0 <= k < |topics| => EncodeTopic(topics[k]));
    forall k | 0 <= k < |items| ensures TopicOf(items[k]) == Success(topics[k]) {
      EncodedTopic(topics[k]);
    }
    var r := MapAll(TopicOf, items);
    assert r.value == topics;
  }

  /** Renaming loses nothing: provider-shaped questions normalise back to the questions they encode. */
  lemma QuestionsRoundTrip(questions: seq<RelatedQuestion>)
    ensures NormaliseQuestions(Some(JArr(seq(|questions|, k requires 0 <= k < |questions| => EncodeQuestion(questions[k])))))
      == Success(questions)
  {
    var items := seq(|questions|, k requires 0 <= k < |questions| => EncodeQuestion(questions[k]));
    forall k | 0 <= k < |items| ensures QuestionOf(items[k]) == Success(questions[k]) {
      EncodedQuestion(questions[k]);
    }
    var r := MapAll(QuestionOf, items);
    assert r.value == questions;
  }

  /** ExploreOf assembled from the results of its parts. */
  lemma ExploreOfParts(p: Json, c: Json, p1: string, p2: string, p3: string,
                       topics: seq<RelatedTopic>, questions: seq<RelatedQuestion>)
    requires Get(p, "content") == Some(c) && c != JNull
    requires Paragraph(Get(c, "paragraph1")) == Success(p1)
    requires Paragraph(Get(c, "paragraph2")) == Success(p2)
    requires Paragraph(Get(c, "paragraph3")) == Success(p3)
    requires NormaliseTopics(Get(p, "relatedTopics")) == Success(topics)
    requires NormaliseQuestions(Get(p, "relatedQuestions")) == Success(questions)
    ensures ExploreOf(p) == Success(ExploreResponse(p1 + "\n\n" + p2 + "\n\n" + p3, topics, questions))
  {
  }

  lemma ExploreJsonContent(p1: string, p2: string, p3: string,
                           topics: seq<RelatedTopic>, questions: seq<RelatedQuestion>)
    ensures var c := JObj([("paragraph1", JStr(p1)), ("paragraph2", JStr(p2)), ("paragraph3", JStr(p3))]);
      Get(ExploreJson(p1, p2, p3, topics, questions), "content") == Some(c) &&
      Paragraph(Get(c, "paragraph1")) == Success(p1) && Paragraph(Get(c, "paragraph2")) == Success(p2) &&
      Paragraph(Get(c, "paragraph3")) == Success(p3)
  {
    var p := ExploreJson(p1, p2, p3, topics, questions);
    var c := JObj([("paragraph1", JStr(p1)), ("paragraph2", JStr(p2)), ("paragraph3", JStr(p3))]);
    assert FirstWithKey(p.fields, "content", 0);
    assert FirstWithKey(c.fields, "paragraph1", 0);
    assert FirstWithKey(c.fields, "paragraph2", 1);
    assert FirstWithKey(c.fields, "paragraph3", 2);
  }

  lemma ExploreJsonTopics(p1: string, p2: string, p3: string,
                          topics: seq<RelatedTopic>, questions: seq<RelatedQuestion>)
    ensures NormaliseTopics(Get(ExploreJson(p1, p2, p3, topics, questions), "relatedTopics")) == Success(topics)
  {
    var p := ExploreJson(p1, p2, p3, topics, questions);
    assert FirstWithKey(p.fields, "relatedTopics", 1);
    TopicsRoundTrip(topics);
  }

  lemma ExploreJsonQuestions(p1: string, p2: string, p3: string,
                             topics: seq<RelatedTopic>, questions: seq<RelatedQuestion>)
    ensures NormaliseQuestions(Get(ExploreJson(p1, p2, p3, topics, questions), "relatedQuestions")) == Success(questions)
  {
    var p := ExploreJson(p1, p2, p3, topics, questions);
    assert FirstWithKey(p.fields, "relatedQuestions", 2);
    QuestionsRoundTrip(questions);
  }

  /** Explore normalisation joins the three paragraphs with a blank line and keeps every
      related topic and question, renamed, in order. */
  lemma ExploreRoundTrip(p1: string, p2: string, p3: string,
                         topics: seq<RelatedTopic>, questions: seq<RelatedQuestion>)
    ensures ExploreOf(ExploreJson(p1, p2, p3, topics, questions))
      == Success(ExploreResponse(p1 + "\n\n" + p2 + "\n\n" + p3, topics, questions))
  {
    var p := ExploreJson(p1, p2, p3, topics, questions);
    var c := JObj([("paragraph1", JStr(p1)), ("paragraph2", JStr(p2)), ("paragraph3", JStr(p3))]);
    ExploreJsonContent(p1, p2, p3, topics, questions);
    ExploreJsonTopics(p1, p2, p3, topics, questions);
    ExploreJsonQuestions(p1, p2, p3, topics, questions);
    ExploreOfParts(p, c, p1, p2, p3, topics, questions);
  }
}
