/**
 * The chunk loop of `GPTService.streamExploreContent`: every chunk is appended to
 * the buffer `mainContent`; when the buffer holds a `}`, the text from its first
 * `{` to its last `}` is parsed and the related topics and questions are replaced
 * by what it holds; then `onChunk` receives the text before the first "---",
 * trimmed, with the current topics and questions.
 *
 * The stream is the sequence of chunk texts, `JSON.parse` is the `parse` oracle,
 * and the calls to `onChunk` are the returned sequence of updates.
 */
module Stream {
  import opened Wrappers
  import opened Json
  import opened JsStrings
  import opened Types
  import opened Normalizer

  /** The related topics and questions shown so far. */
  datatype View = View(topics: seq<RelatedTopic>, questions: seq<RelatedQuestion>)

  /** One call of `onChunk`. */
  datatype Update = Update(text: string, topics: seq<RelatedTopic>, questions: seq<RelatedQuestion>)

  /** The chunks appended in order. */
  function Concat(chunks: seq<string>): string {
    if |chunks| == 0 then "" else Concat(chunks[..|chunks| - 1]) + chunks[|chunks| - 1]
  }

  /** The buffer only grows: the text after more chunks extends the text before. */
  lemma {:induction false} ConcatAppend(cs: seq<string>, ds: seq<string>)
    ensures Concat(cs + ds) == Concat(cs) + Concat(ds)
    decreases |ds|
  {
    if |ds| == 0 {
      assert cs + ds == cs;
    } else {
      var ds' := ds[..|ds| - 1];
      assert (cs + ds)[..|cs + ds| - 1] == cs + ds';
      assert (cs + ds)[|cs + ds| - 1] == ds[|ds| - 1];
      ConcatAppend(cs, ds');
    }
  }

  /** `mainContent.substring(mainContent.indexOf("{"), mainContent.lastIndexOf("}") + 1)`.
      With a `{` before a `}` it is the span the greedy `{...}` match finds; without
      one it holds no `{` at all. */
  function StreamSpan(buffer: string): (r: string)
    ensures HasBracePair(buffer) ==> ExtractJsonSpan(buffer) == Success(r)
    ensures '}' in buffer && !HasBracePair(buffer) ==> '{' !in r
  {
    var a, b := IndexOf(buffer, '{'), LastIndexOf(buffer, '}');
    assert !HasBracePair(buffer) && b >= 0 && a >= 0 ==> b < a;
    Substring(buffer, a, b + 1)
  }

  /** `if (parsed.questions) currentQuestions = parsed.questions.map(...)`; a throw
      inside leaves the questions as they were. */
  function TakeQuestions(view: View, p: Json): (r: View)
    ensures r.topics == view.topics
    ensures !Truthy(Get(p, "questions")) ==> r == view
    ensures Truthy(Get(p, "questions")) ==>
      match NormaliseQuestions(Get(p, "questions"))
      case Success(qs) => r.questions == qs
      case Failure(_) => r == view
  {
    var v := Get(p, "questions");
    if !Truthy(v) then view
    else
      match NormaliseQuestions(v)
      case Success(qs) => view.(questions := qs)
      case Failure(_) => view
  }

  /** The `try` block for one chunk, `buffer` being `mainContent` after the append.
      A `SyntaxError` from `JSON.parse` and a `TypeError` from `.map` are caught, so
      the block ends early and keeps what it had already assigned: a throw while
      mapping the topics skips the questions too. Reading `.topics` of `null`
      throws, and of any value but an object gives `undefined`; both keep the view. */
  function Absorb(view: View, buffer: string, parse: Parser): (r: View)
    ensures '}' !in buffer ==> r == view
    ensures parse(StreamSpan(buffer)).None? ==> r == view
    ensures r != view ==> '}' in buffer && parse(StreamSpan(buffer)).Some?
    ensures r != view ==>
      var p := parse(StreamSpan(buffer)).value;
      p.JObj? &&
      (r.topics == view.topics || NormaliseTopics(Get(p, "topics")) == Success(r.topics)) &&
      (r.questions == view.questions || NormaliseQuestions(Get(p, "questions")) == Success(r.questions))
    ensures r.questions != view.questions ==>
      var p := parse(StreamSpan(buffer)).value;
      !Truthy(Get(p, "topics")) || NormaliseTopics(Get(p, "topics")).Success?
    ensures '}' in buffer && parse(StreamSpan(buffer)).Some? ==>
      var p := parse(StreamSpan(buffer)).value;
      Truthy(Get(p, "topics")) && NormaliseTopics(Get(p, "topics")).Success? ==>
        r.topics == NormaliseTopics(Get(p, "topics")).value
    ensures '}' in buffer && parse(StreamSpan(buffer)).Some? ==>
      var p := parse(StreamSpan(buffer)).value;
      (!Truthy(Get(p, "topics")) || NormaliseTopics(Get(p, "topics")).Success?) &&
      Truthy(Get(p, "questions")) && NormaliseQuestions(Get(p, "questions")).Success? ==>
        r.questions == NormaliseQuestions(Get(p, "questions")).value
    ensures '}' in buffer && parse(StreamSpan(buffer)).Some? ==>
      var p := parse(StreamSpan(buffer)).value;
      (!Truthy(Get(p, "topics")) ==> r.topics == view.topics) &&
      (Truthy(Get(p, "topics")) && NormaliseTopics(Get(p, "topics")).Failure? ==> r == view)
  {
    if '}' !in buffer then view
    else
      match parse(StreamSpan(buffer))
      case None => view
      case Some(p) =>
        var t := Get(p, "topics");
        if !Truthy(t) then TakeQuestions(view, p)
        else
          match NormaliseTopics(t)
          case Success(ts) => TakeQuestions(view.(topics := ts), p)
          case Failure(_) => view
  }

  /** The view after the chunks so far. */
  function ViewAfter(chunks: seq<string>, parse: Parser): View {
    if |chunks| == 0 then View([], [])
    else Absorb(ViewAfter(chunks[..|chunks| - 1], parse), Concat(chunks), parse)
  }

  /** `JSON.parse` as real parsers have it: an object's text holds a `{`. */
  ghost predicate ObjectsNeedBraces(parse: Parser) {
    forall s :: parse(s).Some? && parse(s).value.JObj? ==> '{' in s
  }

  /** Until a `{` has come before a `}`, nothing the buffer holds can change the view. */
  lemma NoBracePairKeepsView(view: View, buffer: string, parse: Parser)
    requires ObjectsNeedBraces(parse)
    requires !HasBracePair(buffer)
    ensures Absorb(view, buffer, parse) == view
  {
  }

  /** The view is replaced only from the greedy `{...}` span of the buffer. */
  lemma ViewChangesFromSpan(chunks: seq<string>, parse: Parser)
    requires ObjectsNeedBraces(parse)
    requires |chunks| > 0
    ensures var before := ViewAfter(chunks[..|chunks| - 1], parse);
      ViewAfter(chunks, parse) != before ==>
        ExtractJsonSpan(Concat(chunks)).Success? &&
        parse(ExtractJsonSpan(Concat(chunks)).value).Some?
  {
    var buffer := Concat(chunks);
    if !HasBracePair(buffer) {
      NoBracePairKeepsView(ViewAfter(chunks[..|chunks| - 1], parse), buffer, parse);
    }
  }

  /** A topics object split across two chunks: the first chunk, which holds no `}`,
      is never parsed and leaves the view empty; once the second chunk closes the
      object, the whole buffer is parsed and the topic appears, renamed. */
  lemma ObjectAcrossTwoChunks(c1: string, c2: string, parse: Parser, t: RelatedTopic)
    requires '}' !in c1 && |c1| > 0 && c1[0] == '{'
    requires |c2| > 0 && c2[|c2| - 1] == '}'
    requires parse(c1 + c2) == Some(JObj([("topics", JArr([EncodeTopic(t)]))]))
    ensures ViewAfter([c1], parse) == View([], [])
    ensures ViewAfter([c1, c2], parse) == View([t], [])
  {
    assert [c1][..0] == [] && [c1, c2][..1] == [c1];
    assert Concat([c1]) == c1;
    var s := c1 + c2;
    assert Concat([c1, c2]) == s;
    assert s[0] == '{' && s[|s| - 1] == '}';
    assert IndexOf(s, '{') == 0 && LastIndexOf(s, '}') == |s| - 1;
    assert StreamSpan(s) == s[0..|s|] == s;
    var p := JObj([("topics", JArr([EncodeTopic(t)]))]);
    assert FirstWithKey(p.fields, "topics", 0);
    TopicsRoundTrip([t]);
    assert seq(1, k requires 0 <= k < 1 => EncodeTopic([t][k])) == [EncodeTopic(t)];
    assert NormaliseTopics(Get(p, "topics")) == Success([t]);
  }

  /** The call of `onChunk` after the chunks so far. */
  function UpdateAfter(chunks: seq<string>, parse: Parser): Update {
    var view := ViewAfter(chunks, parse);
    Update(Trim(SplitHead(Concat(chunks), "---")), view.topics, view.questions)
  }

  /** The calls of `onChunk` while reading the chunks so far: one per chunk. */
  function UpdatesAfter(chunks: seq<string>, parse: Parser): (r: seq<Update>)
    ensures |r| == |chunks|
  {
    if |chunks| == 0 then []
    else UpdatesAfter(chunks[..|chunks| - 1], parse) + [UpdateAfter(chunks, parse)]
  }

  /** The `k`-th call reports the buffer after chunk `k`, and the view it leads to. */
  lemma {:induction false} UpdatesAfterAt(chunks: seq<string>, parse: Parser, k: nat)
    requires k < |chunks|
    ensures UpdatesAfter(chunks, parse)[k] == UpdateAfter(chunks[..k + 1], parse)
    decreases |chunks|
  {
    if k < |chunks| - 1 {
      var init := chunks[..|chunks| - 1];
      assert init[..k + 1] == chunks[..k + 1];
      UpdatesAfterAt(init, parse, k);
    } else {
      assert chunks[..k + 1] == chunks;
    }
  }

  /** `streamExploreContent` over the chunks `chunks`: one update per chunk, the
      `k`-th holding the text before the first "---" of the first `k + 1` chunks,
      trimmed, and the view those chunks lead to. */
  method StreamExploreContent(chunks: seq<string>, parse: Parser) returns (updates: seq<Update>)
    ensures |updates| == |chunks|
    ensures forall k :: 0 <= k < |chunks| ==> updates[k] == UpdateAfter(chunks[..k + 1], parse)
  {
    var mainContent := "";
    var view := View([], []);
    updates := [];
    for k := 0 to |chunks|
      invariant mainContent == Concat(chunks[..k])
      invariant view == ViewAfter(chunks[..k], parse)
      invariant updates == UpdatesAfter(chunks[..k], parse)
    {
      assert chunks[..k + 1][..k] == chunks[..k];
      mainContent := mainContent + chunks[k];
      view := Absorb(view, mainContent, parse);
      updates := updates + [Update(Trim(SplitHead(mainContent, "---")), view.topics, view.questions)];
    }
    assert chunks[..|chunks|] == chunks;
    forall k | 0 <= k < |chunks| ensures updates[k] == UpdateAfter(chunks[..k + 1], parse) {
      UpdatesAfterAt(chunks, parse, k);
    }
  }
}
