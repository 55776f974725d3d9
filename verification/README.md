# Question and explore services of edu-assessment, in Dafny

This project models the request-shaping and response-normalising layer of a browser
quiz client. Two files make up that layer:

- `src/services/gptService.ts` asks a generative model for quiz questions and for
  explanatory content, and turns its replies into the application's shapes:
  - `getPlaygroundQuestion` trims the reply, cuts out the greedy `{...}` span and
    parses it. It then converts every entry of `questions` into a `Question`: the
    letter answer becomes an index, and the difficulty, topic, age group and default
    subtopic are filled in. Finally it shuffles each question's options with
    `shuffleOptionsAndAnswer`.
  - `shuffleOptionsAndAnswer` is a Fisher–Yates shuffle over (option, isCorrect)
    pairs, followed by a `findIndex` for the correct one.
  - `getExploreContent` parses the whole reply. It joins the three paragraphs with a
    blank line and renames `name` to `topic` and `text` to `question` in the related
    topics and questions.
  - `streamExploreContent` appends chunks to a buffer. Whenever the buffer holds a
    `}`, it re-parses the text from the first `{` to the last `}` and replaces the
    related topics and questions it shows. After every chunk it reports the text
    before the first `---`.
- `src/services/api.ts` is the facade:
  - a `RateLimiter` with three fixed windows (15 a minute, 250 an hour, 500 a day),
    kept in six storage slots;
  - `transformQuestion`;
  - `getQuestion` and `explore`, which check the limiter, call the generator, and
    replace any generator failure with one fixed error per operation.

Modules, one file each:

- `Wrappers`: `Option` and `Result`.
- `Json`: parsed values and property reads.
- `JsStrings`: `trim`, `indexOf`, `lastIndexOf`, `substring`, `split(..)[0]` and
  `toString`.
- `Types`: the application's records and the generation errors.
- `Shuffle`.
- `Normalizer`: span extraction, the per-question transform and explore
  normalisation.
- `Playground`: the whole `getPlaygroundQuestion` pipeline.
- `Stream`: the chunk loop.
- `RateLimit`: the `RateLimiter` class and the pure `Check` it is proved against.
- `Api`: `transformQuestion` and the facade class.

Stand-ins for what the model cannot run:

- `JSON.parse` is an oracle `parse: string -> Option<Json>`, where `None` is a
  SyntaxError.
- The provider's reply is a parameter, where `None` means the request threw.
- `Math.random` is a sequence of draws (`js[i] <= i`).
- `Date.now()` is a `now` parameter.
- `localStorage` is a `map<string, int>`.

Two facts about the code that the proofs make explicit:

- **The windows are fixed, not sliding.** `checkLimit` restarts a window only when
  more than its length has passed since the window began. `RateLimit.TwoWindowBurst`
  proves that 30 calls within one millisecond are all admitted: 15 at the last moment
  of a minute window and 15 just after it. `RateLimit.WindowBudget` proves the bound
  that does hold: while a window does not run out, it admits no more than the room it
  had.
- **Related topics keep `reason`** (gptService.ts:96 and 154), although the
  `ExploreResponse` type in `src/types.ts` declares only `topic` and `type`.

## Model

| member | source | states |
|---|---|---|
| JsStrings.Trim | src/services/gptService.ts:236 | the result is the input with only leading and trailing whitespace (the ECMAScript WhiteSpace and LineTerminator characters) removed, and it neither starts nor ends with whitespace |
| JsStrings.IndexOf | src/services/gptService.ts:297 | the first position holding the value; -1 exactly when the value is absent |
| JsStrings.LastIndexOf | src/services/gptService.ts:146 | the last position holding the value; -1 exactly when the value is absent |
| JsStrings.SplitHead | src/services/gptService.ts:172 | the text before the first occurrence of the separator: no occurrence starts inside it, and the separator follows it unless it is the whole text |
| JsStrings.FindSub | src/services/gptService.ts:172 | the position of the first occurrence of the separator, or -1 when none exists |
| JsStrings.Substring | src/services/gptService.ts:144-147 | the slice between the two positions, with the bounds swapped when the start lies after the end |
| JsStrings.NatToString | src/services/gptService.ts:270 | a non-empty string of decimal digits with no leading zero, whose value is the number |
| JsStrings.IntToString | src/services/gptService.ts:270 | the numeral of a non-negative integer, or "-" before the numeral of its magnitude |
| Json.Lookup | src/services/gptService.ts:252 | `None` exactly when no member has the key; otherwise the value of the first member with that key |
| Json.Get | src/services/gptService.ts:150 | a property read on an object gives the value of the member with that key; on everything else it gives undefined |
| Shuffle.Swap | src/services/gptService.ts:288-291 | the two entries exchanged and every other entry kept |
| Shuffle.StepsPermute | src/services/gptService.ts:286-292 | each run of loop steps only rearranges the entries (the multiset is unchanged) |
| Shuffle.FisherYates | src/services/gptService.ts:286-292 | the shuffle keeps the length and is a permutation of its input |
| Shuffle.StepsCommuteWithSelection | src/services/gptService.ts:286-292 | the loop moves entries by position only: shuffling a selection equals selecting with the shuffled indices |
| Shuffle.ShuffleByIndex | src/services/gptService.ts:286-292 | for given draws, the shuffle applies one fixed index permutation to any sequence of that length |
| Shuffle.Tags | src/services/gptService.ts:283 | the flag at a position is set exactly when that position is the correct answer |
| Shuffle.ShufflePairs | src/services/gptService.ts:281-296 | shuffling the (text, isCorrect) pairs shuffles the texts and the flags by the same permutation |
| Shuffle.ShuffledIsPermutation | src/services/gptService.ts:280-299 | the new options are a permutation of the old ones, and no field other than the options and the answer changes |
| Shuffle.ShuffledKeepsAnswer | src/services/gptService.ts:294-298 | the new answer index points at the option that was correct before; an answer index outside the options becomes -1 |
| Shuffle.ShuffleOptionsAndAnswer | src/services/gptService.ts:280-299 | the in-place loop over an array returns the shuffled question; its options are a permutation, its answer still names the correct option (or -1), and every other field is kept |
| Normalizer.ExtractJsonSpan | src/services/gptService.ts:239-244 | fails with "no JSON" exactly when no `{` comes before a `}`; otherwise gives the text from the first `{` to the last `}` |
| Normalizer.TrimKeepsSpan | src/services/gptService.ts:236-239 | trimming before matching never changes the span found, or whether one is found |
| Normalizer.AnswerIndex | src/services/gptService.ts:254-261 | "A", "B" and "C" map to 0, 1 and 2, each exactly for that letter; anything else, "D" included, maps to 3 |
| Normalizer.Text | src/services/gptService.ts:252 | a field succeeds exactly when it holds a string, and that string is the result |
| Normalizer.MapAll | src/services/gptService.ts:250 | `map` with a throwing callback: it succeeds exactly when every item converts, giving the results in order; otherwise it gives the error of some failing item |
| Normalizer.OptionValues | src/services/gptService.ts:253 | `Object.values`: undefined and null throw; an object succeeds exactly when all its members are strings, and gives its member values in order |
| Normalizer.ExplanationOf | src/services/gptService.ts:262-265 | succeeds exactly when the explanation exists and its `correct` and `key_point` are strings, copying both; every failure is a malformed response |
| Normalizer.SubtopicOf | src/services/gptService.ts:268 | a falsy subtopic gives the topic; a truthy one is kept, non-empty |
| Normalizer.BuildQuestion | src/services/gptService.ts:251-271 | each field of the question comes from its source: the reply's text, options, letter index, explanation and subtopic (else the topic), plus the caller's level, topic and age, and "conceptual"; every failure is a malformed response |
| Normalizer.SchemaOptionsInOrder | src/services/gptService.ts:211-219 | the options object that the schema asks for yields A, B, C, D in that order |
| Normalizer.SchemaQuestionBuilds | src/services/gptService.ts:251-271 | a question shaped as the schema asks always converts: options A..D, the letter as its index, and an empty subtopic replaced by the topic |
| Normalizer.TopicOf | src/services/gptService.ts:93-97 | a related topic is built exactly when `name`, `type` and `reason` are strings; `name` becomes `topic` |
| Normalizer.QuestionOf | src/services/gptService.ts:98-104 | a related question is built exactly when `text`, `type` and `context` are strings; `text` becomes `question` |
| Normalizer.NormaliseTopics | src/services/gptService.ts:93-97 | on an array, succeeds exactly when every entry converts, giving the converted entries in order; anything but an array fails |
| Normalizer.NormaliseQuestions | src/services/gptService.ts:98-104 | on an array, succeeds exactly when every entry converts, giving the converted entries in order; anything but an array fails |
| Normalizer.Paragraph | src/services/gptService.ts:88-92 | undefined and null join as the empty string; a string is kept |
| Normalizer.ExploreOf | src/services/gptService.ts:87-105 | the content is the three paragraphs joined by blank lines, and the topics and questions are the normalised arrays |
| Normalizer.GetExploreContent | src/services/gptService.ts:84-109 | a reply that parses and normalises is returned as normalised; every other reply, including a missing one, gives "Failed to generate explore content" |
| Normalizer.TopicsRoundTrip | src/services/gptService.ts:93-97 | normalising the provider's shape of any list of topics gives that list back |
| Normalizer.QuestionsRoundTrip | src/services/gptService.ts:98-104 | normalising the provider's shape of any list of questions gives that list back |
| Normalizer.ExploreRoundTrip | src/services/gptService.ts:87-105 | provider content with paragraphs p1..p3 gives the response "p1\n\np2\n\np3" with every topic and question kept, renamed and in order |
| Playground.Draws | src/services/gptService.ts:287 | the draws of one question's shuffle lie in `[0, i]` at step `i` |
| Playground.ParseSpan | src/services/gptService.ts:247 | fails with a JSON error exactly when the parser rejects the span; otherwise gives the parser's value |
| Playground.QuestionItems | src/services/gptService.ts:250 | succeeds exactly when `questions` is an array, giving its entries; otherwise a malformed response |
| Playground.BuiltQuestions | src/services/gptService.ts:235-271 | succeeds exactly when the reply yields a `questions` array whose every entry converts, giving one converted question per entry, in order |
| Playground.PlaygroundQuestions | src/services/gptService.ts:235-277 | every failure is a provider failure, a missing span, a JSON error or a malformed response |
| Playground.PlaygroundFailures | src/services/gptService.ts:235-247 | the failures in the order they are met: no reply exactly gives the provider failure; no brace pair exactly gives "no JSON"; a rejected span exactly gives the JSON error |
| Playground.PlaygroundShufflesEach | src/services/gptService.ts:250-277 | the result succeeds exactly when conversion does; each returned question is its converted entry with the options permuted, the same option marked correct, and every other field kept |
| Playground.PlaygroundFields | src/services/gptService.ts:250-271 | each returned question carries the entry's text, a permutation of its option values, its explanation, and its subtopic (else the topic), plus the caller's level, topic and age, and "conceptual" |
| Playground.SchemaReplyQuestion | src/services/gptService.ts:235-277 | a reply holding one schema-shaped question gives one question; its options are a permutation of A..D and the lettered option is still the correct one |
| Stream.ConcatAppend | src/services/gptService.ts:140 | the buffer only grows: after more chunks it extends the earlier buffer |
| Stream.StreamSpan | src/services/gptService.ts:143-147 | with a `{` before a `}`, the substring is exactly the greedy `{...}` span; with a `}` but no such pair, it contains no `{` |
| Stream.TakeQuestions | src/services/gptService.ts:158-164 | the topics are untouched; falsy `questions` keeps the view; otherwise the questions are replaced by the normalised ones, or kept when mapping throws |
| Stream.Absorb | src/services/gptService.ts:142-169 | the view changes only when the buffer holds a `}` and its span parses to an object; then truthy topics that normalise replace the topics, falsy topics keep them, and topics that throw keep the whole view; truthy questions that normalise replace the questions, unless the topics threw |
| Stream.NoBracePairKeepsView | src/services/gptService.ts:142-148 | for a parser whose objects need a `{`, a buffer with no `{` before a `}` never changes the view |
| Stream.ViewChangesFromSpan | src/services/gptService.ts:142-165 | a chunk changes the view only when the whole buffer has a greedy `{...}` span that parses |
| Stream.ObjectAcrossTwoChunks | src/services/gptService.ts:138-169 | an object split across two chunks is not parsed after the first chunk (view stays empty); after the second, the whole buffer is parsed and its topic appears, renamed |
| Stream.UpdatesAfterAt | src/services/gptService.ts:171-175 | the k-th report holds the trimmed text before the first "---" of the first k+1 chunks, and the view they lead to |
| Stream.StreamExploreContent | src/services/gptService.ts:134-176 | the loop makes one report per chunk, and the k-th report is the one determined by the first k+1 chunks |
| RateLimit.Refresh | src/services/api.ts:48-59 | each expired window restarts at `now` with count 0; the others are left alone |
| RateLimit.Check | src/services/api.ts:45-75 | admits exactly when every window is below its ceiling after the resets; on admission, each count is one more than after the resets, and otherwise it is unchanged |
| RateLimit.CheckKeepsWithinLimits | src/services/api.ts:61-71 | no count ever passes its ceiling |
| RateLimit.ExpiryReadmits | src/services/api.ts:48-71 | once a window has run out, a request it alone would have refused is admitted, and that window restarts at `now` with count 1 |
| RateLimit.WindowBudget | src/services/api.ts:48-71 | while a window does not run out, a run of calls admits no more than that window's remaining room |
| RateLimit.AdmittedAppend | src/services/api.ts:45-75 | admissions of two consecutive runs add up |
| RateLimit.Fill | src/services/api.ts:61-71 | calls at one moment within every window, with room for all of them, are all admitted |
| RateLimit.TwoWindowBurst | src/services/api.ts:48-71 | 30 calls within one millisecond, straddling a minute boundary, are all admitted |
| RateLimit.Loaded | src/services/api.ts:18-34 | with empty storage the counts start at 0 and the window starts at `now` |
| RateLimit.LoadSaved | src/services/api.ts:18-43 | a limiter loaded after a save starts from exactly the saved numbers |
| RateLimit.SavedKeepsOtherSlots | src/services/api.ts:36-43 | saving touches the six slots and no other storage key |
| RateLimit.RateLimiter.constructor | src/services/api.ts:18-34 | each number is read from its slot, or from its default |
| RateLimit.RateLimiter.SaveToStorage | src/services/api.ts:36-43 | the six fields are written to their slots |
| RateLimit.RateLimiter.CheckLimit | src/services/api.ts:45-75 | the verdict and new fields are those of `Check`; storage is saved on admission and untouched on refusal |
| Api.TransformQuestion | src/services/api.ts:82-92 | the question type is never empty; a question with a type is kept unchanged; an empty type becomes "conceptual" |
| Api.TransformAll | src/services/api.ts:111-113 | one transformed question per question, in order |
| Api.TransformIdempotent | src/services/api.ts:82-92 | transforming twice is transforming once |
| Api.TransformKeepsGenerated | src/services/api.ts:104-115 | on the generator's questions the transform changes nothing |
| Api.Facade.constructor | src/services/api.ts:78-80 | the facade uses the given limiter, and no generator call has been made |
| Api.Facade.GetQuestion | src/services/api.ts:95-120 | the limiter is consulted first; a refusal gives "rate limit exceeded" without a generator call; otherwise exactly one call is made, and its questions are returned or its failure becomes "Failed to generate question" |
| Api.Facade.Explore | src/services/api.ts:122-137 | the limiter is consulted first; a refusal gives "rate limit exceeded" without a generator call; otherwise exactly one call is made, and its content is returned or its failure becomes "Failed to explore topic" |

## Left out

- The provider calls are not modelled: `makeRequest`, the SDK's `generateContent` and `generateContentStream`, and `chunk.text()`. The reply or the chunk texts are parameters.
- The outer "Failed to stream content" path is not modelled: a throw from the stream or from `onChunk` ends the loop there.
- The prompts, `buildPrompt`, the response schema literal, the temperature, and the random choice of question aspect are not modelled. They only shape the request text.
- `src/services/firebaseConfig.ts` is not part of this model: chat history is stored by the hosted database.
- `JSON.parse` itself is an oracle. Parsed objects are assumed to have distinct keys; the real parser keeps the last duplicate.
- `NoBracePairKeepsView` and `ViewChangesFromSpan` also assume that an object's text contains a `{`.
- The uniformity of the shuffle (each permutation equally likely) is not stated: randomness is a parameter.
- `Date.now()` is a parameter. `localStorage` is a map of integers, so a stored value that `parseInt` reads as NaN is not modelled.
- Numbers are unbounded integers. Floating-point values, and a non-integer `age` or `level`, are not modelled.
- Integer-like keys, which `Object.values` lists first, are not reordered: objects keep insertion order.
- Console logging, `async`/`await`, and interleaving between concurrent calls are not modelled. Calls run one at a time.
- A stored count or time from another page sharing the storage is not modelled.
- The TypeScript field `type` is called `kind`, since `type` is a Dafny keyword.
- The generator call count in `Api.Facade` is a ghost counter. The source has no such counter; it stands for a mock's call count.
- Normalizer.BuildQuestion: where the application's types declare a string but the reply holds another value, the model reports a malformed response. JavaScript would copy the value (or undefined) into the question. The same holds for `Text`, `OptionValues` and `SubtopicOf`.
- Normalizer.TopicOf: a related topic whose `name`, `type` or `reason` is not a string is a malformed response here, where JavaScript would copy the value or undefined. In `Stream.Absorb` this keeps the previous view.
- Normalizer.QuestionOf: a related question whose `text`, `type` or `context` is not a string is a malformed response here, where JavaScript would copy the value or undefined. In `Stream.Absorb` this keeps the previous view.
- Normalizer.OptionValues: a string `options` value is split into Unicode scalar values, one option each. `Object.values` splits it into UTF-16 code units, so a character outside the Basic Multilingual Plane gives one option here and two in JavaScript.
- Normalizer.Paragraph: a paragraph that is a number, boolean, array or object fails here; `Array.prototype.join` would stringify it.
- Playground.PlaygroundQuestions: the error raised for each failure is stated, and the questions are described by `PlaygroundShufflesEach` and `PlaygroundFields` rather than by its own contract.
