/**
 * `GPTService.shuffleOptionsAndAnswer`: a descending Fisher–Yates shuffle over
 * (option, isCorrect) pairs, followed by a scan for the pair flagged correct.
 * `Math.random` is replaced by caller-supplied draws: `js[i]` is the index
 * `Math.floor(Math.random() * (i + 1))` drawn at step `i`, so `js[i] <= i`.
 */
module Shuffle {
  import opened Types
  import opened JsStrings

  /** Draws for a shuffle of `n` entries: one per step, `js[i]` in `[0, i]`
      (`js[0]` is never used, and is 0). */
  predicate ValidDraws(js: seq<nat>, n: nat) {
    |js| == n && forall i :: 0 <= i < n ==> js[i] <= i
  }

  /** The destructuring swap `[a[i], a[j]] = [a[j], a[i]]` on a sequence. */
  function Swap<T>(s: seq<T>, i: nat, j: nat): (r: seq<T>)
    requires i < |s| && j < |s|
    ensures |r| == |s| && r[i] == s[j] && r[j] == s[i]
    ensures forall k :: 0 <= k < |s| && k != i && k != j ==> r[k] == s[k]
  {
    s[i := s[j]][j := s[i]]
  }

  /** Steps `i, i - 1, ..., 1` of the shuffle loop applied to `s`. */
  function Steps<T>(s: seq<T>, js: seq<nat>, i: int): (r: seq<T>)
    requires ValidDraws(js, |s|) && i < |s|
    ensures |r| == |s|
    decreases i
  {
    if i <= 0 then s else Steps(Swap(s, i, js[i]), js, i - 1)
  }

  /** Every step is a swap, so the loop only rearranges its input. */
  lemma {:induction false} StepsPermute<T>(s: seq<T>, js: seq<nat>, i: int)
    requires ValidDraws(js, |s|) && i < |s|
    ensures multiset(Steps(s, js, i)) == multiset(s)
    decreases i
  {
    if i > 0 {
      var t := Swap(s, i, js[i]);
      assert t == s[i := s[js[i]]][js[i] := s[i]];
      StepsPermute(t, js, i - 1);
    }
  }

  /** The whole loop, from `i = |s| - 1` down to 1. */
  function FisherYates<T>(s: seq<T>, js: seq<nat>): (r: seq<T>)
    requires ValidDraws(js, |s|)
    ensures |r| == |s|
    ensures multiset(r) == multiset(s)
  {
    StepsPermute(s, js, |s| - 1);
    Steps(s, js, |s| - 1)
  }

  function Range(n: nat): (r: seq<nat>)
    ensures |r| == n && forall k :: 0 <= k < n ==> r[k] == k
  {
    seq(n, k => k)
  }

  /** Every index in `p` is below `n`. */
  predicate IndicesBelow(p: seq<nat>, n: nat) {
    forall k :: 0 <= k < |p| ==> p[k] < n
  }

  /** The entries of `s` picked out in the order the indices `p` give. */
  function Compose<T>(s: seq<T>, p: seq<nat>): (r: seq<T>)
    requires IndicesBelow(p, |s|)
    ensures |r| == |p| && forall k :: 0 <= k < |p| ==> r[k] == s[p[k]]
  {
    seq(|p|, k requires 0 <= k < |p| => s[p[k]])
  }

  /** Swapping two picks of a selection is selecting with the swapped indices. */
  lemma SwapCommutesWithSelection<T>(s: seq<T>, p: seq<nat>, i: nat, j: nat)
    requires IndicesBelow(p, |s|) && i < |p| && j < |p|
    ensures IndicesBelow(Swap(p, i, j), |s|) && Swap(Compose(s, p), i, j) == Compose(s, Swap(p, i, j))
  {
  }

  /** The loop moves entries by position only: shuffling a selection of `s`
      selects from `s` with the shuffled indices. */
  lemma {:induction false} StepsCommuteWithSelection<T>(s: seq<T>, p: seq<nat>, js: seq<nat>, i: int)
    requires ValidDraws(js, |p|) && i < |p|
    requires IndicesBelow(p, |s|)
    ensures IndicesBelow(Steps(p, js, i), |s|) && Steps(Compose(s, p), js, i) == Compose(s, Steps(p, js, i))
    decreases i
  {
    if i > 0 {
      SwapCommutesWithSelection(s, p, i, js[i]);
      StepsCommuteWithSelection(s, Swap(p, i, js[i]), js, i - 1);
    }
  }

  /** Selecting every index in order gives `s` back. */
  lemma SelectAll<T>(s: seq<T>)
    ensures IndicesBelow(Range(|s|), |s|) && Compose(s, Range(|s|)) == s
  {
  }

  /** The shuffle applies one index permutation `P = FisherYates(Range(n), js)` to
      whatever sequence of length `n` it is given. */
  lemma ShuffleByIndex<T>(s: seq<T>, js: seq<nat>)
    requires ValidDraws(js, |s|)
    ensures IndicesBelow(FisherYates(Range(|s|), js), |s|) && FisherYates(s, js) == Compose(s, FisherYates(Range(|s|), js))
  {
    SelectAll(s);
    StepsCommuteWithSelection(s, Range(|s|), js, |s| - 1);
  }

  /** `isCorrect` for each original position. */
  function Tags(n: nat, c: int): (r: seq<bool>)
    ensures |r| == n && forall k :: 0 <= k < n ==> (r[k] <==> k == c)
  {
    seq(n, k => k == c)
  }

  /** The question `shuffleOptionsAndAnswer` returns for the given draws: options
      shuffled, `correctAnswer` the first position whose pair is flagged correct
      (-1 when none is, as `findIndex` reports), every other field copied. */
  function Shuffled(q: Question, js: seq<nat>): Question
    requires ValidDraws(js, |q.options|)
  {
    q.(options := FisherYates(q.options, js),
       correctAnswer := IndexOf(FisherYates(Tags(|q.options|, q.correctAnswer), js), true))
  }

  /** The shuffled options are a permutation of the original ones, and nothing but
      `options` and `correctAnswer` changes. */
  lemma ShuffledIsPermutation(q: Question, js: seq<nat>)
    requires ValidDraws(js, |q.options|)
    ensures |Shuffled(q, js).options| == |q.options|
    ensures multiset(Shuffled(q, js).options) == multiset(q.options)
    ensures Shuffled(q, js).(options := q.options, correctAnswer := q.correctAnswer) == q
  {
  }

  /** The new `correctAnswer` points at the option that was correct before; a
      `correctAnswer` outside the options becomes -1. */
  lemma ShuffledKeepsAnswer(q: Question, js: seq<nat>)
    requires ValidDraws(js, |q.options|)
    ensures var r := Shuffled(q, js);
      0 <= q.correctAnswer < |q.options| ==>
        0 <= r.correctAnswer < |r.options| && r.options[r.correctAnswer] == q.options[q.correctAnswer]
    ensures !(0 <= q.correctAnswer < |q.options|) ==> Shuffled(q, js).correctAnswer == -1
  {
    var n, c := |q.options|, q.correctAnswer;
    var p := FisherYates(Range(n), js);
    ShuffleByIndex(q.options, js);
    ShuffleByIndex(Tags(n, c), js);
    var flags := FisherYates(Tags(n, c), js);
    assert forall k :: 0 <= k < n ==> (flags[k] <==> p[k] == c);
    var r := Shuffled(q, js);
    if 0 <= c < n {
      assert Range(n)[c] == c;
      assert c in multiset(p);
      var m := IndexOf(p, c);
      assert flags[m];
    } else {
      assert true !in flags;
    }
  }

  /** One entry of the array the source shuffles. */
  datatype Slot = Slot(text: string, isCorrect: bool)

  /** `question.options.map((opt, idx) => ({text: opt, isCorrect: idx === question.correctAnswer}))` */
  function Pairs(options: seq<string>, c: int): (r: seq<Slot>)
    ensures |r| == |options|
  {
    seq(|options|, k requires 0 <= k < |options| => Slot(options[k], k == c))
  }

  function Texts(slots: seq<Slot>): (r: seq<string>)
    ensures |r| == |slots|
  {
    seq(|slots|, k requires 0 <= k < |slots| => slots[k].text)
  }

  function Flags(slots: seq<Slot>): (r: seq<bool>)
    ensures |r| == |slots|
  {
    seq(|slots|, k requires 0 <= k < |slots| => slots[k].isCorrect)
  }

  /** Shuffling the pairs shuffles the options and the correctness flags alike. */
  lemma ShufflePairs(options: seq<string>, c: int, js: seq<nat>)
    requires ValidDraws(js, |options|)
    ensures Texts(FisherYates(Pairs(options, c), js)) == FisherYates(options, js)
    ensures Flags(FisherYates(Pairs(options, c), js)) == FisherYates(Tags(|options|, c), js)
  {
    ShuffleByIndex(Pairs(options, c), js);
    ShuffleByIndex(options, js);
    ShuffleByIndex(Tags(|options|, c), js);
  }

  /** `shuffleOptionsAndAnswer(question)`, with the random draws supplied. */
  method ShuffleOptionsAndAnswer(question: Question, js: seq<nat>) returns (r: Question)
    requires ValidDraws(js, |question.options|)
    ensures r == Shuffled(question, js)
    ensures r.(options := question.options, correctAnswer := question.correctAnswer) == question
    ensures multiset(r.options) == multiset(question.options)
    ensures 0 <= question.correctAnswer < |question.options| ==>
      0 <= r.correctAnswer < |r.options| && r.options[r.correctAnswer] == question.options[question.correctAnswer]
    ensures !(0 <= question.correctAnswer < |question.options|) ==> r.correctAnswer == -1
  {
    var n := |question.options|;
    var a := new Slot[n](k requires 0 <= k < n => Slot(question.options[k], k == question.correctAnswer));
    ghost var initial := a[..];
    assert initial == Pairs(question.options, question.correctAnswer);
    var i := n - 1;
    while i > 0
      invariant -1 <= i < n && (n > 0 ==> 0 <= i)
      invariant Steps(a[..], js, i) == FisherYates(initial, js)
    {
      var j := js[i];
      ghost var before := a[..];
      a[i], a[j] := a[j], a[i];
      assert a[..] == Swap(before, i, j);
      i := i - 1;
    }
    var slots := a[..];
    r := question.(options := Texts(slots), correctAnswer := IndexOf(Flags(slots), true));
    ShufflePairs(question.options, question.correctAnswer, js);
    ShuffledIsPermutation(question, js);
    ShuffledKeepsAnswer(question, js);
  }
}
