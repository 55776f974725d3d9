/**
 * The client-side `RateLimiter` of the API facade: three fixed windows (a minute,
 * an hour and a day), each with a request count and a start time, persisted in six
 * named storage slots.
 *
 * `Date.now()` is the `now` parameter and `localStorage` is the `storage` map, which
 * holds the numbers `parseInt` would read back.
 */
module RateLimit {

  /** The three windows. */
  datatype Span = Minute | Hour | Day

  /** The ceilings: 15 a minute, 250 an hour, 500 a day. */
  function Limit(w: Span): int {
    match w
    case Minute => 15
    case Hour => 250
    case Day => 500
  }

  /** The window lengths in milliseconds. */
  function Duration(w: Span): int {
    match w
    case Minute => 60000
    case Hour => 3600000
    case Day => 86400000
  }

  /** The six numbers the limiter keeps. */
  datatype Counters = Counters(minuteRequests: int, hourRequests: int, dayRequests: int,
                               lastMinute: int, lastHour: int, lastDay: int)
  {
    function Count(w: Span): int {
      match w
      case Minute => minuteRequests
      case Hour => hourRequests
      case Day => dayRequests
    }

    function Start(w: Span): int {
      match w
      case Minute => lastMinute
      case Hour => lastHour
      case Day => lastDay
    }
  }

  /** A window is over once strictly more than its length has passed since it began. */
  predicate Expired(c: Counters, w: Span, now: int) {
    now - c.Start(w) > Duration(w)
  }

  /** The count a window holds at `now`, after the reset. */
  function CountAt(c: Counters, w: Span, now: int): int {
    if Expired(c, w, now) then 0 else c.Count(w)
  }

  /** The three resets of `checkLimit`: an expired window restarts at `now` with no
      requests; the others are left alone. */
  function Refresh(c: Counters, now: int): (r: Counters)
    ensures forall w :: r.Count(w) == CountAt(c, w, now)
    ensures forall w :: r.Start(w) == if Expired(c, w, now) then now else c.Start(w)
  {
    Counters(CountAt(c, Minute, now), CountAt(c, Hour, now), CountAt(c, Day, now),
             if Expired(c, Minute, now) then now else c.lastMinute,
             if Expired(c, Hour, now) then now else c.lastHour,
             if Expired(c, Day, now) then now else c.lastDay)
  }

  /** Some window has reached its ceiling. */
  predicate Saturated(c: Counters) {
    c.minuteRequests >= Limit(Minute) || c.hourRequests >= Limit(Hour) || c.dayRequests >= Limit(Day)
  }

  datatype Outcome = Outcome(admitted: bool, next: Counters)

  /** `checkLimit()` at time `now`: the verdict and the six numbers afterwards. */
  function Check(c: Counters, now: int): (r: Outcome)
    ensures r.admitted <==> forall w :: CountAt(c, w, now) < Limit(w)
    ensures forall w :: r.next.Start(w) == if Expired(c, w, now) then now else c.Start(w)
    ensures forall w :: r.next.Count(w) == CountAt(c, w, now) + (if r.admitted then 1 else 0)
  {
    var f := Refresh(c, now);
    assert Saturated(f) <==> exists w :: CountAt(c, w, now) >= Limit(w) by {
      assert f.Count(Minute) == f.minuteRequests && f.Count(Hour) == f.hourRequests && f.Count(Day) == f.dayRequests;
    }
    if Saturated(f) then Outcome(false, f)
    else
      var r := f.(minuteRequests := f.minuteRequests + 1, hourRequests := f.hourRequests + 1,
                  dayRequests := f.dayRequests + 1);
      assert forall w :: r.Count(w) == f.Count(w) + 1;
      Outcome(true, r)
  }

  /** No window holds more than its ceiling. */
  predicate WithinLimits(c: Counters) {
    forall w :: c.Count(w) <= Limit(w)
  }

  /** The counts never pass their ceilings. */
  lemma CheckKeepsWithinLimits(c: Counters, now: int)
    requires WithinLimits(c)
    ensures WithinLimits(Check(c, now).next)
  {
    var r := Check(c, now);
    forall w ensures r.next.Count(w) <= Limit(w) {
      assert CountAt(c, w, now) <= c.Count(w) || CountAt(c, w, now) == 0;
    }
  }

  /** A window that has run out admits again a request it alone would have refused,
      as long as the other windows have room. */
  lemma ExpiryReadmits(c: Counters, w: Span, now: int)
    requires Expired(c, w, now)
    requires forall v :: v != w ==> CountAt(c, v, now) < Limit(v)
    ensures Check(c, now).admitted
    ensures Check(c, now).next.Count(w) == 1 && Check(c, now).next.Start(w) == now
  {
  }

  /** The verdicts and final numbers of a run of calls at the times `nows`. */
  function Run(c: Counters, nows: seq<int>): (r: (seq<bool>, Counters))
    ensures |r.0| == |nows|
    decreases |nows|
  {
    if |nows| == 0 then ([], c)
    else
      var o := Check(c, nows[0]);
      var rest := Run(o.next, nows[1..]);
      ([o.admitted] + rest.0, rest.1)
  }

  /** How many calls of a run are admitted. */
  function Admitted(c: Counters, nows: seq<int>): nat
    decreases |nows|
  {
    if |nows| == 0 then 0
    else
      var o := Check(c, nows[0]);
      (if o.admitted then 1 else 0) + Admitted(o.next, nows[1..])
  }

  function Max(a: int, b: int): int {
    if a >= b then a else b
  }

  /** While a window does not run out, it admits no more than the room it had at the
      start of the run. */
  lemma {:induction false} WindowBudget(c: Counters, nows: seq<int>, w: Span)
    requires forall i :: 0 <= i < |nows| ==> !Expired(c, w, nows[i])
    ensures Admitted(c, nows) <= Max(0, Limit(w) - c.Count(w))
    decreases |nows|
  {
    if |nows| > 0 {
      var o := Check(c, nows[0]);
      assert o.next.Start(w) == c.Start(w);
      forall i | 0 <= i < |nows[1..]| ensures !Expired(o.next, w, nows[1..][i]) {
        assert nows[1..][i] == nows[i + 1];
      }
      WindowBudget(o.next, nows[1..], w);
    }
  }

  /** Admissions add up over consecutive runs. */
  lemma {:induction false} AdmittedAppend(c: Counters, xs: seq<int>, ys: seq<int>)
    ensures Admitted(c, xs + ys) == Admitted(c, xs) + Admitted(Run(c, xs).1, ys)
    decreases |xs|
  {
    if |xs| == 0 {
      assert xs + ys == ys;
    } else {
      var o := Check(c, xs[0]);
      assert (xs + ys)[1..] == xs[1..] + ys;
      AdmittedAppend(o.next, xs[1..], ys);
    }
  }

  /** `n` calls at one moment at which no window runs out, with room for all of
      them, are all admitted. */
  lemma {:induction false} Fill(c: Counters, now: int, n: nat)
    requires forall w :: !Expired(c, w, now) && c.Count(w) + n <= Limit(w)
    ensures Admitted(c, seq(n, _ => now)) == n
    ensures var f := Run(c, seq(n, _ => now)).1;
      forall w :: f.Count(w) == c.Count(w) + n && f.Start(w) == c.Start(w)
    decreases n
  {
    if n > 0 {
      var o := Check(c, now);
      assert o.admitted;
      assert seq(n, _ => now)[1..] == seq(n - 1, _ => now);
      Fill(o.next, now, n - 1);
    }
  }

  /** Right after a minute window runs out, with 15 calls in the hour and day windows
      begun at `t`, 15 calls at one moment are admitted. */
  lemma {:induction false} RefilledMinute(m: Counters, t: int)
    requires m == Counters(15, 15, 15, t, t, t)
    ensures Admitted(m, seq(15, _ => t + 60001)) == 15
  {
    var now := t + 60001;
    var o := Check(m, now);
    assert Expired(m, Minute, now) && !Expired(m, Hour, now) && !Expired(m, Day, now);
    assert o.admitted;
    assert o.next.Count(Minute) == 1 && o.next.Count(Hour) == 16 && o.next.Count(Day) == 16;
    Fill(o.next, now, 14);
    assert seq(15, _ => now)[1..] == seq(14, _ => now);
  }

  /** The windows are fixed, not sliding: 30 calls within a millisecond, 15 at the
      end of one minute window and 15 at the start of the next, are all admitted. */
  lemma TwoWindowBurst(t: int)
    ensures var c := Counters(0, 0, 0, t, t, t);
      Admitted(c, seq(15, _ => t + 60000) + seq(15, _ => t + 60001)) == 30
  {
    var c := Counters(0, 0, 0, t, t, t);
    var xs, ys := seq(15, _ => t + 60000), seq(15, _ => t + 60001);
    Fill(c, t + 60000, 15);
    var m := Run(c, xs).1;
    assert m == Counters(15, 15, 15, t, t, t) by {
      assert m.Count(Minute) == 15 && m.Count(Hour) == 15 && m.Count(Day) == 15;
      assert m.Start(Minute) == t && m.Start(Hour) == t && m.Start(Day) == t;
    }
    RefilledMinute(m, t);
    AdmittedAppend(c, xs, ys);
  }

  /** The six storage slots and their defaults when absent: counts 0, starts `now`. */
  function Slot(store: map<string, int>, key: string, default: int): int {
    if key in store then store[key] else default
  }

  /** What the constructor reads back from storage. */
  function Loaded(store: map<string, int>, now: int): (c: Counters)
    ensures store == map[] ==> c == Counters(0, 0, 0, now, now, now)
  {
    Counters(Slot(store, "minuteRequests", 0), Slot(store, "hourRequests", 0), Slot(store, "dayRequests", 0),
             Slot(store, "lastMinute", now), Slot(store, "lastHour", now), Slot(store, "lastDay", now))
  }

  /** `saveToStorage()`: the six numbers written to their slots. */
  function Saved(store: map<string, int>, c: Counters): map<string, int> {
    store["minuteRequests" := c.minuteRequests]["hourRequests" := c.hourRequests]
         ["dayRequests" := c.dayRequests]["lastMinute" := c.lastMinute]
         ["lastHour" := c.lastHour]["lastDay" := c.lastDay]
  }

  /** A limiter built after a save starts from the numbers saved, whatever the time. */
  lemma LoadSaved(store: map<string, int>, c: Counters, now: int)
    ensures Loaded(Saved(store, c), now) == c
  {
  }

  /** Saving touches the six slots and nothing else in storage. */
  lemma SavedKeepsOtherSlots(store: map<string, int>, c: Counters, key: string)
    requires key !in {"minuteRequests", "hourRequests", "dayRequests", "lastMinute", "lastHour", "lastDay"}
    ensures key in Saved(store, c) <==> key in store
    ensures key in store ==> Saved(store, c)[key] == store[key]
  {
  }

  class RateLimiter {
    var minuteRequests: int
    var hourRequests: int
    var dayRequests: int
    var lastMinute: int
    var lastHour: int
    var lastDay: int
    /** `localStorage`, shared with the rest of the page. */
    var storage: map<string, int>

    function State(): Counters
      reads this
    {
      Counters(minuteRequests, hourRequests, dayRequests, lastMinute, lastHour, lastDay)
    }

    /** `new RateLimiter()`: each number from its slot, or its default. */
    constructor (store: map<string, int>, now: int)
      ensures State() == Loaded(store, now) && storage == store
    {
      minuteRequests := Slot(store, "minuteRequests", 0);
      hourRequests := Slot(store, "hourRequests", 0);
      dayRequests := Slot(store, "dayRequests", 0);
      lastMinute := Slot(store, "lastMinute", now);
      lastHour := Slot(store, "lastHour", now);
      lastDay := Slot(store, "lastDay", now);
      storage := store;
    }

    method SaveToStorage()
      modifies this`storage
      ensures storage == Saved(old(storage), State())
    {
      storage := storage["minuteRequests" := minuteRequests];
      storage := storage["hourRequests" := hourRequests];
      storage := storage["dayRequests" := dayRequests];
      storage := storage["lastMinute" := lastMinute];
      storage := storage["lastHour" := lastHour];
      storage := storage["lastDay" := lastDay];
    }

    /** `checkLimit()` at time `now`. The numbers change as `Check` says; storage is
        written only when the call is admitted, so resets made by a refused call are
        lost on reload. */
    method CheckLimit(now: int) returns (ok: bool)
      modifies this
      ensures Outcome(ok, State()) == Check(old(State()), now)
      ensures ok ==> storage == Saved(old(storage), State())
      ensures !ok ==> storage == old(storage)
    {
      if now - lastMinute > 60000 {
        minuteRequests := 0;
        lastMinute := now;
      }
      if now - lastHour > 3600000 {
        hourRequests := 0;
        lastHour := now;
      }
      if now - lastDay > 86400000 {
        dayRequests := 0;
        lastDay := now;
      }
      if minuteRequests >= 15 || hourRequests >= 250 || dayRequests >= 500 {
        return false;
      }
      minuteRequests := minuteRequests + 1;
      hourRequests := hourRequests + 1;
      dayRequests := dayRequests + 1;
      SaveToStorage();
      return true;
    }
  }
}
