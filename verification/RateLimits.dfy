/** The sliding-window rate limiter of agent/channels/limits.py. Times are real numbers. The clock is read before the
    lock is taken, so calls may arrive out of the order of their times; `late` is by how much they did so far. */
module RateLimits {
  type Key = nat

  // The accepted times later than the cutoff.
  function Recent(log: seq<real>, cutoff: real): (r: seq<real>)
    ensures |r| <= |log|
  {
    if log == [] then []
    else (if log[0] > cutoff then [log[0]] else []) + Recent(log[1..], cutoff)
  }

  // How many accepted times lie in the window from `low`, exclusive, to `high`, inclusive.
  function InWindow(log: seq<real>, low: real, high: real): nat {
    if log == [] then 0
    else InWindow(log[..|log| - 1], low, high) + if low < log[|log| - 1] <= high then 1 else 0
  }

  // What popping from the front leaves.
  function Pruned(queue: seq<real>, cutoff: real): seq<real> {
    if queue != [] && queue[0] <= cutoff then Pruned(queue[1..], cutoff) else queue
  }

  // No time comes before an earlier entry by more than `late`.
  predicate NearlySorted(log: seq<real>, late: real) {
    forall i, j :: 0 <= i < j < |log| ==> log[i] <= log[j] + late
  }

  // Of accepted times `limit` or more places apart the first is out of the window of the last.
  predicate Spaced(log: seq<real>, limit: int, window: real) {
    forall i, j :: 0 <= i < |log| && 0 <= j < |log| && i + limit <= j ==> log[i] <= log[j] - window
  }

  predicate AllUpTo(log: seq<real>, time: real) {
    forall i :: 0 <= i < |log| ==> log[i] <= time
  }

  predicate AllAfter(log: seq<real>, time: real) {
    forall i :: 0 <= i < |log| ==> log[i] > time
  }

  // ----- counting recent times -----

  lemma {:induction false} RecentAppend(a: seq<real>, b: seq<real>, cutoff: real)
    ensures Recent(a + b, cutoff) == Recent(a, cutoff) + Recent(b, cutoff)
  {
    if a == [] {
      assert a + b == b;
    } else {
      var first := if a[0] > cutoff then [a[0]] else [];
      RecentAppend(a[1..], b, cutoff);
      assert (a + b)[1..] == a[1..] + b;
      assert Recent(a + b, cutoff) == first + (Recent(a[1..], cutoff) + Recent(b, cutoff));
    }
  }

  lemma {:induction false} NoneRecent(log: seq<real>, cutoff: real)
    requires AllUpTo(log, cutoff)
    ensures Recent(log, cutoff) == []
  {
    if log != [] {
      NoneRecent(log[1..], cutoff);
    }
  }

  lemma {:induction false} AllRecent(log: seq<real>, cutoff: real)
    requires AllAfter(log, cutoff)
    ensures Recent(log, cutoff) == log
  {
    if log != [] {
      AllRecent(log[1..], cutoff);
      assert log == [log[0]] + log[1..];
    }
  }

  // ----- popping -----

  // How many entries are popped.
  function Popped(queue: seq<real>, cutoff: real): (n: nat)
    ensures n <= |queue|
  {
    if queue != [] && queue[0] <= cutoff then 1 + Popped(queue[1..], cutoff) else 0
  }

  // Popping leaves an end of the queue, and all it takes is old.
  lemma {:induction false} PrunedIsEnd(queue: seq<real>, cutoff: real)
    ensures Pruned(queue, cutoff) == queue[Popped(queue, cutoff)..]
    ensures AllUpTo(queue[..Popped(queue, cutoff)], cutoff)
    ensures Popped(queue, cutoff) < |queue| ==> queue[Popped(queue, cutoff)] > cutoff
  {
    if queue != [] && queue[0] <= cutoff {
      var n := Popped(queue[1..], cutoff);
      PrunedIsEnd(queue[1..], cutoff);
      assert queue[1..][n..] == queue[n + 1..];
      assert queue[..n + 1] == [queue[0]] + queue[1..][..n];
    }
  }

  // What stays is newer than the cutoff up to the lateness: only the front was looked at.
  lemma PrunedIsNew(queue: seq<real>, cutoff: real, late: real)
    requires NearlySorted(queue, late) && late >= 0.0
    ensures AllAfter(Pruned(queue, cutoff), cutoff - late)
  {
    PrunedIsEnd(queue, cutoff);
    var n := Popped(queue, cutoff);
    forall i | 0 <= i < |queue| - n ensures queue[n..][i] > cutoff - late {
      assert queue[n..][i] == queue[n + i];
    }
  }

  /** On times in order the pruned deque is exactly the recent part of what was in it. */
  lemma PrunedIsRecent(queue: seq<real>, cutoff: real)
    requires NearlySorted(queue, 0.0)
    ensures Pruned(queue, cutoff) == Recent(queue, cutoff)
  {
    var n := Popped(queue, cutoff);
    PrunedIsEnd(queue, cutoff);
    PrunedIsNew(queue, cutoff, 0.0);
    assert cutoff - 0.0 == cutoff;
    RecentOfParts(queue, n, cutoff);
  }

  lemma RecentOfParts(log: seq<real>, n: nat, cutoff: real)
    requires n <= |log| && AllUpTo(log[..n], cutoff) && AllAfter(log[n..], cutoff)
    ensures Recent(log, cutoff) == log[n..]
  {
    NoneRecent(log[..n], cutoff);
    AllRecent(log[n..], cutoff);
    RecentAppend(log[..n], log[n..], cutoff);
    assert log == log[..n] + log[n..];
  }

  // ----- one key -----

  // The deque of a key, every time accepted for it, the latest time of any call and the greatest lateness so far.
  datatype Bucket = Bucket(queue: seq<real>, log: seq<real>, latest: real, late: real)

  // The first `dropped` entries of the log are old, the others are the queue.
  predicate SplitAt(log: seq<real>, queue: seq<real>, dropped: int, time: real) {
    0 <= dropped <= |log| && queue == log[dropped..] && AllUpTo(log[..dropped], time)
  }

  // The log is what was dropped and the queue, and what was dropped is out of the window of the latest call.
  predicate QueueIsEnd(b: Bucket, window: real) {
    SplitAt(b.log, b.queue, |b.log| - |b.queue|, b.latest - window)
  }

  predicate BucketSound(b: Bucket, limit: int, window: real) {
    && limit >= 1 && window > 0.0 && b.late >= 0.0
    && QueueIsEnd(b, window)
    && AllUpTo(b.log, b.latest) && NearlySorted(b.log, b.late) && Spaced(b.log, limit, window - b.late)
  }

  function Max(a: real, b: real): real {
    if a < b then b else a
  }

  // One decision and the deque it leaves.
  function Decision(queue: seq<real>, now: real, limit: int, window: real): (bool, seq<real>) {
    var kept := Pruned(queue, now - window);
    if |kept| < limit then (true, kept + [now]) else (false, kept)
  }

  // The bucket after one call.
  function Next(b: Bucket, now: real, limit: int, window: real): Bucket {
    var (allowed, queue) := Decision(b.queue, now, limit, window);
    Bucket(queue, if allowed then b.log + [now] else b.log, Max(b.latest, now), Max(b.late, b.latest - now))
  }

  // The bucket with the expired front popped, before the decision.
  function Swept(b: Bucket, now: real, window: real): Bucket {
    Bucket(Pruned(b.queue, now - window), b.log, Max(b.latest, now), Max(b.late, b.latest - now))
  }

  lemma UpToLater(log: seq<real>, time: real, later: real)
    requires AllUpTo(log, time) && time <= later
    ensures AllUpTo(log, later)
  {}

  lemma UpToAppend(a: seq<real>, b: seq<real>, time: real)
    requires AllUpTo(a, time) && AllUpTo(b, time)
    ensures AllUpTo(a + b, time)
  {}

  // Popping moves the front of the queue to the dropped entries.
  lemma PoppingSplits(log: seq<real>, queue: seq<real>, dropped: int, time: real, cutoff: real, later: real)
    requires SplitAt(log, queue, dropped, time) && time <= later && cutoff <= later
    ensures SplitAt(log, Pruned(queue, cutoff), dropped + Popped(queue, cutoff), later)
  {
    var n := Popped(queue, cutoff);
    PrunedIsEnd(queue, cutoff);
    UpToLater(log[..dropped], time, later);
    UpToLater(queue[..n], cutoff, later);
    UpToAppend(log[..dropped], queue[..n], later);
    assert log[..dropped + n] == log[..dropped] + queue[..n];
    assert queue[n..] == log[dropped + n..];
  }

  lemma SweptQueue(b: Bucket, now: real, window: real)
    requires QueueIsEnd(b, window)
    ensures QueueIsEnd(Swept(b, now, window), window)
  {
    var dropped, later := |b.log| - |b.queue|, Max(b.latest, now) - window;
    PoppingSplits(b.log, b.queue, dropped, b.latest - window, now - window, later);
    var s := Swept(b, now, window);
    assert dropped + Popped(b.queue, now - window) == |s.log| - |s.queue|;
  }

  lemma SweptSound(b: Bucket, now: real, limit: int, window: real)
    requires BucketSound(b, limit, window)
    ensures BucketSound(Swept(b, now, window), limit, window)
  {
    SweptQueue(b, now, window);
  }

  // Accepting a call no later than the latest by more than `late`.
  lemma AcceptOrder(log: seq<real>, now: real, latest: real, late: real)
    requires AllUpTo(log, latest) && NearlySorted(log, late) && latest <= now + late
    ensures NearlySorted(log + [now], late)
  {}

  // With fewer than `limit` times in the queue, everything `limit` places back was dropped.
  lemma AcceptSpaced(b: Bucket, now: real, limit: int, window: real)
    requires BucketSound(b, limit, window) && |b.queue| < limit && b.latest <= now + b.late
    ensures Spaced(b.log + [now], limit, window - b.late)
  {
    var all, n := b.log + [now], |b.log|;
    forall i | 0 <= i && i + limit <= n ensures all[i] <= now - (window - b.late) {
      assert b.log[..n - |b.queue|][i] == b.log[i];
    }
  }

  lemma AcceptQueue(b: Bucket, now: real, window: real)
    requires QueueIsEnd(b, window)
    ensures QueueIsEnd(b.(queue := b.queue + [now], log := b.log + [now]), window)
  {
    var n := |b.log| - |b.queue|;
    assert (b.log + [now])[n..] == b.log[n..] + [now];
    assert (b.log + [now])[..n] == b.log[..n];
  }

  lemma AcceptSound(b: Bucket, now: real, limit: int, window: real)
    requires BucketSound(b, limit, window) && |b.queue| < limit && now <= b.latest <= now + b.late
    ensures BucketSound(b.(queue := b.queue + [now], log := b.log + [now]), limit, window)
  {
    AcceptOrder(b.log, now, b.latest, b.late);
    AcceptSpaced(b, now, limit, window);
    AcceptQueue(b, now, window);
    UpToAppend(b.log, [now], b.latest);
  }

  /** Every call keeps the bucket sound, in whatever order the calls come. */
  lemma NextSound(b: Bucket, now: real, limit: int, window: real)
    requires BucketSound(b, limit, window)
    ensures BucketSound(Next(b, now, limit, window), limit, window)
  {
    var s := Swept(b, now, window);
    SweptSound(b, now, limit, window);
    NextOfSwept(b, now, limit, window);
    if |s.queue| < limit {
      AcceptSound(s, now, limit, window);
    }
  }

  lemma NextOfSwept(b: Bucket, now: real, limit: int, window: real)
    requires b.late >= 0.0
    ensures
      var s := Swept(b, now, window);
      && s.latest <= now + s.late && now <= s.latest
      && Next(b, now, limit, window)
         == if |s.queue| < limit then s.(queue := s.queue + [now], log := s.log + [now]) else s
  {}

  // Fewer than `limit` accepted times are later than the cutoff.
  predicate HasRoom(log: seq<real>, cutoff: real, limit: int) {
    |Recent(log, cutoff)| < limit
  }

  // All the log holds after a cutoff behind which everything was dropped is in the queue.
  lemma QueueHoldsRecent(b: Bucket, cutoff: real, window: real)
    requires QueueIsEnd(b, window) && b.latest - window <= cutoff
    ensures |Recent(b.log, cutoff)| <= |b.queue|
  {
    var n := |b.log| - |b.queue|;
    var dropped := b.log[..n];
    assert b.log == dropped + b.queue;
    NoneRecent(dropped, cutoff);
    RecentAppend(dropped, b.queue, cutoff);
  }

  lemma RecentHoldsQueue(b: Bucket, cutoff: real, window: real)
    requires QueueIsEnd(b, window) && AllAfter(b.queue, cutoff)
    ensures |b.queue| <= |Recent(b.log, cutoff)|
  {
    var n := |b.log| - |b.queue|;
    var dropped := b.log[..n];
    assert b.log == dropped + b.queue;
    AllRecent(b.queue, cutoff);
    RecentAppend(dropped, b.queue, cutoff);
  }

  lemma EndNearlySorted(log: seq<real>, n: nat, late: real, later: real)
    requires n <= |log| && NearlySorted(log, late) && late <= later
    ensures NearlySorted(log[n..], later)
  {}

  // What a decision may be, given the history before it and the lateness after it.
  predicate DecidedByLog(allowed: bool, log: seq<real>, now: real, late: real, limit: int, window: real) {
    && (allowed ==> HasRoom(log, now + late - window, limit))
    && (!allowed ==> !HasRoom(log, now - late - window, limit))
  }

  // The swept queue is as long as the recent log, up to the lateness.
  lemma SweptCounts(b: Bucket, now: real, limit: int, window: real)
    requires BucketSound(b, limit, window)
    ensures
      var s := Swept(b, now, window);
      |Recent(b.log, now + s.late - window)| <= |s.queue| <= |Recent(b.log, now - s.late - window)|
  {
    var s := Swept(b, now, window);
    SweptQueue(b, now, window);
    SweptHoldsRecent(b, now, window);
    SweptNew(b, now, limit, window);
    RecentHoldsQueue(s, now - s.late - window, window);
  }

  lemma SweptHoldsRecent(b: Bucket, now: real, window: real)
    requires b.late >= 0.0 && QueueIsEnd(Swept(b, now, window), window)
    ensures var s := Swept(b, now, window); |Recent(b.log, now + s.late - window)| <= |s.queue|
  {
    var s := Swept(b, now, window);
    assert s.latest - window <= now + s.late - window;
    QueueHoldsRecent(s, now + s.late - window, window);
  }

  lemma SweptNew(b: Bucket, now: real, limit: int, window: real)
    requires BucketSound(b, limit, window)
    ensures var s := Swept(b, now, window); AllAfter(s.queue, now - s.late - window)
  {
    var late := Swept(b, now, window).late;
    EndNearlySorted(b.log, |b.log| - |b.queue|, b.late, late);
    PrunedIsNew(b.queue, now - window, late);
    assert now - window - late == now - late - window;
  }

  /** The deque decides as the log of everything ever accepted would, up to the lateness: a call is accepted only when
      fewer than `limit` times lie in its window as seen `late` later, and refused only when `limit` lie in its window
      as seen `late` earlier. */
  lemma DecisionOfLog(b: Bucket, now: real, limit: int, window: real)
    requires BucketSound(b, limit, window)
    ensures DecidedByLog(Decision(b.queue, now, limit, window).0, b.log, now, Next(b, now, limit, window).late, limit,
                         window)
  {
    SweptCounts(b, now, limit, window);
  }

  // Without lateness that is the decision of the log.
  lemma InOrderDecision(allowed: bool, log: seq<real>, now: real, limit: int, window: real)
    ensures DecidedByLog(allowed, log, now, 0.0, limit, window) <==> (allowed <==> HasRoom(log, now - window, limit))
  {
    assert now + 0.0 - window == now - window == now - 0.0 - window;
  }

  // The answers of the deque to one call after the other.
  function Answers(queue: seq<real>, times: seq<real>, limit: int, window: real): seq<bool>
    decreases |times|
  {
    if times == [] then []
    else
      var (allowed, after) := Decision(queue, times[0], limit, window);
      [allowed] + Answers(after, times[1..], limit, window)
  }

  // The answers of a limiter that keeps every accepted time and counts those in the window.
  function LogAnswers(log: seq<real>, times: seq<real>, limit: int, window: real): seq<bool>
    decreases |times|
  {
    if times == [] then []
    else
      var allowed := HasRoom(log, times[0] - window, limit);
      [allowed] + LogAnswers(if allowed then log + [times[0]] else log, times[1..], limit, window)
  }

  predicate InOrder(times: seq<real>, from: real) {
    (forall i :: 0 <= i < |times| ==> from <= times[i]) && NearlySorted(times, 0.0)
  }

  lemma {:induction false} AnswersFrom(b: Bucket, times: seq<real>, limit: int, window: real)
    requires BucketSound(b, limit, window) && b.late == 0.0 && InOrder(times, b.latest)
    ensures Answers(b.queue, times, limit, window) == LogAnswers(b.log, times, limit, window)
    decreases |times|
  {
    if times != [] {
      var now, next := times[0], Next(b, times[0], limit, window);
      NextSound(b, now, limit, window);
      InOrderNeverLate(b, now, limit, window);
      DecisionOfLog(b, now, limit, window);
      InOrderDecision(Decision(b.queue, now, limit, window).0, b.log, now, limit, window);
      AnswersFrom(next, times[1..], limit, window);
    }
  }

  /** Every sequence of calls in the order of their times: the pruned deque answers each call exactly as the log of
      everything ever accepted does. */
  lemma AnswersOfLog(times: seq<real>, limit: int, window: real)
    requires limit >= 1 && window > 0.0 && NearlySorted(times, 0.0)
    ensures Answers([], times, limit, window) == LogAnswers([], times, limit, window)
  {
    if times != [] {
      EmptySound(times[0], limit, window);
      AnswersFrom(Bucket([], [], times[0], 0.0), times, limit, window);
    }
  }

  // ----- windows -----

  /** Spaced times put no more than `limit` into any window of that length, wherever it lies. */
  lemma {:induction false} SpacedBounds(log: seq<real>, limit: int, window: real, time: real)
    requires limit >= 1 && Spaced(log, limit, window)
    ensures InWindow(log, time - window, time) <= limit
  {
    if log != [] {
      var n := |log| - 1;
      SpacedBounds(log[..n], limit, window, time);
      if time - window < log[n] <= time {
        if n >= limit {
          assert forall i :: 0 <= i <= n - limit ==> log[i] <= log[n] - window;
          OnlyTheEnd(log[..n], limit - 1, time - window, time);
        } else {
          AtMostAll(log[..n], time - window, time);
        }
      }
    }
  }

  lemma {:induction false} AtMostAll(log: seq<real>, low: real, high: real)
    ensures InWindow(log, low, high) <= |log|
  {
    if log != [] {
      AtMostAll(log[..|log| - 1], low, high);
    }
  }

  // When everything before the last `k` is too old, only those `k` count.
  lemma {:induction false} OnlyTheEnd(log: seq<real>, k: nat, low: real, high: real)
    requires k <= |log| && forall i :: 0 <= i < |log| - k ==> log[i] <= low
    ensures InWindow(log, low, high) <= k
  {
    if log != [] {
      OnlyTheEnd(log[..|log| - 1], if k > 0 then k - 1 else 0, low, high);
    }
  }

  // ----- the limiter -----

  method Decide(events: seq<real>, now: real, limit: int, window: real) returns (allowed: bool, queue: seq<real>)
    ensures (allowed, queue) == Decision(events, now, limit, window)
  {
    queue := events;
    while queue != [] && queue[0] <= now - window
      invariant Pruned(queue, now - window) == Pruned(events, now - window)
      decreases |queue|
    {
      queue := queue[1..];
    }
    allowed := |queue| < limit;
    if allowed {
      queue := queue + [now];
    }
  }

  // Every deque goes with a sound history.
  predicate AllSound(events: map<Key, seq<real>>, past: map<Key, Bucket>, limit: int, window: real) {
    Paired(events, past) && EachSound(past, limit, window)
  }

  predicate Paired(events: map<Key, seq<real>>, past: map<Key, Bucket>) {
    past.Keys == events.Keys && forall key :: key in past ==> past[key].queue == events[key]
  }

  predicate EachSound(past: map<Key, Bucket>, limit: int, window: real) {
    forall key :: key in past ==> BucketSound(past[key], limit, window)
  }

  // The history of a key; a new key has none.
  function PastOf(past: map<Key, Bucket>, key: Key, now: real): Bucket {
    if key in past then past[key] else Bucket([], [], now, 0.0)
  }

  lemma EmptySound(now: real, limit: int, window: real)
    requires limit >= 1 && window > 0.0
    ensures BucketSound(Bucket([], [], now, 0.0), limit, window)
  {}

  lemma PastSound(past: map<Key, Bucket>, key: Key, now: real, limit: int, window: real)
    requires limit >= 1 && window > 0.0 && EachSound(past, limit, window)
    ensures BucketSound(PastOf(past, key, now), limit, window)
  {
    EmptySound(now, limit, window);
  }

  lemma EachSoundWith(past: map<Key, Bucket>, key: Key, b: Bucket, limit: int, window: real)
    requires EachSound(past, limit, window) && BucketSound(b, limit, window)
    ensures EachSound(past[key := b], limit, window)
  {
    var all := past[key := b];
    forall k | k in all ensures BucketSound(all[k], limit, window) {
      assert k != key ==> all[k] == past[k];
    }
  }

  lemma AllSoundWith(events: map<Key, seq<real>>, past: map<Key, Bucket>, key: Key, b: Bucket, limit: int, window: real)
    requires AllSound(events, past, limit, window) && BucketSound(b, limit, window)
    ensures AllSound(events[key := b.queue], past[key := b], limit, window)
  {
    EachSoundWith(past, key, b, limit, window);
  }

  class SlidingWindowRateLimiter {
    const limit: int
    const window: real
    var events: map<Key, seq<real>>
    // What was ever accepted for a key, and how late its calls came.
    ghost var past: map<Key, Bucket>

    constructor (limit: int, windowSeconds: real)
      ensures Valid() && past == map[]
      ensures this.limit == if limit < 1 then 1 else limit
      ensures this.window == if windowSeconds < 0.1 then 0.1 else windowSeconds
    {
      this.limit := if limit < 1 then 1 else limit;
      this.window := if windowSeconds < 0.1 then 0.1 else windowSeconds;
      events, past := map[], map[];
    }

    ghost predicate Valid()
      reads this
    {
      limit >= 1 && window > 0.0 && AllSound(events, past, limit, window)
    }

    /** Decides as the log of everything ever accepted for the key would, exactly so while its calls come in the order
        of their times and otherwise up to their lateness. Only the history of this key changes. */
    method Allow(key: Key, now: real) returns (allowed: bool)
      requires Valid()
      modifies this
      ensures Valid()
      ensures past == old(past)[key := Next(PastOf(old(past), key, now), now, limit, window)]
      ensures DecidedByLog(allowed, PastOf(old(past), key, now).log, now, past[key].late, limit, window)
    {
      ghost var before := PastOf(past, key, now);
      PastSound(past, key, now, limit, window);
      NextSound(before, now, limit, window);
      AllSoundWith(events, past, key, Next(before, now, limit, window), limit, window);
      DecisionOfLog(before, now, limit, window);
      var queue: seq<real> := if key in events then events[key] else [];
      allowed, queue := Decide(queue, now, limit, window);
      events := events[key := queue];
      past := past[key := Next(before, now, limit, window)];
    }

    /** At any time, every window of a key that is shorter by the lateness of its calls holds at most `limit` accepted
        events; without lateness every whole window does. */
    lemma WindowsBounded(key: Key, time: real)
      requires Valid() && key in past
      ensures InWindow(past[key].log, time - (window - past[key].late), time) <= limit
    {
      SpacedBounds(past[key].log, limit, window - past[key].late, time);
    }
  }

  // Calls in the order of their times are never late.
  lemma InOrderNeverLate(b: Bucket, now: real, limit: int, window: real)
    requires b.late == 0.0
    ensures Next(b, now, limit, window).late == 0.0 <==> b.latest <= now
  {}

  /** A call that comes late can be accepted into a window that is full: with a limit of 2 and a window of 10, calls at
      0, 4, 15 and then 6 are all accepted, three of them between 0 and 6. */
  lemma LateCallOverfillsWindow()
    ensures Decision([], 0.0, 2, 10.0) == (true, [0.0])
    ensures Decision([0.0], 4.0, 2, 10.0) == (true, [0.0, 4.0])
    ensures Decision([0.0, 4.0], 15.0, 2, 10.0) == (true, [15.0])
    ensures Decision([15.0], 6.0, 2, 10.0) == (true, [15.0, 6.0])
    ensures InWindow([0.0, 4.0, 6.0], 6.0 - 10.0, 6.0) == 3
  {
    assert Pruned([], 0.0 - 10.0) == [] && [] + [0.0] == [0.0];
    assert Pruned([0.0], 4.0 - 10.0) == [0.0] && [0.0] + [4.0] == [0.0, 4.0];
    assert [0.0, 4.0][1..] == [4.0] && [4.0][1..] == [];
    assert Pruned([4.0], 5.0) == Pruned([], 5.0) == [];
    assert Pruned([0.0, 4.0], 15.0 - 10.0) == [] && [] + [15.0] == [15.0];
    assert Pruned([15.0], 6.0 - 10.0) == [15.0] && [15.0] + [6.0] == [15.0, 6.0];
    CountThree();
  }

  lemma CountThree()
    ensures InWindow([0.0, 4.0, 6.0], -4.0, 6.0) == 3
  {
    var three := [0.0, 4.0, 6.0];
    assert three[..2] == [0.0, 4.0];
    assert [0.0, 4.0][..1] == [0.0];
    assert [0.0][..0] == [];
    assert InWindow([0.0], -4.0, 6.0) == 1;
    assert InWindow([0.0, 4.0], -4.0, 6.0) == 2;
  }
}
