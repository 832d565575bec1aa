/** A sliding-window limiter that records only the requests it allows. */
module RateLimiter {

  // ---- The simple specification: a full log of allowed requests ------------------------------

  /** The logged hits that are still inside the window (now - window, now]. */
  function Recent(log: seq<real>, now: real, window: real): (r: seq<real>)
    ensures |r| <= |log|
  {
    if log == [] then []
    else
      Recent(log[..|log| - 1], now, window) + if log[|log| - 1] > now - window then [log[|log| - 1]] else []
  }

  predicate Admits(log: seq<real>, now: real, maxRequests: int, window: real) {
    |Recent(log, now, window)| < maxRequests
  }

  function Serve(log: seq<real>, now: real, maxRequests: int, window: real): seq<real> {
    if Admits(log, now, maxRequests, window) then log + [now] else log
  }

  function ServeAll(log: seq<real>, times: seq<real>, maxRequests: int, window: real): seq<real> {
    if times == [] then log
    else Serve(ServeAll(log, times[..|times| - 1], maxRequests, window), times[|times| - 1], maxRequests, window)
  }

  ghost predicate Ordered(times: seq<real>) {
    forall i, j :: 0 <= i < j < |times| ==> times[i] <= times[j]
  }

  ghost predicate UpTo(log: seq<real>, now: real) {
    forall i :: 0 <= i < |log| ==> log[i] <= now
  }

  /** Any two hits that are `maxRequests` apart in the log are at least a window apart in time. */
  ghost predicate Spaced(log: seq<real>, maxRequests: int, window: real) {
    forall i, j :: 0 <= i < |log| && 0 <= j < |log| && i + maxRequests <= j ==> log[i] + window <= log[j]
  }

  // ---- Facts about the window ---------------------------------------------------------------------

  lemma {:induction false} RecentOfConcat(a: seq<real>, b: seq<real>, now: real, window: real)
    ensures Recent(a + b, now, window) == Recent(a, now, window) + Recent(b, now, window)
  {
    if b == [] {
      assert a + b == a;
    } else {
      RecentOfConcat(a, b[..|b| - 1], now, window);
      assert (a + b)[..|a + b| - 1] == a + b[..|b| - 1];
    }
  }

  lemma {:induction false} AllRecent(log: seq<real>, now: real, window: real)
    requires forall i :: 0 <= i < |log| ==> log[i] > now - window
    ensures Recent(log, now, window) == log
  {
    if log != [] {
      AllRecent(log[..|log| - 1], now, window);
      assert log == log[..|log| - 1] + [log[|log| - 1]];
    }
  }

  lemma {:induction false} NoneRecent(log: seq<real>, now: real, window: real)
    requires forall i :: 0 <= i < |log| ==> log[i] <= now - window
    ensures Recent(log, now, window) == []
  {
    if log != [] {
      NoneRecent(log[..|log| - 1], now, window);
    }
  }

  /** In an ordered log the recent hits are a suffix, cut where the window begins. */
  lemma {:induction false} RecentIsSuffix(log: seq<real>, now: real, window: real) returns (cut: nat)
    requires Ordered(log)
    ensures cut <= |log| && Recent(log, now, window) == log[cut..]
    ensures forall i :: 0 <= i < cut ==> log[i] <= now - window
    ensures forall i :: cut <= i < |log| ==> log[i] > now - window
  {
    cut := 0;
    while cut < |log| && log[cut] <= now - window
      invariant cut <= |log|
      invariant forall i :: 0 <= i < cut ==> log[i] <= now - window
    {
      cut := cut + 1;
    }
    SplitWindow(log, cut, now, window);
  }

  lemma SplitWindow(log: seq<real>, cut: nat, now: real, window: real)
    requires cut <= |log|
    requires forall i :: 0 <= i < cut ==> log[i] <= now - window
    requires forall i :: cut <= i < |log| ==> log[i] > now - window
    ensures Recent(log, now, window) == log[cut..]
  {
    var old', new' := log[..cut], log[cut..];
    assert log == old' + new';
    RecentOfConcat(old', new', now, window);
    NoneRecent(old', now, window);
    AllRecent(new', now, window);
  }

  lemma OldestAgedOut(queue: seq<real>, now: real, window: real)
    requires queue != [] && queue[0] <= now - window
    ensures Recent(queue[1..], now, window) == Recent(queue, now, window)
  {
    assert queue == [queue[0]] + queue[1..];
    RecentOfConcat([queue[0]], queue[1..], now, window);
    NoneRecent([queue[0]], now, window);
  }

  lemma OnlyRecentLeft(queue: seq<real>, now: real, window: real)
    requires Ordered(queue) && (queue != [] ==> queue[0] > now - window)
    ensures Recent(queue, now, window) == queue
  {
    AllRecent(queue, now, window);
  }

  /** Hits forgotten earlier would not be counted later. */
  lemma {:induction false} ForgettingIsSafe(log: seq<real>, earlier: real, now: real, window: real)
    requires earlier <= now
    ensures Recent(Recent(log, earlier, window), now, window) == Recent(log, now, window)
  {
    if log != [] {
      var front, x := log[..|log| - 1], log[|log| - 1];
      ForgettingIsSafe(front, earlier, now, window);
      RecentOfConcat(Recent(front, earlier, window), if x > earlier - window then [x] else [], now, window);
      assert Recent([x], now, window) == if x > now - window then [x] else [] by {
        assert [x][..0] == [];
      }
    }
  }

  // ---- What the specification promises ---------------------------------------------------------------

  lemma LastIsSpaced(log: seq<real>, i: nat, maxRequests: int, window: real)
    requires maxRequests >= 1 && i <= |log| && Spaced(log, maxRequests, window)
    ensures i + maxRequests < |log| ==> log[i] + window <= log[|log| - 1]
  {
  }

  lemma AdmittedHitIsSpaced(log: seq<real>, now: real, maxRequests: int, window: real, i: nat)
    requires Ordered(log) && Admits(log, now, maxRequests, window) && i + maxRequests <= |log|
    ensures log != [] ==> i < |log| && log[i] + window <= now
  {
    var cut := RecentIsSuffix(log, now, window);
    assert log != [] ==> i < cut;
  }

  lemma ServeKeepsSpacing(log: seq<real>, now: real, maxRequests: int, window: real)
    requires maxRequests >= 1 && window > 0.0
    requires Ordered(log) && UpTo(log, now) && Spaced(log, maxRequests, window)
    ensures var next := Serve(log, now, maxRequests, window);
            Ordered(next) && UpTo(next, now) && Spaced(next, maxRequests, window)
  {
    if Admits(log, now, maxRequests, window) {
      var next := log + [now];
      forall i, j | 0 <= i < |next| && 0 <= j < |next| && i + maxRequests <= j ensures next[i] + window <= next[j] {
        if j == |log| {
          AdmittedHitIsSpaced(log, now, maxRequests, window, i);
        }
      }
    }
  }

  /** A spaced log never has more than `maxRequests` recent hits. */
  lemma RecentIsBounded(log: seq<real>, now: real, maxRequests: int, window: real)
    requires maxRequests >= 1 && window > 0.0
    requires Ordered(log) && UpTo(log, now) && Spaced(log, maxRequests, window)
    ensures |Recent(log, now, window)| <= maxRequests
  {
    var cut := RecentIsSuffix(log, now, window);
    LastIsSpaced(log, cut, maxRequests, window);
  }

  /** Any window of the configured length, open on either side, holds at most `maxRequests` allowed hits. */
  lemma WindowsAreBounded(log: seq<real>, t: real, maxRequests: int, window: real)
    requires maxRequests >= 1 && window > 0.0 && Ordered(log) && Spaced(log, maxRequests, window)
    ensures |set i | 0 <= i < |log| && t - window < log[i] <= t| <= maxRequests
    ensures |set i | 0 <= i < |log| && t <= log[i] < t + window| <= maxRequests
  {
    FewIndices(set i | 0 <= i < |log| && t - window < log[i] <= t, 0, |log|, maxRequests);
    FewIndices(set i | 0 <= i < |log| && t <= log[i] < t + window, 0, |log|, maxRequests);
  }

  lemma {:induction false} SmallSet(s: set<int>, low: int, high: int)
    requires low <= high && forall i :: i in s ==> low <= i < high
    ensures |s| <= high - low
    decreases high - low
  {
    if low == high {
      assert s == {};
    } else {
      SmallSet(s - {low}, low + 1, high);
      assert s <= (s - {low}) + {low};
    }
  }

  /** Indices that are pairwise closer than `n` fit into `n` places. */
  lemma {:induction false} FewIndices(s: set<int>, low: nat, size: nat, n: int)
    requires n >= 1 && low <= size && forall i :: i in s ==> low <= i < size
    requires forall i, j :: i in s && j in s ==> j < i + n
    ensures |s| <= n
    decreases size - low
  {
    if low == size {
      SmallSet(s, low, low);
    } else if low in s {
      SmallSet(s, low, low + n);
    } else {
      FewIndices(s, low + 1, size, n);
    }
  }

  /** The log of every run over a clock that never runs backwards is ordered and spaced. */
  lemma {:induction false} EveryRunIsSpaced(times: seq<real>, maxRequests: int, window: real)
    requires maxRequests >= 1 && window > 0.0 && Ordered(times)
    ensures var log := ServeAll([], times, maxRequests, window);
            Ordered(log) && Spaced(log, maxRequests, window) && (times != [] ==> UpTo(log, times[|times| - 1]))
  {
    if times != [] {
      var front, now := times[..|times| - 1], times[|times| - 1];
      EveryRunIsSpaced(front, maxRequests, window);
      var log := ServeAll([], front, maxRequests, window);
      assert UpTo(log, now);
      ServeKeepsSpacing(log, now, maxRequests, window);
    }
  }

  /** Blocked requests leave no trace: replaying only the allowed times gives the same log. */
  lemma {:induction false} BlockedRequestsLeaveNoTrace(times: seq<real>, maxRequests: int, window: real)
    ensures var log := ServeAll([], times, maxRequests, window); ServeAll([], log, maxRequests, window) == log
  {
    if times != [] {
      var front, now := times[..|times| - 1], times[|times| - 1];
      BlockedRequestsLeaveNoTrace(front, maxRequests, window);
      var log := ServeAll([], front, maxRequests, window);
      assert (log + [now])[..|log|] == log;
    }
  }

  /** Seconds until the oldest hit of a full window ages out. */
  function RetryAfter(log: seq<real>, now: real, window: real): real
    requires Recent(log, now, window) != []
  {
    Recent(log, now, window)[0] + window - now
  }

  /** Without further traffic on its key, a blocked client is admitted exactly from then on. */
  lemma RetryAfterIsExact(log: seq<real>, now: real, later: real, maxRequests: int, window: real)
    requires Ordered(log) && now <= later && maxRequests >= 1
    requires |Recent(log, now, window)| == maxRequests
    ensures Admits(log, later, maxRequests, window) <==> later >= now + RetryAfter(log, now, window)
  {
    ForgettingIsSafe(log, now, later, window);
    var recent := Recent(log, now, window);
    var cut := RecentIsSuffix(log, now, window);
    var first := RecentIsSuffix(recent, later, window);
    assert Recent(log, later, window) == recent[first..];
  }

  function Ceil(x: real): int { -((-x).Floor) }

  /** The Retry-After header: whole seconds, at least one. */
  function RetryAfterSeconds(retryAfter: real): int {
    if Ceil(retryAfter) > 1 then Ceil(retryAfter) else 1
  }

  /** Waiting the rounded Retry-After is enough, and it is the least positive number of whole seconds that is. */
  lemma WaitingTheHeaderIsEnough(log: seq<real>, now: real, maxRequests: int, window: real, seconds: nat)
    requires Ordered(log) && maxRequests >= 1 && seconds >= 1
    requires |Recent(log, now, window)| == maxRequests
    ensures Admits(log, now + seconds as real, maxRequests, window)
       <==> seconds >= RetryAfterSeconds(RetryAfter(log, now, window)) >= 1
  {
    RetryAfterIsExact(log, now, now + seconds as real, maxRequests, window);
    CeilIsLeast(RetryAfter(log, now, window), seconds);
  }

  lemma CeilIsLeast(x: real, n: int)
    ensures n >= Ceil(x) <==> n as real >= x
  {
  }

  // ---- The limiter --------------------------------------------------------------------------------------

  type Logs = map<string, seq<real>>

  ghost function LogOf(logs: Logs, key: string): seq<real> { if key in logs then logs[key] else [] }

  /** The full log of a key is ordered, past and spaced; the deque held what was recent when the key was last
      checked. */
  ghost predicate KeyOk(key: string, hits: Logs, logs: Logs, checked: map<string, real>, clock: real,
                        maxRequests: int, window: real) {
    var log := LogOf(logs, key);
    && Ordered(log) && UpTo(log, clock) && Spaced(log, maxRequests, window)
    && (if key in hits then key in checked && checked[key] <= clock && hits[key] == Recent(log, checked[key], window)
        else log == [])
  }

  ghost predicate KeysOk(hits: Logs, logs: Logs, checked: map<string, real>, clock: real, maxRequests: int,
                         window: real) {
    forall key :: KeyOk(key, hits, logs, checked, clock, maxRequests, window)
  }

  lemma DequeIsRecent(key: string, hits: Logs, logs: Logs, checked: map<string, real>, clock: real,
                      maxRequests: int, window: real, now: real)
    requires maxRequests >= 1 && window > 0.0 && now >= clock
    requires KeyOk(key, hits, logs, checked, clock, maxRequests, window)
    ensures var log, queue := LogOf(logs, key), if key in hits then hits[key] else [];
            Ordered(log) && Ordered(queue)
            && Recent(queue, now, window) == Recent(log, now, window) && |Recent(log, now, window)| <= maxRequests
  {
    RecentIsBounded(LogOf(logs, key), now, maxRequests, window);
    if key in hits {
      var cut := RecentIsSuffix(LogOf(logs, key), checked[key], window);
      ForgettingIsSafe(LogOf(logs, key), checked[key], now, window);
    }
  }

  lemma KeyStaysOk(k: string, hits: Logs, logs: Logs, checked: map<string, real>, clock: real,
                   maxRequests: int, window: real, key: string, queue: seq<real>, log: seq<real>, now: real)
    requires now >= clock && (k != key ==> KeyOk(k, hits, logs, checked, clock, maxRequests, window))
    requires Ordered(log) && UpTo(log, now) && Spaced(log, maxRequests, window) && queue == Recent(log, now, window)
    ensures KeyOk(k, hits[key := queue], logs[key := log], checked[key := now], now, maxRequests, window)
  {
    assert k != key ==> LogOf(logs[key := log], k) == LogOf(logs, k);
  }

  lemma CheckedKeyIsOk(key: string, hits: Logs, logs: Logs, checked: map<string, real>, clock: real,
                       maxRequests: int, window: real, now: real, queue: seq<real>)
    requires maxRequests >= 1 && window > 0.0 && now >= clock
    requires KeysOk(hits, logs, checked, clock, maxRequests, window)
    requires queue == Recent(Serve(LogOf(logs, key), now, maxRequests, window), now, window)
    ensures KeysOk(hits[key := queue], logs[key := Serve(LogOf(logs, key), now, maxRequests, window)],
                   checked[key := now], now, maxRequests, window)
  {
    var log := Serve(LogOf(logs, key), now, maxRequests, window);
    assert Ordered(log) && UpTo(log, now) && Spaced(log, maxRequests, window) by {
      assert KeyOk(key, hits, logs, checked, clock, maxRequests, window);
      ServeKeepsSpacing(LogOf(logs, key), now, maxRequests, window);
    }
    var hits', logs', checked' := hits[key := queue], logs[key := log], checked[key := now];
    forall k ensures KeyOk(k, hits', logs', checked', now, maxRequests, window) {
      assert KeyOk(k, hits, logs, checked, clock, maxRequests, window);
      KeyStaysOk(k, hits, logs, checked, clock, maxRequests, window, key, queue, log, now);
    }
  }

  /** The deque after the decision, for a deque that holds exactly the recent hits. */
  lemma DecisionIsServe(log: seq<real>, queue: seq<real>, now: real, maxRequests: int, window: real)
    requires window > 0.0 && queue == Recent(log, now, window)
    ensures Recent(Serve(log, now, maxRequests, window), now, window)
         == if |queue| < maxRequests then queue + [now] else queue
  {
    RecentOfConcat(log, [now], now, window);
    AllRecent([now], now, window);
  }

  // ---- One deque, whatever times come in ------------------------------------------------------------

  /** The deque without its aged head. */
  function Kept(queue: seq<real>, now: real, window: real): seq<real> {
    if queue != [] && queue[0] <= now - window then Kept(queue[1..], now, window) else queue
  }

  /** In an ordered deque nothing aged hides behind a younger hit. */
  lemma {:induction false} KeptIsRecent(queue: seq<real>, now: real, window: real)
    requires Ordered(queue)
    ensures Kept(queue, now, window) == Recent(queue, now, window)
  {
    if queue != [] && queue[0] <= now - window {
      KeptIsRecent(queue[1..], now, window);
      OldestAgedOut(queue, now, window);
    } else {
      OnlyRecentLeft(queue, now, window);
    }
  }

  /** Deque and answer of one check: record the hit if there is room, else say when the oldest ages out. */
  function Recorded(queue: seq<real>, now: real, maxRequests: int, window: real): seq<real> {
    var kept := Kept(queue, now, window);
    if |kept| < maxRequests then kept + [now] else kept
  }

  function Delay(queue: seq<real>, now: real, maxRequests: int, window: real): real
    requires maxRequests >= 1
  {
    var kept := Kept(queue, now, window);
    if |kept| < maxRequests || kept[0] + window - now <= 0.0 then 0.0 else kept[0] + window - now
  }

  lemma {:induction false} KeptHeadIsRecent(queue: seq<real>, now: real, window: real)
    ensures Kept(queue, now, window) != [] ==> Kept(queue, now, window)[0] > now - window
  {
    if queue != [] && queue[0] <= now - window {
      KeptHeadIsRecent(queue[1..], now, window);
    }
  }

  lemma DelayIsRetryAfter(log: seq<real>, queue: seq<real>, now: real, maxRequests: int, window: real, kept: seq<real>)
    requires kept == Kept(queue, now, window) == Recent(log, now, window) && |kept| >= maxRequests >= 1
    requires kept[0] > now - window
    ensures Delay(queue, now, maxRequests, window) == RetryAfter(log, now, window) > 0.0
  {
  }

  /** Nothing the deque has forgotten could matter, so it decides as the full log does. */
  lemma DequeDecidesAsLog(log: seq<real>, queue: seq<real>, now: real, maxRequests: int, window: real)
    requires maxRequests >= 1 && window > 0.0 && Ordered(queue)
    requires Recent(queue, now, window) == Recent(log, now, window) && |Recent(log, now, window)| <= maxRequests
    ensures Admits(log, now, maxRequests, window) <==> |Kept(queue, now, window)| < maxRequests
    ensures Recorded(queue, now, maxRequests, window) == Recent(Serve(log, now, maxRequests, window), now, window)
    ensures !Admits(log, now, maxRequests, window) ==>
              && |Recent(log, now, window)| == maxRequests
              && Delay(queue, now, maxRequests, window) == RetryAfter(log, now, window) > 0.0
  {
    KeptIsRecent(queue, now, window);
    DecisionIsServe(log, Kept(queue, now, window), now, maxRequests, window);
    if !Admits(log, now, maxRequests, window) {
      KeptHeadIsRecent(queue, now, window);
      DelayIsRetryAfter(log, queue, now, maxRequests, window, Kept(queue, now, window));
    }
  }

  // ---- Times that come in out of order -----------------------------------------------------------------

  /** One key: its deque, and every hit it allowed, in the order the checks came in. */
  datatype KeyState = KeyState(queue: seq<real>, allowed: seq<real>)

  function Checked(k: KeyState, now: real, maxRequests: int, window: real): KeyState {
    KeyState(Recorded(k.queue, now, maxRequests, window),
             if |Kept(k.queue, now, window)| < maxRequests then k.allowed + [now] else k.allowed)
  }

  function CheckedAll(times: seq<real>, maxRequests: int, window: real): KeyState {
    if times == [] then KeyState([], [])
    else Checked(CheckedAll(times[..|times| - 1], maxRequests, window), times[|times| - 1], maxRequests, window)
  }

  ghost function HitsIn(allowed: seq<real>, t: real, window: real): set<int> {
    set i | 0 <= i < |allowed| && t - window < allowed[i] <= t
  }

  /** Every window holds at most `maxRequests` of these hits. */
  ghost predicate WindowsHold(allowed: seq<real>, maxRequests: int, window: real) {
    forall t: real :: |HitsIn(allowed, t, window)| <= maxRequests
  }

  lemma CheckedSnoc(times: seq<real>, now: real, maxRequests: int, window: real)
    ensures CheckedAll(times + [now], maxRequests, window)
         == Checked(CheckedAll(times, maxRequests, window), now, maxRequests, window)
  {
    assert (times + [now])[..|times|] == times;
  }

  lemma {:induction false} AllAged(queue: seq<real>, now: real, window: real)
    requires forall i :: 0 <= i < |queue| ==> queue[i] <= now - window
    ensures Kept(queue, now, window) == []
  {
    if queue != [] {
      AllAged(queue[1..], now, window);
    }
  }

  ghost predicate LastHitOnly(k: KeyState, window: real) {
    && Ordered(k.allowed) && Spaced(k.allowed, 1, window)
    && k.queue == if k.allowed == [] then [] else [k.allowed[|k.allowed| - 1]]
  }

  lemma SpacedOneMore(log: seq<real>, now: real, window: real)
    requires window > 0.0 && Ordered(log) && Spaced(log, 1, window)
    requires log != [] ==> log[|log| - 1] + window <= now
    ensures Ordered(log + [now]) && Spaced(log + [now], 1, window)
  {
    var next := log + [now];
    forall i | 0 <= i < |log| ensures next[i] + window <= now {
      assert log[i] <= log[|log| - 1];
    }
  }

  lemma OneHitStays(k: KeyState, now: real, window: real)
    requires window > 0.0 && LastHitOnly(k, window)
    ensures LastHitOnly(Checked(k, now, 1, window), window)
  {
    var kept := Kept(k.queue, now, window);
    if k.queue == [] || k.queue[0] <= now - window {
      AllAged(k.queue, now, window);
      SpacedOneMore(k.allowed, now, window);
    } else {
      assert kept == k.queue;
    }
  }

  /** With room for one hit, the deque is the last hit, and an older time never gets in. */
  lemma {:induction false} OneHitIsSafe(times: seq<real>, window: real)
    requires window > 0.0
    ensures LastHitOnly(CheckedAll(times, 1, window), window)
  {
    if times != [] {
      OneHitIsSafe(times[..|times| - 1], window);
      OneHitStays(CheckedAll(times[..|times| - 1], 1, window), times[|times| - 1], window);
    }
  }

  function Zeros(n: nat): (r: seq<real>)
    ensures |r| == n && forall i :: 0 <= i < n ==> r[i] == 0.0
  {
    if n == 0 then [] else Zeros(n - 1) + [0.0]
  }

  lemma {:induction false} ZerosFill(n: nat, maxRequests: int, window: real)
    requires n <= maxRequests && window > 0.0
    ensures CheckedAll(Zeros(n), maxRequests, window) == KeyState(Zeros(n), Zeros(n))
  {
    if n > 0 {
      ZerosFill(n - 1, maxRequests, window);
      CheckedSnoc(Zeros(n - 1), 0.0, maxRequests, window);
    }
  }

  lemma {:induction false} ZerosAreHits(n: nat, t: real, window: real)
    requires t - window < 0.0 <= t
    ensures |HitsIn(Zeros(n), t, window)| == n
  {
    if n > 0 {
      ZerosAreHits(n - 1, t, window);
      assert Zeros(n)[n - 1] == 0.0;
      assert HitsIn(Zeros(n), t, window) == HitsIn(Zeros(n - 1), t, window) + {n - 1};
    }
  }

  /** A full window at 0, a check a window later that forgets it, and one in between that comes in late. */
  function LateTimes(maxRequests: nat, window: real): seq<real> { Zeros(maxRequests) + [window] + [window / 2.0] }

  lemma LateTimesAreAllowed(maxRequests: nat, window: real)
    requires maxRequests >= 2 && window > 0.0
    ensures CheckedAll(LateTimes(maxRequests, window), maxRequests, window).allowed == LateTimes(maxRequests, window)
  {
    var zeros := Zeros(maxRequests);
    ZerosFill(maxRequests, maxRequests, window);
    AllAged(zeros, window, window);
    CheckedSnoc(zeros, window, maxRequests, window);
    assert CheckedAll(zeros + [window], maxRequests, window) == KeyState([window], zeros + [window]);
    CheckedSnoc(zeros + [window], window / 2.0, maxRequests, window);
  }

  /** The hit that came in late shares a window with all that were forgotten. */
  lemma LateEntryOverfills(maxRequests: nat, window: real)
    requires maxRequests >= 2 && window > 0.0
    ensures !WindowsHold(LateTimes(maxRequests, window), maxRequests, window)
  {
    var late, zeros, t := LateTimes(maxRequests, window), Zeros(maxRequests), window / 2.0;
    ZerosAreHits(maxRequests, t, window);
    var forgotten := HitsIn(zeros, t, window);
    forall i | 0 <= i < |late| ensures i in HitsIn(late, t, window) <==> i in forgotten + {maxRequests + 1} {
      assert late[i] == if i < maxRequests then zeros[i] else if i == maxRequests then window else t;
    }
    assert HitsIn(late, t, window) == forgotten + {maxRequests + 1};
    assert |forgotten + {maxRequests + 1}| == maxRequests + 1;
  }

  /** The clock is read before the lock is taken, so times can come in in any order. The windows then still
      hold, whatever comes in, if and only if there is room for a single hit. */
  lemma AnyOrderIsSafeExactlyForOne(maxRequests: nat, window: real)
    requires maxRequests >= 1 && window > 0.0
    ensures (forall times: seq<real> :: WindowsHold(CheckedAll(times, maxRequests, window).allowed, maxRequests,
                                                    window))
       <==> maxRequests == 1
  {
    if maxRequests >= 2 {
      LateTimesAreAllowed(maxRequests, window);
      LateEntryOverfills(maxRequests, window);
    } else {
      forall times: seq<real> ensures WindowsHold(CheckedAll(times, 1, window).allowed, 1, window) {
        OneHitIsSafe(times, window);
        forall t: real ensures |HitsIn(CheckedAll(times, 1, window).allowed, t, window)| <= 1 {
          WindowsAreBounded(CheckedAll(times, 1, window).allowed, t, 1, window);
        }
      }
    }
  }

  class SlidingWindowRateLimiter {
    const maxRequests: int
    const windowSeconds: real
    var hits: Logs
    // The full logs the specification keeps, when each key was last checked, the time of the last
    // check, and whether no check has come in with an older time than the one before it.
    ghost var logs: Logs
    ghost var checked: map<string, real>
    ghost var clock: real
    ghost var inOrder: bool

    ghost function Log(key: string): seq<real>
      reads this
    {
      LogOf(logs, key)
    }

    function Deque(key: string): seq<real>
      reads this
    {
      if key in hits then hits[key] else []
    }

    ghost predicate Valid()
      reads this
    {
      && maxRequests >= 1 && windowSeconds > 0.0
      && (inOrder ==> KeysOk(hits, logs, checked, clock, maxRequests, windowSeconds))
    }

    constructor (maxRequests: int, windowSeconds: real, ghost now: real)
      requires maxRequests >= 1 && windowSeconds > 0.0
      ensures Valid() && this.maxRequests == maxRequests && this.windowSeconds == windowSeconds
      ensures clock == now && inOrder && forall key :: Log(key) == []
    {
      this.maxRequests := maxRequests;
      this.windowSeconds := windowSeconds;
      hits := map[];
      logs := map[];
      checked := map[];
      clock := now;
      inOrder := true;
    }

    /** Whatever times come in, one deque changes and is decided on. As long as they come in order, the
        decision is the full log's, and the deque keeps exactly the log's hits in (now - window, now]. */
    method Check(key: string, now: real) returns (allowed: bool, retryAfter: real)
      requires Valid()
      modifies this
      ensures Valid() && clock == now && inOrder == (old(inOrder) && now >= old(clock))
      ensures allowed <==> |Kept(old(Deque(key)), now, windowSeconds)| < maxRequests
      ensures retryAfter == Delay(old(Deque(key)), now, maxRequests, windowSeconds)
      ensures hits == old(hits)[key := Recorded(old(Deque(key)), now, maxRequests, windowSeconds)]
      ensures logs == old(logs)[key := if allowed then old(Log(key)) + [now] else old(Log(key))]
      ensures inOrder ==>
                && allowed == Admits(old(Log(key)), now, maxRequests, windowSeconds)
                && logs == old(logs)[key := Serve(old(Log(key)), now, maxRequests, windowSeconds)]
                && hits == old(hits)[key := Recent(Log(key), now, windowSeconds)]
                && (!allowed ==> |Recent(old(Log(key)), now, windowSeconds)| == maxRequests
                                 && retryAfter == RetryAfter(old(Log(key)), now, windowSeconds) > 0.0)
    {
      ghost var log := Log(key);
      var queue;
      allowed, retryAfter, queue := Slide(Deque(key), now);
      if inOrder && now >= clock {
        DequeIsRecent(key, hits, logs, checked, clock, maxRequests, windowSeconds, now);
        DequeDecidesAsLog(log, Deque(key), now, maxRequests, windowSeconds);
        CheckedKeyIsOk(key, hits, logs, checked, clock, maxRequests, windowSeconds, now, queue);
      }
      inOrder := inOrder && now >= clock;
      hits := hits[key := queue];
      logs := logs[key := if allowed then log + [now] else log];
      checked := checked[key := now];
      clock := now;
    }

    /** `cut` hits at the head have aged out and the next one, if any, has not; what is left decides, keeps the
        new hit if it is allowed, and else says how long its oldest hit stays in the window. */
    ghost predicate SlidTo(deque: seq<real>, now: real, cut: nat, allowed: bool, retryAfter: real, queue: seq<real>) {
      && cut <= |deque| && (forall i :: 0 <= i < cut ==> deque[i] <= now - windowSeconds)
      && (cut < |deque| ==> now - windowSeconds < deque[cut])
      && (allowed <==> |deque| - cut < maxRequests)
      && queue == deque[cut..] + (if allowed then [now] else [])
      && (if allowed then retryAfter == 0.0
          else cut < |deque|
               && retryAfter == if deque[cut] + windowSeconds > now then deque[cut] + windowSeconds - now else 0.0)
    }

    /** The body of the check on one deque: drop what aged out at its head, decide, record. */
    method Slide(deque: seq<real>, now: real) returns (allowed: bool, retryAfter: real, queue: seq<real>)
      requires maxRequests >= 1
      ensures allowed <==> |Kept(deque, now, windowSeconds)| < maxRequests
      ensures retryAfter == Delay(deque, now, maxRequests, windowSeconds)
      ensures queue == Recorded(deque, now, maxRequests, windowSeconds)
      ensures exists cut: nat :: SlidTo(deque, now, cut, allowed, retryAfter, queue)
    {
      queue := deque;
      ghost var cut := 0;
      var cutoff := now - windowSeconds;
      while queue != [] && queue[0] <= cutoff
        invariant cut <= |deque| && queue == deque[cut..] && forall i :: 0 <= i < cut ==> deque[i] <= cutoff
        invariant Kept(queue, now, windowSeconds) == Kept(deque, now, windowSeconds)
      {
        queue := queue[1..];
        cut := cut + 1;
      }
      if |queue| >= maxRequests {
        retryAfter := queue[0] + windowSeconds - now;
        allowed, retryAfter := false, if retryAfter > 0.0 then retryAfter else 0.0;
      } else {
        allowed, retryAfter, queue := true, 0.0, queue + [now];
      }
      assert SlidTo(deque, now, cut, allowed, retryAfter, queue);
    }
  }
}
