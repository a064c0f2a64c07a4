/** The client's Firebase switch and its request counter.

    The switch decides whether Firestore is used; a reported quota overrun
    turns it off until it is reset or forced on. The counter counts requests
    in a five-minute window and only warns at the limit: it never refuses.
 */
module Quota {
  import opened Base

  const RequestLimit: nat := 50
  const RequestWindow: int := 300000

  datatype QuotaState = QuotaState(
    isFirebaseEnabled: bool,
    localFallbackEnabled: bool,
    isExceeded: bool,
    lastCheck: Option<int>,
    requestCount: nat)

  /** The configuration and counter at load time. */
  const Initial := QuotaState(true, false, false, None, 0)

  /** `shouldUseFirebase()`: exactly the enabled flag. */
  predicate ShouldUseFirebase(q: QuotaState) {
    q.isFirebaseEnabled
  }

  /** `updateQuotaStatus(isExceeded)`: records the flag and the check time; an overrun disables Firebase, and
      clearing the flag does not enable it again. */
  function UpdateQuotaStatus(q: QuotaState, isExceeded: bool, now: int): (r: QuotaState)
    ensures r.isExceeded == isExceeded && r.lastCheck == Some(now)
    ensures r.isFirebaseEnabled == (q.isFirebaseEnabled && !isExceeded)
    ensures r.localFallbackEnabled == q.localFallbackEnabled && r.requestCount == q.requestCount
  {
    var r := q.(isExceeded := isExceeded, lastCheck := Some(now));
    if isExceeded then r.(isFirebaseEnabled := false) else r
  }

  /** `now - lastCheck > requestWindow`, where a null `lastCheck` counts as 0. */
  predicate WindowPassed(q: QuotaState, now: int) {
    now - (if q.lastCheck.Some? then q.lastCheck.value else 0) > RequestWindow
  }

  /** `incrementRequestCount()`: restarts the window when it has passed, then counts the request. The flag
      returned says whether the limit warning is logged. */
  function IncrementRequestCount(q: QuotaState, now: int): (r: (QuotaState, bool))
    ensures WindowPassed(q, now) ==> r.0.requestCount == 1 && r.0.lastCheck == Some(now)
    ensures !WindowPassed(q, now) ==> r.0.requestCount == q.requestCount + 1 && r.0.lastCheck == q.lastCheck
    ensures r.1 <==> r.0.requestCount >= RequestLimit
    ensures r.0.isFirebaseEnabled == q.isFirebaseEnabled && r.0.isExceeded == q.isExceeded
    ensures r.0.localFallbackEnabled == q.localFallbackEnabled
  {
    var q1 := if WindowPassed(q, now) then q.(requestCount := 0, lastCheck := Some(now)) else q;
    var q2 := q1.(requestCount := q1.requestCount + 1);
    (q2, q2.requestCount >= RequestLimit)
  }

  /** `resetQuotaStatus()`. */
  function ResetQuotaStatus(q: QuotaState, now: int): (r: QuotaState)
    ensures r.isFirebaseEnabled && !r.isExceeded && r.requestCount == 0 && r.lastCheck == Some(now)
    ensures r.localFallbackEnabled == q.localFallbackEnabled
  {
    q.(isExceeded := false, requestCount := 0, lastCheck := Some(now), isFirebaseEnabled := true)
  }

  /** `forceEnableFirebase()`: leaves the counter alone. */
  function ForceEnableFirebase(q: QuotaState): (r: QuotaState)
    ensures r.isFirebaseEnabled && !r.localFallbackEnabled && !r.isExceeded
    ensures r.lastCheck == q.lastCheck && r.requestCount == q.requestCount
  {
    q.(isFirebaseEnabled := true, localFallbackEnabled := false, isExceeded := false)
  }

  /** Counting every request in `times`, in order. */
  function IncrementAll(q: QuotaState, times: seq<int>): QuotaState
    decreases |times|
  {
    if |times| == 0 then q else IncrementAll(IncrementRequestCount(q, times[0]).0, times[1..])
  }

  /** However many requests are counted, the switch is never changed by the counter: once disabled, Firebase
      stays disabled, and once enabled it stays enabled. */
  lemma {:induction false} CounterNeverRefuses(q: QuotaState, times: seq<int>)
    ensures IncrementAll(q, times).isFirebaseEnabled == q.isFirebaseEnabled
    ensures IncrementAll(q, times).isExceeded == q.isExceeded
    ensures |times| > 0 ==> IncrementAll(q, times).requestCount >= 1
    decreases |times|
  {
    if |times| > 0 {
      CounterNeverRefuses(IncrementRequestCount(q, times[0]).0, times[1..]);
    }
  }

  /** Within one window the counter counts every request. */
  lemma {:induction false} CountsWithinWindow(q: QuotaState, times: seq<int>)
    requires q.lastCheck.Some?
    requires forall i :: 0 <= i < |times| ==> times[i] - q.lastCheck.value <= RequestWindow
    ensures IncrementAll(q, times).requestCount == q.requestCount + |times|
    decreases |times|
  {
    if |times| > 0 {
      CountsWithinWindow(IncrementRequestCount(q, times[0]).0, times[1..]);
    }
  }

  /** An overrun turns Firebase off, clearing the flag alone does not turn it back on, and a reset or a forced enable does. */
  lemma OverrunNeedsReset(q: QuotaState, t1: int, t2: int, t3: int)
    ensures !ShouldUseFirebase(UpdateQuotaStatus(q, true, t1))
    ensures !ShouldUseFirebase(UpdateQuotaStatus(UpdateQuotaStatus(q, true, t1), false, t2))
    ensures ShouldUseFirebase(ResetQuotaStatus(UpdateQuotaStatus(q, true, t1), t3))
    ensures ShouldUseFirebase(ForceEnableFirebase(UpdateQuotaStatus(q, true, t1)))
  {
  }
}
