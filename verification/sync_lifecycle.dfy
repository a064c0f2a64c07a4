/** The auto-sync service's lifecycle: start, stop, status and frequency.

    The service holds a running flag, the repeating timer, the time of the
    last sync and the frequency in milliseconds, a number that may be
    fractional. Starting runs one sync at
    once, which stamps `lastSyncTime`; the timer's later ticks are further
    calls of the sync itself and are not part of this state machine.
 */
module SyncLifecycle {
  import opened Base

  /** Five minutes in milliseconds. */
  const DefaultFrequency: real := 300000.0

  datatype SyncState = SyncState(isRunning: bool, timerSet: bool, lastSyncTime: Option<int>, syncFrequency: real)

  const Initial := SyncState(false, false, None, DefaultFrequency)

  /** The timer exists exactly while the service runs. */
  predicate Consistent(s: SyncState) {
    s.isRunning == s.timerSet
  }

  /** `startAutoSync(frequency)`. */
  function Start(s: SyncState, frequency: real, now: int): (r: SyncState)
    ensures s.isRunning ==> r == s
    ensures !s.isRunning ==> r == SyncState(true, true, Some(now), frequency)
  {
    if s.isRunning then s else SyncState(true, true, Some(now), frequency)
  }

  /** `stopAutoSync()`. */
  function Stop(s: SyncState): (r: SyncState)
    ensures !r.isRunning
    ensures !s.isRunning ==> r == s
    ensures s.isRunning ==> !r.timerSet && r.syncFrequency == s.syncFrequency && r.lastSyncTime == s.lastSyncTime
  {
    if !s.isRunning then s else s.(isRunning := false, timerSet := false)
  }

  datatype Status = Status(isRunning: bool, lastSyncTime: Option<int>, syncFrequency: real, nextSyncIn: Option<real>)

  /** `getStatus()`; a missing `lastSyncTime` counts as 0 in the subtraction, as `Date.now() - null` does. */
  function GetStatus(s: SyncState, now: int): (r: Status)
    ensures r.nextSyncIn.None? <==> !s.isRunning
    ensures r.isRunning == s.isRunning && r.lastSyncTime == s.lastSyncTime && r.syncFrequency == s.syncFrequency
    ensures s.isRunning && s.lastSyncTime.Some? ==>
              r.nextSyncIn.value + (now - s.lastSyncTime.value) as real == s.syncFrequency
  {
    var last := if s.lastSyncTime.Some? then s.lastSyncTime.value else 0;
    Status(s.isRunning, s.lastSyncTime, s.syncFrequency,
           if s.isRunning then Some(s.syncFrequency - (now - last) as real) else None)
  }

  /** `setSyncFrequency(frequency)`: records the frequency and restarts a running service with it. */
  function SetFrequency(s: SyncState, frequency: real, now: int): (r: SyncState)
    ensures r.syncFrequency == frequency
    ensures r.isRunning == s.isRunning
    ensures !s.isRunning ==> r == s.(syncFrequency := frequency)
    ensures s.isRunning ==> r.timerSet && r.lastSyncTime == Some(now)
  {
    var s1 := s.(syncFrequency := frequency);
    if s1.isRunning then Start(Stop(s1), frequency, now) else s1
  }

  datatype Command = StartCmd(frequency: real) | StopCmd | SetFrequencyCmd(frequency: real)

  /** Applies a sequence of lifecycle commands issued at time `now`. */
  function Run(s: SyncState, cmds: seq<Command>, now: int): SyncState
    decreases |cmds|
  {
    if |cmds| == 0 then s
    else
      var s1 := match cmds[0]
        case StartCmd(f) => Start(s, f, now)
        case StopCmd => Stop(s)
        case SetFrequencyCmd(f) => SetFrequency(s, f, now);
      Run(s1, cmds[1..], now)
  }

  /** Any sequence of commands keeps the timer in step with the running flag. */
  lemma {:induction false} RunConsistent(s: SyncState, cmds: seq<Command>, now: int)
    requires Consistent(s)
    ensures Consistent(Run(s, cmds, now))
    decreases |cmds|
  {
    if |cmds| > 0 {
      var s1 := match cmds[0]
        case StartCmd(f) => Start(s, f, now)
        case StopCmd => Stop(s)
        case SetFrequencyCmd(f) => SetFrequency(s, f, now);
      assert Consistent(s1);
      RunConsistent(s1, cmds[1..], now);
    }
  }

  /** Starting a running service twice is the same as starting it once. */
  lemma StartIdempotent(s: SyncState, f: real, g: real, now: int, later: int)
    ensures Start(Start(s, f, now), g, later) == Start(s, f, now)
  {
  }

  /** Stopping undoes starting, apart from the recorded frequency and sync time. */
  lemma StopAfterStart(s: SyncState, f: real, now: int)
    requires Consistent(s) && !s.isRunning
    ensures Stop(Start(s, f, now)) == s.(syncFrequency := f, lastSyncTime := Some(now))
  {
  }
}
