/**
 * The run state of `EffectsController`: its `isRunning` flag and, as a
 * ghost stand-in for the `AVCaptureSession`, what the controller has told
 * the session: whether its last word was `startRunning`, and how often it
 * has sent `startRunning` and `stopRunning`. Stops the session makes by
 * itself (an interruption, a runtime error) are not recorded.
 */
module RunControl {

  /** What the controller has told the capture session so far. */
  datatype Session = Session(running: bool, starts: nat, stops: nat)

  datatype RunState = RunState(isRunning: bool, session: Session)

  /** A fresh controller: not running, the session never started. */
  const INITIAL: RunState := RunState(false, Session(false, 0, 0))

  /**
   * The flag mirrors what the controller last told the session, and the
   * session has been sent `startRunning` once more than `stopRunning`
   * exactly while the flag is set: it is never sent `startRunning` twice
   * without a `stopRunning` in between, nor the reverse.
   */
  ghost predicate Consistent(s: RunState) {
    s.isRunning == s.session.running &&
    s.session.starts == s.session.stops + (if s.isRunning then 1 else 0)
  }

  /** `start()`: guarded by `isRunning`, it starts the session at most once. */
  function Start(s: RunState): (r: RunState)
    ensures r.isRunning
    ensures s.isRunning ==> r == s
    ensures !s.isRunning ==> r.session == Session(true, s.session.starts + 1, s.session.stops)
    ensures Consistent(s) ==> Consistent(r)
  {
    if !s.isRunning then
      RunState(true, s.session.(running := true, starts := s.session.starts + 1))
    else
      s
  }

  /** `stop()`: guarded by `isRunning`, it stops the session at most once. */
  function Stop(s: RunState): (r: RunState)
    ensures !r.isRunning
    ensures !s.isRunning ==> r == s
    ensures s.isRunning ==> r.session == Session(false, s.session.starts, s.session.stops + 1)
    ensures Consistent(s) ==> Consistent(r)
  {
    if s.isRunning then
      RunState(false, s.session.(running := false, stops := s.session.stops + 1))
    else
      s
  }

  lemma InitialConsistent()
    ensures Consistent(INITIAL)
  {
  }

  /** Both calls are idempotent. */
  lemma StartStopIdempotent(s: RunState)
    ensures Start(Start(s)) == Start(s)
    ensures Stop(Stop(s)) == Stop(s)
  {
  }

  /**
   * `start(); stop()` from a stopped controller returns the flag and the
   * session to not running, having started and stopped the session once each.
   */
  lemma StartThenStop(s: RunState)
    requires Consistent(s) && !s.isRunning
    ensures Stop(Start(s)).isRunning == s.isRunning
    ensures Stop(Start(s)).session.running == s.session.running
    ensures Stop(Start(s)).session.starts == s.session.starts + 1
    ensures Stop(Start(s)).session.stops == s.session.stops + 1
  {
  }

  // ---------------------------------------------------------------------
  // Arbitrary sequences of calls, as `applicationDidFinishLaunching`,
  // `toggleCamera` and `applicationWillTerminate` issue them.

  datatype Call = StartCall | StopCall

  function Step(s: RunState, c: Call): RunState {
    match c
    case StartCall => Start(s)
    case StopCall => Stop(s)
  }

  /** The state after the calls, issued in order. */
  function Run(s: RunState, calls: seq<Call>): RunState
    decreases |calls|
  {
    if calls == [] then s else Run(Step(s, calls[0]), calls[1..])
  }

  /** No sequence of calls breaks the correspondence between the flag and the calls sent to the session. */
  lemma {:induction false} RunConsistent(s: RunState, calls: seq<Call>)
    requires Consistent(s)
    ensures Consistent(Run(s, calls))
    decreases |calls|
  {
    if calls != [] {
      RunConsistent(Step(s, calls[0]), calls[1..]);
    }
  }

  /** After a non-empty sequence of calls, the controller runs iff the last call was `start()`. */
  lemma {:induction false} RunLastCallWins(s: RunState, calls: seq<Call>)
    requires calls != []
    ensures Run(s, calls).isRunning == (calls[|calls| - 1] == StartCall)
    decreases |calls|
  {
    if |calls| > 1 {
      RunLastCallWins(Step(s, calls[0]), calls[1..]);
    }
  }

  /** The session is sent `startRunning` no more often than `start()` is called. */
  lemma {:induction false} RunStartsBounded(s: RunState, calls: seq<Call>)
    ensures Run(s, calls).session.starts <= s.session.starts + multiset(calls)[StartCall]
    ensures Run(s, calls).session.stops <= s.session.stops + multiset(calls)[StopCall]
    decreases |calls|
  {
    if calls != [] {
      RunStartsBounded(Step(s, calls[0]), calls[1..]);
      assert calls == [calls[0]] + calls[1..];
    }
  }
}
