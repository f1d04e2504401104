/** An operation executed under a lease: the executor and the heartbeat goroutine, step by step. */
module Lease {
  /** How one attempt of executeOperation ends. */
  datatype Attempt = Fine | Transient | Permanent

  datatype Config = Config(retryable: bool, attempts: nat, heartbeat: bool)

  function MaxAttempts(c: Config): nat {
    if c.retryable && c.attempts > 1 then c.attempts else 1
  }

  /** Where processOperation stands, once the claim is held. */
  datatype Main =
    | Running(attempt: nat)
    | Waiting(attempt: nat)
    | Stopping(good: bool)   // about to close stopHeartbeat
    | Joining(good: bool)    // receiving from heartbeatStopped
    | Draining(good: bool)   // the select on heartbeatErr
    | Reporting(good: bool)  // about to send the terminal status
    | Returned(lost: bool)

  /** Where the heartbeat goroutine stands. */
  datatype Beat = Selecting | Renewing | Sending | Cancelling | Leaving | Gone

  /**
   * `stop` and `stopped` say which channels are closed, `buffered` what heartbeatErr holds, `cancelled` whether the
   * execution context is done. The rest records what happened: how each attempt ended, whether a wait between two
   * was cut short, how the execution ended, what was sent, and the renewals with their failures.
   */
  datatype State = State(
    main: Main, beat: Beat, stop: bool, stopped: bool, buffered: nat, cancelled: bool,
    attempts: seq<Attempt>, cut: bool, ended: seq<bool>, sent: seq<bool>, renewals: nat, failures: nat)

  function Init(c: Config): State {
    State(Running(1), if c.heartbeat then Selecting else Gone, false, false, 0, false, [], false, [], [], 0, 0)
  }

  /** The execution has ended, well or not. */
  function Ended(c: Config, s: State, good: bool): State {
    s.(main := if c.heartbeat then Stopping(good) else Reporting(good), ended := s.ended + [good])
  }

  function AfterAttempt(c: Config, s: State, attempt: nat, how: Attempt): State {
    var t := s.(attempts := s.attempts + [how]);
    if how.Transient? && c.retryable && attempt < MaxAttempts(c) then t.(main := Waiting(attempt))
    else Ended(c, t, how.Fine?)
  }

  predicate MainStep(c: Config, s: State, t: State) {
    match s.main
    case Running(attempt) =>
      t == AfterAttempt(c, s, attempt, Fine) || t == AfterAttempt(c, s, attempt, Transient)
      || t == AfterAttempt(c, s, attempt, Permanent)
    case Waiting(attempt) => t == s.(main := Running(attempt + 1)) || (s.cancelled && t == Ended(c, s.(cut := true), false))
    case Stopping(good) => !s.stop && t == s.(main := Joining(good), stop := true)
    case Joining(good) => s.stopped && t == s.(main := Draining(good))
    case Draining(good) =>
      t == (if s.buffered > 0 then s.(main := Returned(true), buffered := s.buffered - 1, cancelled := true)
            else s.(main := Reporting(good), cancelled := true))
    case Reporting(good) => t == s.(main := Returned(false), sent := s.sent + [good])
    case Returned(_) => false
  }

  predicate BeatStep(s: State, t: State) {
    match s.beat
    case Selecting =>
      (s.stop && t == s.(beat := Leaving)) || (s.cancelled && t == s.(beat := Leaving))
      || t == s.(beat := Renewing, renewals := s.renewals + 1)
    case Renewing => t == s.(beat := Selecting) || t == s.(beat := Sending, failures := s.failures + 1)
    case Sending => s.buffered < 1 && t == s.(beat := Cancelling, buffered := s.buffered + 1)
    case Cancelling => t == s.(beat := Leaving, cancelled := true)
    case Leaving => !s.stopped && t == s.(beat := Gone, stopped := true)
    case Gone => false
  }

  /** The caller's context may be cancelled at any time. */
  predicate Interrupt(s: State, t: State) { !s.cancelled && t == s.(cancelled := true) }

  predicate Step(c: Config, s: State, t: State) {
    MainStep(c, s, t) || BeatStep(s, t) || Interrupt(s, t)
  }

  predicate Steps(c: Config, run: seq<State>) {
    forall i :: 0 <= i < |run| - 1 ==> Step(c, run[i], run[i + 1])
  }

  predicate Run(c: Config, run: seq<State>) {
    run != [] && run[0] == Init(c) && Steps(c, run)
  }

  // ---- what every step keeps ----

  predicate Executing(m: Main) { m.Running? || m.Waiting? }

  /** The error of a failed renewal is on its way to the executor. */
  predicate Undelivered(s: State) { s.failures == 1 && !s.main.Returned? }

  /** What the attempts of an execution can have been so far; `done` says that it has ended. */
  predicate Tried(c: Config, attempts: seq<Attempt>, cut: bool, done: bool) {
    && (|attempts| <= 1 || |attempts| <= c.attempts)
    && (forall i :: 0 <= i < |attempts| - 1 ==> attempts[i].Transient?)
    && (|attempts| > 1 || cut ==> c.retryable)
    && (cut ==> done && attempts != [] && attempts[|attempts| - 1].Transient? && |attempts| < c.attempts)
    && (done ==> attempts != [])
  }

  /** How an execution has to end, by its attempts and whether the wait after the last was cut short. */
  predicate Verdict(c: Config, attempts: seq<Attempt>, cut: bool, good: bool)
    requires attempts != []
  {
    var last := attempts[|attempts| - 1];
    && (good <==> last.Fine?)
    && (last.Transient? ==> cut || !c.retryable || |attempts| >= c.attempts)
  }

  /** The attempts recorded are those made, and the execution ended as they say. */
  predicate Accounted(c: Config, s: State) {
    && Tried(c, s.attempts, s.cut, !Executing(s.main))
    && (s.main.Running? ==> |s.attempts| == s.main.attempt - 1 && forall a :: a in s.attempts ==> a.Transient?)
    && (s.main.Waiting? ==> |s.attempts| == s.main.attempt && c.retryable && forall a :: a in s.attempts ==> a.Transient?)
    && (!Executing(s.main) ==> |s.ended| == 1 && Verdict(c, s.attempts, s.cut, s.ended[0]))
    && (s.cut ==> s.cancelled)
  }

  /** The heartbeat is left only once the execution has ended or its context is done; a failed renewal ends that. */
  predicate Attended(c: Config, s: State) {
    && (c.heartbeat && (s.beat.Leaving? || s.beat.Gone?) ==> s.cancelled || !Executing(s.main))
    && (s.failures > 0 && (s.beat.Leaving? || s.beat.Gone?) ==> s.cancelled)
  }

  predicate Safe(c: Config, s: State) {
    && Accounted(c, s)
    && (s.main.Running? || s.main.Waiting? ==> 1 <= s.main.attempt <= MaxAttempts(c))
    && (s.main.Waiting? ==> s.main.attempt < MaxAttempts(c))
    && |s.ended| == (if Executing(s.main) then 0 else 1)
    && (s.main.Stopping? || s.main.Joining? || s.main.Draining? || s.main.Reporting? ==> s.ended == [s.main.good])
    && s.sent == (if s.main == Returned(false) then s.ended else [])
    && s.failures <= 1 && (s.main.Reporting? || s.main == Returned(false) ==> s.failures == 0)
    && (s.main == Returned(true) ==> s.failures == 1)
    && (s.stop <==> c.heartbeat && !Executing(s.main) && !s.main.Stopping?)
    && (s.stopped <==> c.heartbeat && s.beat.Gone?)
    && (s.main.Draining? || s.main.Reporting? || s.main.Returned? ==> s.beat.Gone?)
    && (!c.heartbeat ==> s.beat.Gone? && s.failures == 0 && !s.main.Stopping? && !s.main.Joining? && !s.main.Draining?)
    && s.buffered == (if Undelivered(s) && !s.beat.Sending? then 1 else 0)
    && (s.beat.Selecting? || s.beat.Renewing? ==> s.failures == 0)
    && (s.beat.Sending? || s.beat.Cancelling? ==> s.failures == 1)
    && Attended(c, s)
  }

  lemma SafeStep(c: Config, s: State, t: State)
    requires Safe(c, s) && Step(c, s, t)
    ensures Safe(c, t)
  {
    if MainStep(c, s, t) { SafeMainStep(c, s, t); } else if BeatStep(s, t) { SafeBeatStep(c, s, t); }
  }

  lemma SafeMainStep(c: Config, s: State, t: State)
    requires Safe(c, s) && MainStep(c, s, t)
    ensures Safe(c, t)
  {
    if Executing(s.main) { SafeExecution(c, s, t); } else { SafeShutdown(c, s, t); }
  }

  lemma SafeExecution(c: Config, s: State, t: State)
    requires Safe(c, s) && MainStep(c, s, t) && Executing(s.main)
    ensures Safe(c, t)
  {
    if s.main.Running? {
      if how :| how in [Fine, Transient, Permanent] && t == AfterAttempt(c, s, s.main.attempt, how) {
        SafeAttempt(c, s, t, how);
      }
    } else if t != s.(main := Running(s.main.attempt + 1)) {
      SafeEnd(c, s, s.(cut := true), false);
    }
  }

  lemma SafeAttempt(c: Config, s: State, t: State, how: Attempt)
    requires Safe(c, s) && s.main.Running? && t == AfterAttempt(c, s, s.main.attempt, how)
    ensures Safe(c, t)
  {
    var more := s.attempts + [how];
    assert forall i :: 0 <= i < |s.attempts| ==> more[i] == s.attempts[i] && s.attempts[i] in s.attempts;
    if !t.main.Waiting? { SafeEnd(c, s, s.(attempts := more), how.Fine?); }
  }

  lemma SafeEnd(c: Config, s: State, tried: State, good: bool)
    requires Safe(c, s) && Executing(s.main) && tried == s.(attempts := tried.attempts, cut := tried.cut)
    requires Tried(c, tried.attempts, tried.cut, true) && Verdict(c, tried.attempts, tried.cut, good)
    requires tried.cut ==> s.cancelled
    ensures Safe(c, Ended(c, tried, good))
  {
  }

  lemma SafeShutdown(c: Config, s: State, t: State)
    requires Safe(c, s) && MainStep(c, s, t) && !Executing(s.main)
    ensures Safe(c, t)
  {
  }

  lemma SafeBeatStep(c: Config, s: State, t: State)
    requires Safe(c, s) && BeatStep(s, t)
    ensures Safe(c, t)
  {
  }

  lemma {:induction false} SafeRun(c: Config, run: seq<State>, i: nat)
    requires Run(c, run) && i < |run|
    ensures Safe(c, run[i])
  {
    if i > 0 {
      SafeRun(c, run, i - 1);
      assert Step(c, run[i - 1], run[i - 1 + 1]);
      SafeStep(c, run[i - 1], run[i]);
    }
  }

  /**
   * In every interleaving: at most one terminal status is sent, it is what the execution ended with, and it is sent
   * only if no renewal of the whole run failed; a lost lease sends none, whatever the execution ended with. Success
   * is sent only if the last attempt went well, and failure only if it did not: it failed for good, or could not be
   * tried again, or the wait for that was cut short. All attempts before the last failed for the moment, and there
   * are no more than configured.
   */
  lemma TerminalStatus(c: Config, run: seq<State>)
    requires Run(c, run)
    ensures var s := run[|run| - 1];
            && |s.sent| <= 1 && (s.sent != [] ==> s.sent == s.ended && s.failures == 0)
            && (s.failures > 0 ==> s.sent == [])
            && (s.main.Returned? ==> (s.main.lost <==> s.failures > 0) && (s.sent == [] <==> s.main.lost))
    ensures var s := run[|run| - 1];
            && Tried(c, s.attempts, s.cut, s.ended != [])
            && (s.ended != [] ==> Verdict(c, s.attempts, s.cut, s.ended[0]))
            && (s.sent == [true] ==> s.attempts[|s.attempts| - 1].Fine?)
            && (s.sent == [false] ==> !s.attempts[|s.attempts| - 1].Fine?)
            && |s.attempts| <= (if c.retryable && c.attempts > 1 then c.attempts else 1)
  {
    SafeRun(c, run, |run| - 1);
  }

  /**
   * In every run the heartbeat goes on until the execution has ended or its context is done, and once a renewal has
   * failed the context is done before the heartbeat is gone.
   */
  lemma HeartbeatLasts(c: Config, run: seq<State>)
    requires Run(c, run) && c.heartbeat
    ensures var s := run[|run| - 1];
            && (Executing(s.main) && !s.cancelled ==> !s.beat.Leaving? && !s.beat.Gone?)
            && (s.failures > 0 && s.beat.Gone? ==> s.cancelled)
  {
    SafeRun(c, run, |run| - 1);
  }

  predicate BeatSteps(path: seq<State>) {
    forall i :: 0 <= i < |path| - 1 ==> BeatStep(path[i], path[i + 1])
  }

  /** Once stopHeartbeat is closed or the context is done, the heartbeat can end by itself and without a tick. */
  lemma HeartbeatCanEnd(c: Config, s: State) returns (path: seq<State>)
    requires Safe(c, s) && c.heartbeat && (s.stop || s.cancelled)
    ensures path != [] && path[0] == s && BeatSteps(path) && |path| <= 4
    ensures path[|path| - 1].beat.Gone? && path[|path| - 1].stopped && path[|path| - 1].renewals == s.renewals
  {
    match s.beat
    case Gone => path := [s];
    case Leaving => path := [s, s.(beat := Gone, stopped := true)];
    case Selecting =>
      var t := s.(beat := Leaving);
      path := [s, t, t.(beat := Gone, stopped := true)];
    case Renewing =>
      var r := s.(beat := Selecting);
      var t := r.(beat := Leaving);
      path := [s, r, t, t.(beat := Gone, stopped := true)];
    case Sending =>
      var r := s.(beat := Cancelling, buffered := s.buffered + 1);
      var t := r.(beat := Leaving, cancelled := true);
      path := [s, r, t, t.(beat := Gone, stopped := true)];
    case Cancelling =>
      var t := s.(beat := Leaving, cancelled := true);
      path := [s, t, t.(beat := Gone, stopped := true)];
  }

  /** Neither side ever blocks for good, and no channel is closed twice: until processOperation returns, a step is left. */
  lemma NoDeadlock(c: Config, s: State)
    requires Safe(c, s) && !s.main.Returned?
    ensures exists t :: MainStep(c, s, t) || BeatStep(s, t)
    ensures (s.main.Stopping? ==> !s.stop) && (s.beat.Leaving? ==> !s.stopped)
  {
    match s.main
    case Running(attempt) => assert MainStep(c, s, AfterAttempt(c, s, attempt, Fine));
    case Waiting(attempt) => assert MainStep(c, s, s.(main := Running(attempt + 1)));
    case Stopping(good) => assert MainStep(c, s, s.(main := Joining(good), stop := true));
    case Joining(good) => JoiningMoves(c, s);
    case Draining(good) =>
      assert MainStep(c, s, if s.buffered > 0 then s.(main := Returned(true), buffered := s.buffered - 1, cancelled := true)
                            else s.(main := Reporting(good), cancelled := true));
    case Reporting(good) => assert MainStep(c, s, s.(main := Returned(false), sent := s.sent + [good]));
  }

  lemma JoiningMoves(c: Config, s: State)
    requires Safe(c, s) && s.main.Joining?
    ensures exists t :: MainStep(c, s, t) || BeatStep(s, t)
  {
    match s.beat
    case Selecting => assert BeatStep(s, s.(beat := Leaving));
    case Renewing => assert BeatStep(s, s.(beat := Selecting));
    case Sending => assert BeatStep(s, s.(beat := Cancelling, buffered := s.buffered + 1));
    case Cancelling => assert BeatStep(s, s.(beat := Leaving, cancelled := true));
    case Leaving => assert BeatStep(s, s.(beat := Gone, stopped := true));
    case Gone => assert MainStep(c, s, s.(main := Draining(s.main.good)));
  }

  /** How far processOperation is from returning, once stopHeartbeat is closed. */
  function Distance(s: State): nat {
    (match s.main case Joining(_) => 3 case Draining(_) => 2 case Reporting(_) => 1 case _ => 0)
    + (match s.beat case Selecting => 2 case Renewing => 4 case Sending => 3 case Cancelling => 2 case Leaving => 1
                    case Gone => 0)
    + (if s.cancelled then 0 else 1)
  }

  /**
   * Once stopHeartbeat is closed, a run of n steps during which the heartbeat still picks k ticks has
   * n <= Distance + 3 * k, and Distance is at most 8: nothing but ticks can put off the return.
   */
  lemma {:induction false} Shutdown(c: Config, run: seq<State>)
    requires run != [] && Steps(c, run) && Safe(c, run[0]) && run[0].stop
    ensures var first, last := run[0], run[|run| - 1];
            && first.renewals <= last.renewals && Distance(first) <= 8
            && |run| - 1 + Distance(last) <= Distance(first) + 3 * (last.renewals - first.renewals)
  {
    if |run| > 1 {
      var front := run[..|run| - 1];
      assert forall i :: 0 <= i < |front| ==> front[i] == run[i];
      Shutdown(c, front);
      StopStays(c, front);
      assert Step(c, run[|run| - 2], run[|run| - 2 + 1]);
      StopStep(c, front[|front| - 1], run[|run| - 1]);
    }
  }

  lemma StopStep(c: Config, s: State, t: State)
    requires Safe(c, s) && s.stop && Step(c, s, t)
    ensures t.stop && s.renewals <= t.renewals && Distance(t) + 1 <= Distance(s) + 3 * (t.renewals - s.renewals)
  {
  }

  lemma {:induction false} StopStays(c: Config, run: seq<State>)
    requires run != [] && Steps(c, run) && Safe(c, run[0]) && run[0].stop
    ensures Safe(c, run[|run| - 1]) && run[|run| - 1].stop
  {
    if |run| > 1 {
      var front := run[..|run| - 1];
      assert forall i :: 0 <= i < |front| ==> front[i] == run[i];
      StopStays(c, front);
      assert Step(c, run[|run| - 2], run[|run| - 2 + 1]);
      SafeStep(c, front[|front| - 1], run[|run| - 1]);
      StopStep(c, front[|front| - 1], run[|run| - 1]);
    }
  }
}
