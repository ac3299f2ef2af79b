/**
  The stream controller: its run/restart loop with back-off, and the event thread that stops or
  restarts it.  The loop is cut at the points where the other thread can act, and a run is any
  interleaving of the pieces.
*/
module Controller {
  import opened Arithmetic
  import opened Wrappers
  import opened ChunkSearch

  const RESTART_AFTER_FROZEN_SEC: nat := 60

  /** `maxAttempts` is positive for every accepted configuration. */
  datatype Config = Config(maxAttempts: nat, timeshiftPlayer: bool) {
    predicate Valid() {
      maxAttempts > 0
    }
  }

  datatype Status = New | Init | Started | Ready | Playing | Frozen | Waiting

  // ----------------------------------------------------------------- back-off

  /** How a stream ended; `sinceStart` is in milliseconds since its loop started. */
  datatype Exit = Exit(inner: bool, vod: bool, sinceStart: int)

  datatype Decision = Leave | Again | Wait(seconds: nat, frozen: bool)

  predicate LongRun(e: Exit) {
    e.sinceStart / 1000 > RESTART_AFTER_FROZEN_SEC * 10
  }

  predicate ShortFailure(e: Exit) {
    e.inner && !LongRun(e)
  }

  /** The decision after a run, and the new attempt counter. */
  function AfterRun(max: nat, attempts: nat, e: Exit): (Decision, nat)
    requires max > 0
  {
    if e.vod then (Leave, attempts)
    else if !ShortFailure(e) then (Again, 0)
    else if attempts + 1 == max then (Wait(RESTART_AFTER_FROZEN_SEC, true), 0)
    else (Wait((attempts + 1) * (RESTART_AFTER_FROZEN_SEC / max), false), attempts + 1)
  }

  // ----------------------------------------------------------------- the two threads

  /** Where the main thread is: before the stop check, searching or waiting for a chunk, about to create, ... */
  datatype Pc = LoopHead | ChunkSearch | ChunkWait | Create | Running | BackoffWait(seconds: nat) | Returned

  /** What the attempt counter reacts to. */
  datatype Event = Failure | Reset

  /**
    `quit` records that the running stream was asked to quit; `stopping` that the event thread has
    released the mutex but not yet looked at the stream; `history` is kept for specification.
  */
  datatype State = State(pc: Pc, stop: bool, attempts: nat, status: Status, restarts: nat,
                         stopping: bool, quit: bool, history: seq<Event>)

  const INITIAL := State(LoopHead, false, 0, New, 0, false, false, [])

  /**
    The main thread's steps carry what the environment answers.  A wait may end with or without a
    time-out whatever was notified, which allows for spurious and for lost wake-ups.
  */
  datatype Step =
    | CheckStop
    | Searched(found: Option<nat>)
    | WaitEnded(noTimeout: bool)
    | Created(ok: bool)
    | Exited(exit: Exit)
    | StopLocked
    | RestartLocked
    | QuitStream

  predicate Enabled(s: State, step: Step) {
    match step
    case CheckStop => s.pc.LoopHead?
    case Searched(_) => s.pc.ChunkSearch?
    case WaitEnded(_) => s.pc.ChunkWait? || s.pc.BackoffWait?
    case Created(_) => s.pc.Create?
    case Exited(_) => s.pc.Running?
    case StopLocked => !s.stopping
    case RestartLocked => !s.stopping
    case QuitStream => s.stopping
  }

  function Next(cfg: Config, s: State, step: Step): State
    requires cfg.Valid() && Enabled(s, step)
  {
    match step
    case CheckStop =>
      s.(pc := if s.stop then Returned else if cfg.timeshiftPlayer then ChunkSearch else Create)
    case Searched(found) =>
      if found.None? then s.(pc := ChunkWait, status := Waiting)
      else s.(pc := if found.value == INVALID_INDEX then LoopHead else Create)
    case WaitEnded(noTimeout) =>
      if s.pc.ChunkWait? then
        if noTimeout then s.(pc := LoopHead, restarts := s.restarts + 1) else s.(pc := ChunkSearch)
      else
        if noTimeout then s.(pc := LoopHead, attempts := 0, history := s.history + [Reset]) else s.(pc := LoopHead)
    case Created(ok) =>
      s.(pc := if ok then Running else Returned, quit := false)
    case Exited(e) =>
      var (d, a) := AfterRun(cfg.maxAttempts, s.attempts, e);
      var t := s.(attempts := a);
      match d {
        case Leave => t.(pc := Returned)
        case Again => t.(pc := LoopHead, history := s.history + [Reset])
        case Wait(seconds, frozen) =>
          t.(pc := BackoffWait(seconds), history := s.history + [Failure],
             status := if frozen then Frozen else s.status)
      }
    case StopLocked => s.(stop := true, stopping := true)
    case RestartLocked => s.(stopping := true)
    case QuitStream => s.(stopping := false, quit := s.quit || s.pc.Running?)
  }

  ghost predicate IsRun(cfg: Config, states: seq<State>, steps: seq<Step>)
    requires cfg.Valid()
  {
    && |states| == |steps| + 1
    && forall k :: 0 <= k < |steps| ==>
         Enabled(states[k], steps[k]) && states[k + 1] == Next(cfg, states[k], steps[k])
  }

  // ----------------------------------------------------------------- what every step keeps

  /** Failures since the last reset. */
  function Streak(history: seq<Event>): nat {
    if history == [] || history[|history| - 1].Reset? then 0
    else 1 + Streak(history[..|history| - 1])
  }

  ghost predicate Inv(cfg: Config, s: State)
    requires cfg.Valid()
  {
    && s.attempts == Streak(s.history) % cfg.maxAttempts
    && (s.pc.BackoffWait? ==> s.pc.seconds <= RESTART_AFTER_FROZEN_SEC)
    && (s.pc.ChunkSearch? || s.pc.ChunkWait? ==> cfg.timeshiftPlayer)
  }

  lemma StreakAppend(history: seq<Event>, e: Event)
    ensures Streak(history + [e]) == if e.Reset? then 0 else Streak(history) + 1
  {
    assert (history + [e])[..|history|] == history;
  }

  lemma ModSuccessor(n: nat, m: nat)
    requires m > 0
    ensures (n + 1) % m == if n % m + 1 == m then 0 else n % m + 1
  {
    var q, r := n / m, n % m;
    assert n + 1 == q * m + (r + 1);
    if r + 1 == m {
      assert n + 1 == (q + 1) * m;
      ModIs(n + 1, m, q + 1, 0);
    } else {
      ModIs(n + 1, m, q, r + 1);
    }
  }

  lemma WaitIsShort(max: nat, attempts: nat)
    requires max > 0 && attempts <= max
    ensures attempts * (RESTART_AFTER_FROZEN_SEC / max) <= RESTART_AFTER_FROZEN_SEC
  {
    var d := RESTART_AFTER_FROZEN_SEC / max;
    assert attempts * d <= max * d;
  }

  lemma ExitKeepsInv(cfg: Config, s: State, e: Exit)
    requires cfg.Valid() && s.pc.Running? && Inv(cfg, s)
    ensures Inv(cfg, Next(cfg, s, Exited(e)))
  {
    hide Streak;
    var max := cfg.maxAttempts;
    ResetClearsStreak(s.history, max);
    StreakAppend(s.history, Failure);
    ModSuccessor(Streak(s.history), max);
    WaitIsShort(max, s.attempts + 1);
  }

  lemma ResetClearsStreak(history: seq<Event>, max: nat)
    requires max > 0
    ensures Streak(history + [Reset]) % max == 0
  {
    StreakAppend(history, Reset);
    ModIs(0, max, 0, 0);
  }

  lemma StepKeepsInv(cfg: Config, s: State, step: Step)
    requires cfg.Valid() && Enabled(s, step) && Inv(cfg, s)
    ensures Inv(cfg, Next(cfg, s, step))
    ensures s.stop ==> Next(cfg, s, step).stop
  {
    hide Streak, AfterRun, Inv;
    if step.Exited? {
      ExitKeepsInv(cfg, s, step.exit);
    } else {
      OtherStepKeepsInv(cfg, s, step);
    }
  }

  lemma OtherStepKeepsInv(cfg: Config, s: State, step: Step)
    requires cfg.Valid() && Enabled(s, step) && Inv(cfg, s) && !step.Exited?
    ensures Inv(cfg, Next(cfg, s, step))
  {
    hide Streak, AfterRun;
    ResetClearsStreak(s.history, cfg.maxAttempts);
  }

  /** The stream is declared frozen exactly at every `maxAttempts`-th failure since the last reset. */
  predicate FreezesNow(s: State, t: State) {
    t.history == s.history + [Failure] && t.pc == BackoffWait(RESTART_AFTER_FROZEN_SEC) && t.attempts == 0
    && t.status == Frozen
  }

  lemma FrozenIff(cfg: Config, s: State, e: Exit)
    requires cfg.Valid() && Inv(cfg, s) && s.pc.Running?
    ensures FreezesNow(s, Next(cfg, s, Exited(e)))
            <==> !e.vod && ShortFailure(e) && (Streak(s.history) + 1) % cfg.maxAttempts == 0
  {
    hide Streak;
    ModSuccessor(Streak(s.history), cfg.maxAttempts);
    assert (s.history + [Failure])[|s.history|] != (s.history + [Reset])[|s.history|];
  }

  /**
    Over every interleaving: the counter stays below the limit and counts the failures since the last
    reset, no wait is longer than a minute, and a stop is never taken back.
  */
  lemma {:induction false} RunKeepsInv(cfg: Config, states: seq<State>, steps: seq<Step>, k: nat)
    requires cfg.Valid() && IsRun(cfg, states, steps) && states[0] == INITIAL && k <= |steps|
    ensures Inv(cfg, states[k]) && states[k].attempts < cfg.maxAttempts
    ensures forall j :: 0 <= j <= k && states[j].stop ==> states[k].stop
  {
    if k > 0 {
      RunKeepsInv(cfg, states, steps, k - 1);
      StepKeepsInv(cfg, states[k - 1], steps[k - 1]);
      assert states[k] == Next(cfg, states[k - 1], steps[k - 1]);
    } else {
      ModIs(0, cfg.maxAttempts, 0, 0);
    }
  }

  // ----------------------------------------------------------------- stop safety

  /** Streams created by the steps. */
  function Creates(steps: seq<Step>): nat {
    if steps == [] then 0 else Creates(steps[..|steps| - 1]) + (if steps[|steps| - 1].Created? then 1 else 0)
  }

  /** A stop that lands past the stop check of an iteration does not prevent that iteration's stream. */
  function StillToCreate(pc: Pc): nat {
    if pc.ChunkSearch? || pc.ChunkWait? || pc.Create? then 1 else 0
  }

  /**
    Once the stop flag is set, the streams still created are at most the one of the current iteration,
    and none at all when the stop lands in a run, in a back-off wait or at the loop head.
  */
  lemma {:induction false} StopBoundsCreates(cfg: Config, states: seq<State>, steps: seq<Step>)
    requires cfg.Valid() && IsRun(cfg, states, steps) && states[0].stop
    ensures states[|steps|].stop
    ensures Creates(steps) + StillToCreate(states[|steps|].pc) <= StillToCreate(states[0].pc)
    decreases |steps|
  {
    hide AfterRun;
    if steps != [] {
      var n := |steps| - 1;
      PrefixIsRun(cfg, states, steps, n);
      StopBoundsCreates(cfg, states[..n + 1], steps[..n]);
      assert states[n + 1] == Next(cfg, states[n], steps[n]);
    }
  }

  lemma PrefixIsRun(cfg: Config, states: seq<State>, steps: seq<Step>, n: nat)
    requires cfg.Valid() && IsRun(cfg, states, steps) && n <= |steps|
    ensures IsRun(cfg, states[..n + 1], steps[..n])
  {
    hide Next;
    forall k | 0 <= k < n
      ensures Enabled(states[..n + 1][k], steps[..n][k])
              && states[..n + 1][k + 1] == Next(cfg, states[..n + 1][k], steps[..n][k])
    {
      assert steps[..n][k] == steps[k] && states[..n + 1][k] == states[k];
    }
  }

  /** The bound is reached wherever it is one: the search may succeed and the stream be created after the stop. */
  lemma StopBoundIsTight(cfg: Config, s: State) returns (states: seq<State>, steps: seq<Step>)
    requires cfg.Valid() && s.stop
    ensures IsRun(cfg, states, steps) && states[0] == s && Creates(steps) == StillToCreate(s.pc)
  {
    match s.pc {
      case Create =>
        steps := [Created(true)];
        states := [s, Next(cfg, s, Created(true))];
        assert steps[..0] == [];
      case ChunkSearch =>
        var a := Next(cfg, s, Searched(Some(0)));
        states, steps := StopBoundIsTightAfter(cfg, s, Searched(Some(0)), a);
      case ChunkWait =>
        var a := Next(cfg, s, WaitEnded(false));
        var b := Next(cfg, a, Searched(Some(0)));
        steps := [WaitEnded(false), Searched(Some(0)), Created(true)];
        states := [s, a, b, Next(cfg, b, Created(true))];
        assert steps[..2] == [WaitEnded(false), Searched(Some(0))] && steps[..2][..1] == [WaitEnded(false)];
        assert Creates([WaitEnded(false), Searched(Some(0))]) == 0;
      case _ =>
        states, steps := [s], [];
    }
  }

  lemma StopBoundIsTightAfter(cfg: Config, s: State, step: Step, a: State) returns (states: seq<State>, steps: seq<Step>)
    requires cfg.Valid() && Enabled(s, step) && a == Next(cfg, s, step) && a.pc.Create? && !step.Created?
    ensures IsRun(cfg, states, steps) && states[0] == s && Creates(steps) == 1
  {
    steps := [step, Created(true)];
    states := [s, a, Next(cfg, a, Created(true))];
    assert steps[..1] == [step] && [step][..0] == [];
    assert Creates([step]) == 0;
  }

  // ----------------------------------------------------------------- steps after a stop

  predicate MainStep(step: Step) {
    !step.StopLocked? && !step.RestartLocked? && !step.QuitStream?
  }

  function MainSteps(steps: seq<Step>): nat {
    if steps == [] then 0 else MainSteps(steps[..|steps| - 1]) + (if MainStep(steps[|steps| - 1]) then 1 else 0)
  }

  /** Steps of the main thread from `pc` to the end of `Exec` once the stop flag is set and no chunk is sought. */
  function StepsLeft(pc: Pc): nat {
    match pc
    case Returned => 0
    case LoopHead => 1
    case BackoffWait(_) => 2
    case Running => 3
    case _ => 4
  }

  predicate SeeksChunk(s: State) {
    s.pc.ChunkSearch? || s.pc.ChunkWait?
  }

  /** Once stopped outside the chunk search, every step of the main thread brings the end of `Exec` closer. */
  lemma {:induction false} StopCountsDown(cfg: Config, states: seq<State>, steps: seq<Step>)
    requires cfg.Valid() && IsRun(cfg, states, steps) && states[0].stop && !SeeksChunk(states[0])
    ensures states[|steps|].stop && !SeeksChunk(states[|steps|])
    ensures MainSteps(steps) + StepsLeft(states[|steps|].pc) <= StepsLeft(states[0].pc)
    decreases |steps|
  {
    hide AfterRun;
    if steps != [] {
      var n := |steps| - 1;
      PrefixIsRun(cfg, states, steps, n);
      StopCountsDown(cfg, states[..n + 1], steps[..n]);
      assert states[n + 1] == Next(cfg, states[n], steps[n]);
    }
  }

  /**
    A player stopped while it looks for a chunk can stay in that loop for ever: the inner loop never looks
    at the stop flag, and the notification may be over before its wait begins.
  */
  lemma {:induction false} StopMayBeMissed(cfg: Config, s: State, n: nat) returns (states: seq<State>, steps: seq<Step>)
    requires cfg.Valid() && s.stop && SeeksChunk(s)
    ensures IsRun(cfg, states, steps) && states[0] == s
    ensures |steps| == n == MainSteps(steps) && states[n].stop && SeeksChunk(states[n])
  {
    if n == 0 {
      states, steps := [s], [];
    } else {
      hide Next, MainSteps, SeeksChunk;
      var before, taken := StopMayBeMissed(cfg, s, n - 1);
      var step := SearchGoesOn(cfg, before[n - 1]);
      states, steps := before + [Next(cfg, before[n - 1], step)], taken + [step];
      ExtendRun(cfg, before, taken, step);
      MainStepsAppend(taken, step);
    }
    NoMainSteps();
  }

  lemma NoMainSteps()
    ensures MainSteps([]) == 0
  {
  }

  lemma SearchGoesOn(cfg: Config, s: State) returns (step: Step)
    requires cfg.Valid() && SeeksChunk(s)
    ensures Enabled(s, step) && MainStep(step) && SeeksChunk(Next(cfg, s, step)) && Next(cfg, s, step).stop == s.stop
  {
    step := if s.pc.ChunkSearch? then Searched(None) else WaitEnded(false);
  }

  lemma ExtendRun(cfg: Config, states: seq<State>, steps: seq<Step>, step: Step)
    requires cfg.Valid() && IsRun(cfg, states, steps) && Enabled(states[|steps|], step)
    ensures IsRun(cfg, states + [Next(cfg, states[|steps|], step)], steps + [step])
  {
    hide Next, Enabled;
  }

  /** In every run from `s` the main thread takes at most `n` steps. */
  ghost predicate StepsWithin(cfg: Config, s: State, n: nat)
    requires cfg.Valid()
  {
    forall states, steps :: IsRun(cfg, states, steps) && states[0] == s ==> MainSteps(steps) <= n
  }

  /**
    After a stop the main thread takes at most four more steps, in every run, exactly outside the chunk
    search; inside it no larger bound holds either.  The bound does not say that a running stream ends.
  */
  lemma StopBoundsStepsIff(cfg: Config, s: State, n: nat)
    requires cfg.Valid() && s.stop && n >= 4
    ensures StepsWithin(cfg, s, n) <==> !SeeksChunk(s)
  {
    if SeeksChunk(s) {
      var states, steps := StopMayBeMissed(cfg, s, n + 1);
      assert MainSteps(steps) > n;
    } else {
      forall states, steps | IsRun(cfg, states, steps) && states[0] == s
        ensures MainSteps(steps) <= n
      {
        StopCountsDown(cfg, states, steps);
      }
    }
  }

  ghost predicate Reachable(cfg: Config, s: State)
    requires cfg.Valid()
  {
    exists states, steps :: IsRun(cfg, states, steps) && states[0] == INITIAL && states[|steps|] == s
  }

  /** A stop can land in the chunk search of a time-shift player, in its second step. */
  lemma StoppedSearchIsReachable(cfg: Config) returns (s: State)
    requires cfg.Valid() && cfg.timeshiftPlayer
    ensures Reachable(cfg, s) && s.stop && s.pc.ChunkSearch?
  {
    var searching := Next(cfg, INITIAL, CheckStop);
    s := Next(cfg, searching, StopLocked);
    var states, steps := [INITIAL, searching, s], [CheckStop, StopLocked];
    assert IsRun(cfg, states, steps);
  }

  /**
    So wherever a stop lands in a run, it leaves at most four steps to the main thread, exactly for the
    streams that are no time-shift players.
  */
  lemma StopAlwaysBoundsStepsIff(cfg: Config)
    requires cfg.Valid()
    ensures (forall s :: Reachable(cfg, s) && s.stop ==> StepsWithin(cfg, s, 4)) <==> !cfg.timeshiftPlayer
  {
    hide StepsWithin, Next;
    if cfg.timeshiftPlayer {
      var s := StoppedSearchIsReachable(cfg);
      StopBoundsStepsIff(cfg, s, 4);
    } else {
      forall s | Reachable(cfg, s) && s.stop
        ensures StepsWithin(cfg, s, 4)
      {
        var states, steps :| IsRun(cfg, states, steps) && states[0] == INITIAL && states[|steps|] == s;
        RunKeepsInv(cfg, states, steps, |steps|);
        StopBoundsStepsIff(cfg, s, 4);
      }
    }
  }

  // ----------------------------------------------------------------- a stop that notifies the chunk wait

  /** The wait is left, the iteration given up, and the loop ends at the flag. */
  lemma NotifiedStopReturns(cfg: Config, s: State)
    requires cfg.Valid() && s.stop && s.pc.ChunkWait?
    ensures var t := Next(cfg, s, WaitEnded(true)); Enabled(t, CheckStop) && Next(cfg, t, CheckStop).pc == Returned
  {
  }

  /** The first step of the main thread, if it takes any, is the end of a notified wait. */
  ghost predicate NotifiedFirst(steps: seq<Step>) {
    forall k :: 0 <= k < |steps| && MainStep(steps[k]) && (forall j :: 0 <= j < k ==> !MainStep(steps[j])) ==>
                  steps[k] == WaitEnded(true)
  }

  /**
    From every stopped chunk wait, whatever the event thread does meanwhile: a notification that ends the
    wait leaves the main thread one more step, and no stream is created.
  */
  lemma {:induction false} NotifiedStopIsHeard(cfg: Config, states: seq<State>, steps: seq<Step>)
    requires cfg.Valid() && IsRun(cfg, states, steps) && states[0].stop && states[0].pc.ChunkWait?
    requires NotifiedFirst(steps)
    ensures MainSteps(steps) <= 2 && Creates(steps) == 0
    ensures MainSteps(steps) == 2 ==> states[|steps|].pc.Returned?
    decreases |steps|
  {
    hide AfterRun;
    if steps != [] {
      SuffixIsRun(cfg, states, steps);
      FirstStepCounts(steps);
      assert states[1] == Next(cfg, states[0], steps[0]);
      if MainStep(steps[0]) {
        StopCountsDown(cfg, states[1..], steps[1..]);
        StopBoundsCreates(cfg, states[1..], steps[1..]);
      } else {
        forall k | 0 <= k < |steps[1..]| && MainStep(steps[1..][k])
                   && (forall j :: 0 <= j < k ==> !MainStep(steps[1..][j]))
          ensures steps[1..][k] == WaitEnded(true)
        {
          assert forall j :: 0 < j < k + 1 ==> steps[j] == steps[1..][j - 1];
          assert steps[k + 1] == steps[1..][k];
        }
        NotifiedStopIsHeard(cfg, states[1..], steps[1..]);
      }
    }
  }

  lemma {:induction false} FirstStepCounts(steps: seq<Step>)
    requires steps != []
    ensures MainSteps(steps) == (if MainStep(steps[0]) then 1 else 0) + MainSteps(steps[1..])
    ensures Creates(steps) == (if steps[0].Created? then 1 else 0) + Creates(steps[1..])
    decreases |steps|
  {
    hide MainStep;
    var n := |steps| - 1;
    if n == 0 {
      assert steps[..0] == [] == steps[1..];
    } else {
      FirstStepCounts(steps[..n]);
      assert steps[1..][..n - 1] == steps[..n][1..];
    }
  }

  /** Chunk waits that a notification ended. */
  function NotifiedChunkWaits(states: seq<State>, steps: seq<Step>): nat
    requires |states| == |steps| + 1
    decreases |steps|
  {
    if steps == [] then 0
    else (if steps[0] == WaitEnded(true) && states[0].pc.ChunkWait? then 1 else 0)
         + NotifiedChunkWaits(states[1..], steps[1..])
  }

  /** Over any run, of either thread's steps, the restarts that are counted are the notified chunk waits. */
  lemma {:induction false} RestartsCount(cfg: Config, states: seq<State>, steps: seq<Step>)
    requires cfg.Valid() && IsRun(cfg, states, steps)
    ensures states[|steps|].restarts == states[0].restarts + NotifiedChunkWaits(states, steps)
    decreases |steps|
  {
    hide AfterRun;
    if steps != [] {
      SuffixIsRun(cfg, states, steps);
      RestartsCount(cfg, states[1..], steps[1..]);
      assert states[1] == Next(cfg, states[0], steps[0]);
    }
  }

  // ----------------------------------------------------------------- when the loop ends, and what it creates

  /** The stop flag is set exactly by a stop. */
  lemma {:induction false} StoppedIff(cfg: Config, states: seq<State>, steps: seq<Step>)
    requires cfg.Valid() && IsRun(cfg, states, steps)
    ensures states[|steps|].stop <==> states[0].stop || exists k :: 0 <= k < |steps| && steps[k].StopLocked?
    decreases |steps|
  {
    hide AfterRun;
    if steps != [] {
      var n := |steps| - 1;
      PrefixIsRun(cfg, states, steps, n);
      StoppedIff(cfg, states[..n + 1], steps[..n]);
      assert states[n + 1] == Next(cfg, states[n], steps[n]);
      assert forall k :: 0 <= k < n ==> steps[..n][k] == steps[k];
    }
  }

  /** Step `k` ends `Exec`: a loop check after a stop, a stream that cannot be created, the end of a VOD. */
  ghost predicate EndsExec(steps: seq<Step>, k: int)
    requires 0 <= k < |steps|
  {
    || (steps[k].CheckStop? && exists j :: 0 <= j < k && steps[j].StopLocked?)
    || steps[k] == Created(false)
    || (steps[k].Exited? && steps[k].exit.vod)
  }

  /** Over every run from the start, `Exec` has ended exactly when one of its steps ended it. */
  lemma {:induction false} ReturnedIff(cfg: Config, states: seq<State>, steps: seq<Step>)
    requires cfg.Valid() && IsRun(cfg, states, steps) && states[0] == INITIAL
    ensures states[|steps|].pc.Returned? <==> exists k :: 0 <= k < |steps| && EndsExec(steps, k)
    decreases |steps|
  {
    hide EndsExec, AfterRun;
    if steps != [] {
      var n := |steps| - 1;
      PrefixIsRun(cfg, states, steps, n);
      ReturnedIff(cfg, states[..n + 1], steps[..n]);
      StoppedIff(cfg, states[..n + 1], steps[..n]);
      EndsExecEarlier(steps, n);
      assert states[n + 1] == Next(cfg, states[n], steps[n]);
      assert forall j :: 0 <= j < n ==> steps[..n][j] == steps[j];
      LastStepEnds(cfg, states[n], steps, states[n].stop);
    }
  }

  /** A step that ended the run's beginning ended the run. */
  lemma EndsExecEarlier(steps: seq<Step>, n: nat)
    requires n + 1 == |steps|
    ensures forall k :: 0 <= k < n ==> (EndsExec(steps[..n], k) <==> EndsExec(steps, k))
    ensures (exists k :: 0 <= k < |steps| && EndsExec(steps, k))
            <==> EndsExec(steps, n) || exists k :: 0 <= k < n && EndsExec(steps[..n], k)
  {
    forall k | 0 <= k < n
      ensures EndsExec(steps[..n], k) <==> EndsExec(steps, k)
    {
      assert forall j :: 0 <= j <= k ==> steps[..n][j] == steps[j];
    }
  }

  lemma LastStepEnds(cfg: Config, s: State, steps: seq<Step>, stopped: bool)
    requires cfg.Valid() && steps != [] && Enabled(s, steps[|steps| - 1]) && s.stop == stopped
    requires stopped <==> exists j :: 0 <= j < |steps| - 1 && steps[j].StopLocked?
    ensures Next(cfg, s, steps[|steps| - 1]).pc.Returned? <==> s.pc.Returned? || EndsExec(steps, |steps| - 1)
  {
    hide AfterRun;
    if steps[|steps| - 1].Exited? {
      ExitLeadsTo(cfg, s, steps[|steps| - 1].exit);
    }
  }

  /** The last step the main thread took. */
  function LastMainStep(steps: seq<Step>): Option<Step> {
    if steps == [] then None
    else if MainStep(steps[|steps| - 1]) then Some(steps[|steps| - 1])
    else LastMainStep(steps[..|steps| - 1])
  }

  /**
    In every run from the start a stream is about to be created exactly when the main thread's last step
    found a valid chunk, or, for a stream that is no time-shift player, was a loop check that went on.
  */
  lemma {:induction false} CreatesIff(cfg: Config, states: seq<State>, steps: seq<Step>)
    requires cfg.Valid() && IsRun(cfg, states, steps) && states[0] == INITIAL
    ensures var last := LastMainStep(steps);
            states[|steps|].pc.Create?
            <==> last.Some? && if cfg.timeshiftPlayer
                               then last.value.Searched? && last.value.found.Some?
                                    && last.value.found.value != INVALID_INDEX
                               else last.value.CheckStop? && !states[|steps|].pc.Returned?
    decreases |steps|
  {
    hide AfterRun;
    if steps != [] {
      var n := |steps| - 1;
      PrefixIsRun(cfg, states, steps, n);
      CreatesIff(cfg, states[..n + 1], steps[..n]);
      RunKeepsInv(cfg, states, steps, n);
      assert states[n + 1] == Next(cfg, states[n], steps[n]);
      if steps[n].Exited? {
        ExitLeadsTo(cfg, states[n], steps[n].exit);
      }
    }
  }

  /** A VOD ends `Exec`; a success, or more than ten minutes of work, clears the counter; all else waits. */
  lemma ExitLeadsTo(cfg: Config, s: State, e: Exit)
    requires cfg.Valid() && s.pc.Running?
    ensures var t := Next(cfg, s, Exited(e));
            && (t.pc.Returned? <==> e.vod)
            && (t.pc.LoopHead? <==> !e.vod && (!e.inner || e.sinceStart / 1000 > 600))
            && (t.pc.BackoffWait? <==> !e.vod && e.inner && e.sinceStart / 1000 <= 600)
            && (t.pc.Returned? ==> t.attempts == s.attempts)
            && (t.pc.LoopHead? ==> t.attempts == 0)
            && (!t.pc.BackoffWait? ==> t.status == s.status)
  {
  }

  // ----------------------------------------------------------------- failures in a row

  predicate Fails(step: Step) {
    step.Exited? && !step.exit.vod && step.exit.inner && step.exit.sinceStart / 1000 <= 600
  }

  /** A success, more than ten minutes of work, or a back-off wait that is notified. */
  predicate Clears(s: State, step: Step) {
    || (step.Exited? && !step.exit.vod && !Fails(step))
    || (step == WaitEnded(true) && s.pc.BackoffWait?)
  }

  /** Failures at the end of a run that nothing has cleared. */
  function InARow(states: seq<State>, steps: seq<Step>): nat
    requires |states| == |steps| + 1
    decreases |steps|
  {
    if steps == [] then 0
    else
      var n := |steps| - 1;
      if Clears(states[n], steps[n]) then 0
      else InARow(states[..n + 1], steps[..n]) + (if Fails(steps[n]) then 1 else 0)
  }

  /** In every run from the start the attempt counter is the number of failures in a row, modulo the limit. */
  lemma {:induction false} AttemptsCountFailures(cfg: Config, states: seq<State>, steps: seq<Step>)
    requires cfg.Valid() && IsRun(cfg, states, steps) && states[0] == INITIAL
    ensures Streak(states[|steps|].history) == InARow(states, steps)
    ensures states[|steps|].attempts == InARow(states, steps) % cfg.maxAttempts
    decreases |steps|
  {
    hide Streak, Next, Clears, Fails;
    RunKeepsInv(cfg, states, steps, |steps|);
    if steps == [] {
      EmptyStreak();
    } else {
      var n := |steps| - 1;
      PrefixIsRun(cfg, states, steps, n);
      AttemptsCountFailures(cfg, states[..n + 1], steps[..n]);
      StreakStep(cfg, states[n], steps[n]);
    }
  }

  lemma EmptyStreak()
    ensures Streak([]) == 0
  {
  }

  lemma StreakStep(cfg: Config, s: State, step: Step)
    requires cfg.Valid() && Enabled(s, step)
    ensures Streak(Next(cfg, s, step).history)
            == if Clears(s, step) then 0 else Streak(s.history) + (if Fails(step) then 1 else 0)
  {
    hide Streak;
    StreakAppend(s.history, Reset);
    StreakAppend(s.history, Failure);
  }

  /** A minute at the limit, before it as many units as there were failures. */
  function WaitAfter(max: nat, row: nat): nat
    requires max > 0
  {
    if row == 0 then 60 else row * (60 / max)
  }

  /**
    In every run from the start a failure waits a minute and freezes the stream exactly when the failures in
    a row are a multiple of the limit, and otherwise waits one unit for each failure since the last freeze.
  */
  lemma FailureWaits(cfg: Config, states: seq<State>, steps: seq<Step>)
    requires cfg.Valid() && IsRun(cfg, states, steps) && states[0] == INITIAL
    requires steps != [] && Fails(steps[|steps| - 1])
    ensures var n, row := |steps| - 1, InARow(states, steps) % cfg.maxAttempts;
            && states[n + 1].pc == BackoffWait(WaitAfter(cfg.maxAttempts, row))
            && states[n + 1].status == if row == 0 then Frozen else states[n].status
  {
    hide InARow, Next, Inv, Fails, WaitAfter;
    var n := |steps| - 1;
    AttemptsCountFailures(cfg, states, steps);
    RunKeepsInv(cfg, states, steps, n);
    assert states[n + 1] == Next(cfg, states[n], steps[n]);
    FailureStep(cfg, states[n], steps[n]);
  }

  lemma FailureStep(cfg: Config, s: State, step: Step)
    requires cfg.Valid() && Enabled(s, step) && Fails(step) && s.attempts < cfg.maxAttempts
    ensures var t := Next(cfg, s, step);
            && t.pc == BackoffWait(WaitAfter(cfg.maxAttempts, t.attempts))
            && t.status == if t.attempts == 0 then Frozen else s.status
  {
  }

  /** Besides a freeze, only a search that finds nothing changes the status. */
  lemma StatusChangesIff(cfg: Config, s: State, step: Step)
    requires cfg.Valid() && Enabled(s, step)
    ensures Next(cfg, s, step).status
            == if step == Searched(None) then Waiting
               else if Fails(step) && s.attempts + 1 == cfg.maxAttempts then Frozen else s.status
  {
    if step.Exited? {
      ExitFreezes(cfg.maxAttempts, s.attempts, step.exit);
      hide AfterRun;
    } else {
      hide AfterRun;
    }
  }

  lemma ExitFreezes(max: nat, attempts: nat, e: Exit)
    requires max > 0
    ensures AfterRun(max, attempts, e).0.Wait? && AfterRun(max, attempts, e).0.frozen
            <==> Fails(Exited(e)) && attempts + 1 == max
  {
  }

  // ----------------------------------------------------------------- is a running stream asked to quit?

  /** The stop or restart is over, a stream runs, and it has been asked to quit. */
  predicate Asked(s: State) {
    s.pc.Running? && !s.stopping ==> s.quit
  }

  /** In every run from `s` no stream is left running without having been asked to quit. */
  ghost predicate AlwaysAsked(cfg: Config, s: State)
    requires cfg.Valid()
  {
    forall states, steps :: IsRun(cfg, states, steps) && states[0] == s ==> Asked(states[|steps|])
  }

  /** Step `k` asked a running stream to quit, and no other stream was created after it. */
  ghost predicate AskedAt(states: seq<State>, steps: seq<Step>, k: int)
    requires |states| == |steps| + 1 && 0 <= k < |steps|
  {
    steps[k].QuitStream? && states[k].pc.Running? && forall j :: k < j < |steps| ==> !steps[j].Created?
  }

  /** In every run from the start the quit request is there exactly when the present stream was asked while it ran. */
  lemma {:induction false} QuitIff(cfg: Config, states: seq<State>, steps: seq<Step>)
    requires cfg.Valid() && IsRun(cfg, states, steps) && states[0] == INITIAL
    ensures states[|steps|].quit <==> exists k :: 0 <= k < |steps| && AskedAt(states, steps, k)
    decreases |steps|
  {
    hide AfterRun, AskedAt;
    if steps != [] {
      var n := |steps| - 1;
      PrefixIsRun(cfg, states, steps, n);
      QuitIff(cfg, states[..n + 1], steps[..n]);
      assert states[n + 1] == Next(cfg, states[n], steps[n]);
      AskedEarlier(states, steps, states[..n + 1], steps[..n], n);
    }
  }

  lemma AskedEarlier(states: seq<State>, steps: seq<Step>, before: seq<State>, taken: seq<Step>, n: nat)
    requires |states| == |steps| + 1 == n + 2 && before == states[..n + 1] && taken == steps[..n]
    ensures (exists k :: 0 <= k < |steps| && AskedAt(states, steps, k))
            <==> (steps[n].QuitStream? && states[n].pc.Running?)
                 || (!steps[n].Created? && exists k :: 0 <= k < n && AskedAt(before, taken, k))
  {
    if steps[n].QuitStream? && states[n].pc.Running? {
      assert AskedAt(states, steps, n);
    }
    forall k | 0 <= k < n
      ensures AskedAt(states, steps, k) <==> !steps[n].Created? && AskedAt(before, taken, k)
    {
      AskedInPrefix(states, steps, k);
    }
  }

  lemma AskedInPrefix(states: seq<State>, steps: seq<Step>, k: nat)
    requires |states| == |steps| + 1 && k < |steps| - 1
    ensures var n := |steps| - 1;
            AskedAt(states, steps, k) <==> !steps[n].Created? && AskedAt(states[..n + 1], steps[..n], k)
  {
    var n := |steps| - 1;
    assert forall j :: k <= j < n ==> steps[..n][j] == steps[j];
    if !steps[n].Created? && AskedAt(states[..n + 1], steps[..n], k) {
      forall j | k < j < |steps|
        ensures !steps[j].Created?
      {
        if j < n {
          assert !steps[..n][j].Created?;
        }
      }
    }
  }

  lemma AskedStep(cfg: Config, s: State, step: Step)
    requires cfg.Valid() && Enabled(s, step) && s.stop && StillToCreate(s.pc) == 0 && Asked(s)
    ensures var t := Next(cfg, s, step); t.stop && StillToCreate(t.pc) == 0 && Asked(t)
  {
    hide AfterRun;
  }

  lemma {:induction false} StaysAsked(cfg: Config, states: seq<State>, steps: seq<Step>)
    requires cfg.Valid() && IsRun(cfg, states, steps)
    requires states[0].stop && StillToCreate(states[0].pc) == 0 && Asked(states[0])
    ensures var t := states[|steps|]; t.stop && StillToCreate(t.pc) == 0 && Asked(t)
    decreases |steps|
  {
    hide Next, Asked;
    if steps != [] {
      var n := |steps| - 1;
      PrefixIsRun(cfg, states, steps, n);
      StaysAsked(cfg, states[..n + 1], steps[..n]);
      AskedStep(cfg, states[n], steps[n]);
    }
  }

  /** From a stop in the iteration's way to its stream: the request finds no stream, and the stream is created after it. */
  lemma StopIsLost(cfg: Config, s: State) returns (states: seq<State>, steps: seq<Step>)
    requires cfg.Valid() && s.stop && s.stopping && StillToCreate(s.pc) == 1
    ensures IsRun(cfg, states, steps) && states[0] == s
    ensures states[|steps|].stop && !Asked(states[|steps|])
  {
    states, steps := OneMore(cfg, [s], [], QuitStream);
    if s.pc.ChunkWait? {
      states, steps := OneMore(cfg, states, steps, WaitEnded(false));
    }
    if !s.pc.Create? {
      states, steps := OneMore(cfg, states, steps, Searched(Some(0)));
    }
    states, steps := OneMore(cfg, states, steps, Created(true));
  }

  lemma OneMore(cfg: Config, states: seq<State>, steps: seq<Step>, step: Step)
      returns (states': seq<State>, steps': seq<Step>)
    requires cfg.Valid() && IsRun(cfg, states, steps) && Enabled(states[|steps|], step)
    ensures IsRun(cfg, states', steps') && states'[0] == states[0]
    ensures steps' == steps + [step] && states'[|steps'|] == Next(cfg, states[|steps|], step)
  {
    states', steps' := states + [Next(cfg, states[|steps|], step)], steps + [step];
    ExtendRun(cfg, states, steps, step);
  }

  /**
    While the event thread is between setting the flag and looking for the stream: whatever happens next,
    no stream is left running unasked exactly when the iteration has no stream to create any more.  Then
    four steps of the main thread are enough, too.
  */
  lemma StopIsHeardIff(cfg: Config, s: State)
    requires cfg.Valid() && s.stop && s.stopping
    ensures AlwaysAsked(cfg, s) <==> StillToCreate(s.pc) == 0
    ensures AlwaysAsked(cfg, s) ==> StepsWithin(cfg, s, 4)
  {
    hide Next, StepsWithin;
    if StillToCreate(s.pc) == 0 {
      forall states, steps | IsRun(cfg, states, steps) && states[0] == s
        ensures Asked(states[|steps|])
      {
        StaysAsked(cfg, states, steps);
      }
      StopBoundsStepsIff(cfg, s, 4);
    } else {
      var states, steps := StopIsLost(cfg, s);
    }
  }

  /** For every configuration some run from the start leaves a stream running that was stopped and never asked to quit. */
  lemma LostStopIsReachable(cfg: Config) returns (s: State)
    requires cfg.Valid()
    ensures Reachable(cfg, s) && s.stop && s.pc.Running? && !s.stopping && !s.quit
  {
    var states, steps := OneMore(cfg, [INITIAL], [], CheckStop);
    states, steps := OneMore(cfg, states, steps, StopLocked);
    states, steps := OneMore(cfg, states, steps, QuitStream);
    if cfg.timeshiftPlayer {
      states, steps := OneMore(cfg, states, steps, Searched(Some(0)));
    }
    states, steps := OneMore(cfg, states, steps, Created(true));
    s := states[|steps|];
  }

  lemma MainStepsAppend(steps: seq<Step>, step: Step)
    ensures MainSteps(steps + [step]) == MainSteps(steps) + (if MainStep(step) then 1 else 0)
  {
    assert (steps + [step])[..|steps|] == steps;
  }

  // ----------------------------------------------------------------- a whole freeze cycle

  /** Total wait of `n` failures in a row, each wait running out, starting with `attempts` on the counter. */
  function TotalWait(max: nat, attempts: nat, n: nat): nat
    requires max > 0
    decreases n
  {
    if n == 0 then 0
    else
      var (d, a) := AfterRun(max, attempts, Exit(true, false, 0));
      (if d.Wait? then d.seconds else 0) + TotalWait(max, a, n - 1)
  }

  lemma FirstWait(max: nat, attempts: nat)
    requires attempts + 1 < max
    ensures TotalWait(max, attempts, max - attempts)
            == (attempts + 1) * (RESTART_AFTER_FROZEN_SEC / max) + TotalWait(max, attempts + 1, max - attempts - 1)
  {
  }

  lemma LastWait(max: nat)
    requires max > 0
    ensures TotalWait(max, max - 1, 1) == RESTART_AFTER_FROZEN_SEC
  {
    assert TotalWait(max, 0, 0) == 0;
  }

  /** `d` is the back-off unit, `m` is `max * (max - 1)`. */
  lemma {:induction false} CycleWait(max: nat, attempts: nat, d: nat, m: nat)
    requires attempts < max && d == RESTART_AFTER_FROZEN_SEC / max && m == (max - 1) * max
    ensures 2 * TotalWait(max, attempts, max - attempts)
            == d * (m - attempts * (attempts + 1)) + 2 * RESTART_AFTER_FROZEN_SEC
    decreases max - attempts
  {
    hide TotalWait;
    if attempts + 1 == max {
      LastWait(max);
    } else {
      CycleWait(max, attempts + 1, d, m);
      FirstWait(max, attempts);
      CycleArithmetic(d, m, attempts);
    }
  }

  lemma CycleArithmetic(d: int, m: int, a: int)
    ensures 2 * ((a + 1) * d) + d * (m - (a + 1) * (a + 2)) == d * (m - a * (a + 1))
  {
    assert (a + 1) * (a + 2) == a * (a + 1) + 2 * (a + 1);
    assert d * (m - (a + 1) * (a + 2)) == d * (m - a * (a + 1)) - d * (2 * (a + 1));
  }

  /** An uninterrupted freeze cycle waits at most half a minute per attempt before the last, and a minute then. */
  lemma FreezeCycle(max: nat)
    requires max > 0
    ensures 2 * TotalWait(max, 0, max)
            == (RESTART_AFTER_FROZEN_SEC / max) * ((max - 1) * max) + 2 * RESTART_AFTER_FROZEN_SEC
    ensures TotalWait(max, 0, max) <= 30 * (max - 1) + 60
  {
    hide TotalWait;
    var d := RESTART_AFTER_FROZEN_SEC / max;
    CycleWait(max, 0, d, (max - 1) * max);
    UnitsFit(d, max);
  }

  // ----------------------------------------------------------------- the waits of a run

  /** Seconds of the back-off waits that the steps complete. */
  function Waited(states: seq<State>, steps: seq<Step>): nat
    requires |states| == |steps| + 1
    decreases |steps|
  {
    if steps == [] then 0
    else
      (if steps[0].WaitEnded? && states[0].pc.BackoffWait? then states[0].pc.seconds else 0)
      + Waited(states[1..], steps[1..])
  }

  function Failures(steps: seq<Step>): nat {
    if steps == [] then 0 else (if steps[0].Exited? then 1 else 0) + Failures(steps[1..])
  }

  /** Every stream ends in a short failure and no wait is notified. */
  predicate Uninterrupted(steps: seq<Step>) {
    forall k :: 0 <= k < |steps| ==>
      && (steps[k].Exited? ==> ShortFailure(steps[k].exit) && !steps[k].exit.vod)
      && (steps[k].WaitEnded? ==> !steps[k].noTimeout)
  }

  /** The wait a state still has before it. */
  function Owed(s: State): nat {
    if s.pc.BackoffWait? then s.pc.seconds else 0
  }

  lemma OneStepWaits(cfg: Config, s: State, step: Step)
    requires cfg.Valid() && Enabled(s, step) && Uninterrupted([step])
    ensures var t := Next(cfg, s, step);
            if step.Exited? then
              && Owed(s) == 0
              && forall n: nat :: TotalWait(cfg.maxAttempts, s.attempts, n + 1)
                                  == Owed(t) + TotalWait(cfg.maxAttempts, t.attempts, n)
            else t.attempts == s.attempts && Owed(t) == (if step.WaitEnded? then 0 else Owed(s))
  {
    assert [step][0] == step;
  }

  /** Over any uninterrupted stretch of a run, of either thread's steps, the completed waits are those of its failures. */
  lemma {:induction false} RunWaits(cfg: Config, states: seq<State>, steps: seq<Step>)
    requires cfg.Valid() && IsRun(cfg, states, steps) && Uninterrupted(steps)
    ensures Waited(states, steps) + Owed(states[|steps|])
            == Owed(states[0]) + TotalWait(cfg.maxAttempts, states[0].attempts, Failures(steps))
    decreases |steps|
  {
    hide TotalWait, Next;
    if steps == [] {
      NoFailuresNoWait(cfg.maxAttempts, states[0].attempts);
    } else {
      SuffixIsRun(cfg, states, steps);
      assert forall k :: 0 <= k < |steps[1..]| ==> steps[1..][k] == steps[k + 1];
      RunWaits(cfg, states[1..], steps[1..]);
      assert states[1] == Next(cfg, states[0], steps[0]);
      OneStepWaits(cfg, states[0], steps[0]);
    }
  }

  lemma NoFailuresNoWait(max: nat, attempts: nat)
    requires max > 0
    ensures TotalWait(max, attempts, 0) == 0
  {
  }

  lemma SuffixIsRun(cfg: Config, states: seq<State>, steps: seq<Step>)
    requires cfg.Valid() && IsRun(cfg, states, steps) && steps != []
    ensures IsRun(cfg, states[1..], steps[1..])
  {
    hide Next;
    forall k | 0 <= k < |steps| - 1
      ensures Enabled(states[1..][k], steps[1..][k]) && states[1..][k + 1] == Next(cfg, states[1..][k], steps[1..][k])
    {
      assert steps[1..][k] == steps[k + 1] && states[1..][k] == states[k + 1];
    }
  }

  /** A freeze cycle of a run: from a cleared counter to the end of the wait behind the last allowed failure. */
  lemma FreezeCycleOfRun(cfg: Config, states: seq<State>, steps: seq<Step>)
    requires cfg.Valid() && IsRun(cfg, states, steps) && Uninterrupted(steps)
    requires states[0].attempts == 0 && Failures(steps) == cfg.maxAttempts
    requires !states[0].pc.BackoffWait? && !states[|steps|].pc.BackoffWait?
    ensures var max := cfg.maxAttempts;
            && 2 * Waited(states, steps)
               == (RESTART_AFTER_FROZEN_SEC / max) * ((max - 1) * max) + 2 * RESTART_AFTER_FROZEN_SEC
            && Waited(states, steps) <= 30 * (max - 1) + 60
  {
    hide TotalWait, IsRun, Uninterrupted;
    RunWaits(cfg, states, steps);
    FreezeCycle(cfg.maxAttempts);
  }

  lemma UnitsFit(d: nat, max: nat)
    requires max > 0 && d == RESTART_AFTER_FROZEN_SEC / max
    ensures d * ((max - 1) * max) <= RESTART_AFTER_FROZEN_SEC * (max - 1)
  {
    assert d * max <= RESTART_AFTER_FROZEN_SEC;
    Rearrange(d, max, max - 1);
    ScaleMonotone(d * max, RESTART_AFTER_FROZEN_SEC, max - 1);
  }

  lemma Rearrange(d: nat, m: nat, c: nat)
    ensures d * (c * m) == (d * m) * c
  {
  }

  // ----------------------------------------------------------------- the stateful form

  class StreamController {
    const config: Config
    var pc: Pc
    var stop: bool
    var restartAttempts: nat
    var status: Status
    var restarts: nat
    var stopping: bool
    var quitRequested: bool
    ghost var history: seq<Event>

    ghost function Current(): State
      reads this
    {
      State(pc, stop, restartAttempts, status, restarts, stopping, quitRequested, history)
    }

    constructor (config: Config)
      requires config.Valid()
      ensures this.config == config && Current() == INITIAL
    {
      this.config := config;
      pc, stop, restartAttempts, status, restarts := LoopHead, false, 0, New, 0;
      stopping, quitRequested, history := false, false, [];
    }

    /** `while (!stop_)`. */
    method CheckStopFlag()
      requires config.Valid() && Enabled(Current(), CheckStop)
      modifies this
      ensures Current() == Next(config, old(Current()), CheckStop)
    {
      if stop {
        pc := Returned;
      } else if config.timeshiftPlayer {
        pc := ChunkSearch;
      } else {
        pc := Create;
      }
    }

    method SearchChunk(found: Option<nat>)
      requires config.Valid() && Enabled(Current(), Searched(found))
      modifies this
      ensures Current() == Next(config, old(Current()), Searched(found))
    {
      if found.None? {
        status := Waiting;
        pc := ChunkWait;
      } else if found.value == INVALID_INDEX {
        pc := LoopHead;
      } else {
        pc := Create;
      }
    }

    method WaitForChunk(noTimeout: bool)
      requires config.Valid() && pc.ChunkWait?
      modifies this
      ensures Current() == Next(config, old(Current()), WaitEnded(noTimeout))
    {
      if noTimeout {
        restarts := restarts + 1;
        pc := LoopHead;
      } else {
        pc := ChunkSearch;
      }
    }

    method CreateStream(ok: bool)
      requires config.Valid() && Enabled(Current(), Created(ok))
      modifies this
      ensures Current() == Next(config, old(Current()), Created(ok))
    {
      quitRequested := false;
      pc := if ok then Running else Returned;
    }

    method FinishRun(exit: Exit)
      requires config.Valid() && Enabled(Current(), Exited(exit))
      modifies this
      ensures Current() == Next(config, old(Current()), Exited(exit))
    {
      if exit.vod {
        pc := Returned;
        return;
      }
      if !exit.inner {
        restartAttempts := 0;
        history := history + [Reset];
        pc := LoopHead;
        return;
      }
      if exit.sinceStart / 1000 > RESTART_AFTER_FROZEN_SEC * 10 {
        restartAttempts := 0;
        history := history + [Reset];
        pc := LoopHead;
        return;
      }
      var waitTime := 0;
      restartAttempts := restartAttempts + 1;
      if restartAttempts == config.maxAttempts {
        restartAttempts := 0;
        status := Frozen;
        waitTime := RESTART_AFTER_FROZEN_SEC;
      } else {
        waitTime := restartAttempts * (RESTART_AFTER_FROZEN_SEC / config.maxAttempts);
      }
      history := history + [Failure];
      pc := BackoffWait(waitTime);
    }

    method FinishBackoff(noTimeout: bool)
      requires config.Valid() && pc.BackoffWait?
      modifies this
      ensures Current() == Next(config, old(Current()), WaitEnded(noTimeout))
    {
      if noTimeout {
        restartAttempts := 0;
        history := history + [Reset];
      }
      pc := LoopHead;
    }

    /** The part of `Stop` and `Restart` under the mutex. */
    method Notify(stopNow: bool)
      requires config.Valid() && !stopping
      modifies this
      ensures Current() == Next(config, old(Current()), if stopNow then StopLocked else RestartLocked)
    {
      if stopNow {
        stop := true;
      }
      stopping := true;
    }

    /** `StopStream`: a stream that exists is asked to quit. */
    method StopStream()
      requires config.Valid() && stopping
      modifies this
      ensures Current() == Next(config, old(Current()), QuitStream)
    {
      if pc.Running? {
        quitRequested := true;
      }
      stopping := false;
    }
  }
}
