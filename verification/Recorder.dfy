/**
  The timeshift recorder: which chunk name comes next.  The directory is a map from the index in a
  chunk's file name to its modification time; the recorder, the muxer and the clean-up change it.
*/
module Recorder {
  import opened Arithmetic
  import opened Wrappers
  import opened Decimal
  import opened Chunks
  import opened ChunkSearch

  type Directory = map<nat, int>

  /** `index` is the recorder's current chunk, `named` the name it handed out last. */
  datatype State = State(index: nat, named: Option<nat>, dir: Directory)

  // ----------------------------------------------------------------- the code

  function Candidate(index: nat): nat {
    if index == INVALID_INDEX then 0 else index
  }

  function NextIndex(index: nat, dir: Directory): nat {
    var i := Candidate(index);
    if i in dir then (i + 1) % TWO64 else i
  }

  function Cleaned(dir: Directory, bound: int): Directory {
    map i | i in dir && dir[i] >= bound :: dir[i]
  }

  /**
    What can happen, in any order: the recorder is asked for a name, the muxer creates or writes the
    file it was last given, old files are removed.
  */
  datatype Step = PathSet | Write(time: int) | Cleanup(bound: int)

  function Apply(s: State, step: Step): State {
    match step
    case PathSet => var i := NextIndex(s.index, s.dir); State(i, Some(i), s.dir)
    case Write(t) => if s.named.Some? then s.(dir := s.dir[s.named.value := t]) else s
    case Cleanup(b) => s.(dir := Cleaned(s.dir, b))
  }

  /** The states of a run, from the first to the last. */
  function Run(s: State, steps: seq<Step>): (r: seq<State>)
    ensures |r| == |steps| + 1 && r[0] == s
    decreases |steps|
  {
    if steps == [] then [s] else [s] + Run(Apply(s, steps[0]), steps[1..])
  }

  // ----------------------------------------------------------------- no overwrite

  /** The name handed out is new, unless the candidate and its successor are both taken. */
  lemma FreshIff(index: nat, dir: Directory)
    requires index <= UINT64_MAX
    ensures NextIndex(index, dir) !in dir
            <==> !(Candidate(index) in dir && (Candidate(index) + 1) % TWO64 in dir)
  {
    assert Candidate(index) < INVALID_INDEX;
  }

  /** Every chunk file present has an index no greater than the current one, or the directory is empty. */
  ghost predicate Inv(s: State) {
    && s.index <= UINT64_MAX
    && (s.dir != map[] ==> s.index != INVALID_INDEX)
    && (forall i :: i in s.dir ==> i <= s.index)
    && (s.named.Some? ==> s.named.value == s.index && s.index != INVALID_INDEX)
  }

  function PathSets(steps: seq<Step>): nat {
    if steps == [] then 0 else (if steps[0].PathSet? then 1 else 0) + PathSets(steps[1..])
  }

  lemma StepKeepsInv(s: State, step: Step)
    requires Inv(s) && Candidate(s.index) + 1 < INVALID_INDEX
    ensures Inv(Apply(s, step))
    ensures Candidate(s.index) <= Candidate(Apply(s, step).index)
    ensures Candidate(Apply(s, step).index) <= Candidate(s.index) + (if step.PathSet? then 1 else 0)
    ensures step.PathSet? ==>
              var i := Apply(s, step).index;
              && i !in s.dir
              && i == if s.index in s.dir then s.index + 1 else Candidate(s.index)
  {
    var t := Apply(s, step);
    match step
    case PathSet =>
      if s.dir != map[] {
        assert t.index <= s.index + 1;
      }
    case Write(_) =>
    case Cleanup(b) =>
      if t.dir != map[] {
        var i :| i in t.dir;
        assert i in s.dir;
      }
  }

  /** What a whole run keeps, as long as the 64-bit indices last. */
  ghost predicate NoOverwrite(steps: seq<Step>, r: seq<State>)
    requires |r| == |steps| + 1
  {
    && (forall k :: 0 <= k < |r| ==> Inv(r[k]))
    && (forall k :: 0 <= k < |steps| && steps[k].PathSet? ==> Fresh(r[k], r[k + 1]))
    && (forall k, l :: 0 <= k <= l < |r| ==> Candidate(r[k].index) <= Candidate(r[l].index))
  }

  /** The name handed out did not exist, and is the next one while the current file survives. */
  predicate Fresh(s: State, t: State) {
    && t.named == Some(t.index)
    && t.index !in s.dir
    && t.index == if s.index in s.dir then s.index + 1 else Candidate(s.index)
  }

  /**
    No overwrite: every interleaving of names handed out, files written and files removed keeps the
    invariant, never hands out a name that exists, and never goes back.
  */
  lemma {:induction false} RunNeverOverwrites(s: State, steps: seq<Step>)
    requires Inv(s) && Candidate(s.index) + PathSets(steps) + 1 < INVALID_INDEX
    ensures NoOverwrite(steps, Run(s, steps))
    decreases |steps|
  {
    if steps != [] {
      var t := Apply(s, steps[0]);
      StepKeepsInv(s, steps[0]);
      RunNeverOverwrites(t, steps[1..]);
      var r, u := Run(s, steps), Run(t, steps[1..]);
      assert forall k :: 0 < k < |r| ==> r[k] == u[k - 1];
      forall k | 0 <= k < |steps| && steps[k].PathSet?
        ensures Fresh(r[k], r[k + 1])
      {
        if k > 0 {
          assert steps[1..][k - 1].PathSet?;
          assert Fresh(u[k - 1], u[k]);
        }
      }
      forall k, l | 0 <= k <= l < |r|
        ensures Candidate(r[k].index) <= Candidate(r[l].index)
      {
        if l > 0 {
          assert Candidate(u[0].index) <= Candidate(u[l - 1].index);
        }
      }
    }
  }

  /** Naming loses the invariant exactly when the last valid index is taken: the counter goes on to the invalid one. */
  lemma NamingKeepsInvIff(s: State)
    requires Inv(s)
    ensures Inv(Apply(s, PathSet)) <==> !(s.index == INVALID_INDEX - 1 && s.index in s.dir)
  {
    if !(s.index == INVALID_INDEX - 1 && s.index in s.dir) {
      assert NextIndex(s.index, s.dir) == if s.index in s.dir then s.index + 1 else Candidate(s.index);
    }
  }

  /** And then the second name from there exists, if chunks 0 and 1 do. */
  lemma WrapLosesInv(s: State)
    requires Inv(s) && s.index == INVALID_INDEX - 1 && s.index in s.dir && 0 in s.dir && 1 in s.dir
    ensures var t := Apply(Apply(Apply(s, PathSet), Write(0)), PathSet); t.named == Some(1) && 1 in t.dir
  {
    NamingKeepsInvIff(s);
  }

  // ----------------------------------------------------------------- which chunks are there after a run

  /** One clean-up removes exactly the chunks older than its bound, and changes nothing else. */
  lemma CleanupRemovesTheOld(s: State, bound: int)
    ensures var t := Apply(s, Cleanup(bound));
            && t.index == s.index && t.named == s.named
            && (forall i :: i in t.dir <==> i in s.dir && s.dir[i] >= bound)
            && (forall i :: i in t.dir ==> t.dir[i] == s.dir[i])
  {
  }

  /** The time chunk `i` has at state `k` because it was written there, or because it was there at the start. */
  ghost predicate WrittenAt(s: State, steps: seq<Step>, i: nat, k: nat, time: int)
    requires k <= |steps|
  {
    if k == 0 then i in s.dir && s.dir[i] == time
    else steps[k - 1] == Write(time) && Run(s, steps)[k - 1].named == Some(i)
  }

  /** It is not written again afterwards, and every clean-up leaves files of that time. */
  ghost predicate KeptSince(s: State, steps: seq<Step>, i: nat, k: nat, time: int)
    requires k <= |steps|
  {
    forall j :: k <= j < |steps| ==>
      && (steps[j].Cleanup? ==> steps[j].bound <= time)
      && (steps[j].Write? ==> Run(s, steps)[j].named != Some(i))
  }

  lemma RunTail(s: State, steps: seq<Step>)
    requires steps != []
    ensures forall k :: 0 < k <= |steps| ==> Run(s, steps)[k] == Run(Apply(s, steps[0]), steps[1..])[k - 1]
  {
  }

  lemma WrittenInTail(s: State, steps: seq<Step>, i: nat, k: nat, time: int)
    requires 1 < k <= |steps|
    ensures WrittenAt(s, steps, i, k, time) <==> WrittenAt(Apply(s, steps[0]), steps[1..], i, k - 1, time)
  {
    hide Apply, Run;
    RunTail(s, steps);
    assert steps[1..][k - 2] == steps[k - 1];
  }

  lemma KeptInTail(s: State, steps: seq<Step>, i: nat, k: nat, time: int)
    requires 0 < k <= |steps|
    ensures KeptSince(s, steps, i, k, time) <==> KeptSince(Apply(s, steps[0]), steps[1..], i, k - 1, time)
  {
    hide Apply, Run;
    RunTail(s, steps);
    var tail := steps[1..];
    assert forall j :: 0 <= j < |tail| ==> tail[j] == steps[j + 1];
    if KeptSince(Apply(s, steps[0]), tail, i, k - 1, time) {
      forall j | k <= j < |steps|
        ensures steps[j].Cleanup? ==> steps[j].bound <= time
        ensures steps[j].Write? ==> Run(s, steps)[j].named != Some(i)
      {
        assert tail[j - 1] == steps[j];
      }
    }
  }

  /** The first step keeps a chunk of that time, or writes it. */
  lemma FirstStepKeeps(s: State, steps: seq<Step>, i: nat, time: int)
    requires steps != []
    ensures var t, tail := Apply(s, steps[0]), steps[1..];
            WrittenAt(t, tail, i, 0, time) && KeptSince(t, tail, i, 0, time)
            <==> (WrittenAt(s, steps, i, 0, time) && KeptSince(s, steps, i, 0, time))
                 || (WrittenAt(s, steps, i, 1, time) && KeptSince(s, steps, i, 1, time))
  {
    KeptInTail(s, steps, i, 1, time);
    assert KeptSince(s, steps, i, 0, time)
           <==> KeptSince(s, steps, i, 1, time) && (steps[0].Cleanup? ==> steps[0].bound <= time)
                && (steps[0].Write? ==> s.named != Some(i));
  }

  /**
    After every run, of names, writes and clean-ups in any order, chunk `i` is there with a time exactly when
    it was written then, or was there from the start, not written since, and no later clean-up reached it.
  */
  lemma {:induction false} PresentIff(s: State, steps: seq<Step>, i: nat, time: int)
    ensures var dir := Run(s, steps)[|steps|].dir;
            i in dir && dir[i] == time
            <==> exists k: nat :: k <= |steps| && WrittenAt(s, steps, i, k, time) && KeptSince(s, steps, i, k, time)
    decreases |steps|
  {
    if steps == [] {
      assert WrittenAt(s, steps, i, 0, time) <==> i in s.dir && s.dir[i] == time;
      assert KeptSince(s, steps, i, 0, time);
    } else {
      hide Apply, WrittenAt, KeptSince;
      var t, tail := Apply(s, steps[0]), steps[1..];
      RunTail(s, steps);
      PresentIff(t, tail, i, time);
      FirstStepKeeps(s, steps, i, time);
      if k: nat :| k <= |tail| && WrittenAt(t, tail, i, k, time) && KeptSince(t, tail, i, k, time) {
        if k > 0 {
          WrittenInTail(s, steps, i, k + 1, time);
          KeptInTail(s, steps, i, k + 1, time);
        }
      }
      if k: nat :| k <= |steps| && WrittenAt(s, steps, i, k, time) && KeptSince(s, steps, i, k, time) {
        if k > 1 {
          WrittenInTail(s, steps, i, k, time);
          KeptInTail(s, steps, i, k, time);
        }
      }
    }
  }

  /** A chunk at least as young as every clean-up's bound outlives any run whose writes are no older. */
  lemma {:induction false} YoungChunkStays(s: State, steps: seq<Step>, i: nat, time: int)
    requires i in s.dir && s.dir[i] >= time
    requires forall j :: 0 <= j < |steps| ==>
               (steps[j].Cleanup? ==> steps[j].bound <= time) && (steps[j].Write? ==> steps[j].time >= time)
    ensures var dir := Run(s, steps)[|steps|].dir; i in dir && dir[i] >= time
    decreases |steps|
  {
    if steps != [] {
      RunTail(s, steps);
      assert forall j :: 0 <= j < |steps[1..]| ==> steps[1..][j] == steps[j + 1];
      YoungChunkStays(Apply(s, steps[0]), steps[1..], i, time);
    }
  }

  /** A chunk older than the bound of a clean-up in the run is there afterwards only if it was written after it. */
  lemma OldChunkIsGone(s: State, steps: seq<Step>, c: nat, i: nat)
    requires c < |steps| && steps[c].Cleanup?
    ensures var dir := Run(s, steps)[|steps|].dir;
            i in dir && dir[i] < steps[c].bound ==>
              exists k :: c < k < |steps| && steps[k] == Write(dir[i]) && Run(s, steps)[k].named == Some(i)
  {
    hide Apply, Run;
    var dir := Run(s, steps)[|steps|].dir;
    if i in dir && dir[i] < steps[c].bound {
      PresentIff(s, steps, i, dir[i]);
      var k: nat :| k <= |steps| && WrittenAt(s, steps, i, k, dir[i]) && KeptSince(s, steps, i, k, dir[i]);
      assert c < k - 1;
    }
  }

  // ----------------------------------------------------------------- starting on an existing directory

  /** The listing shows the files of the directory. */
  ghost predicate Lists(listing: seq<ChunkFile>, dir: Directory) {
    && (forall f :: f in listing ==> f.index in dir && dir[f.index] == f.time)
    && (forall i :: i in dir ==> ChunkFile(i, dir[i]) in listing)
  }

  /** The live recorder skips the chunks it missed; a catch-up goes on with the next one. */
  datatype Kind = Live | Catchup

  function NextChunkStrategy(kind: Kind, lastIndex: nat, created: int, now: int, duration: int): nat
    requires duration > 0
  {
    match kind
    case Live => var diff := now - created; if diff > 0 then (lastIndex + diff / duration) % TWO64 else lastIndex
    case Catchup => (lastIndex + 1) % TWO64
  }

  /** The index computed when the sink is created. */
  function StartIndex(kind: Kind, listing: seq<ChunkFile>, now: int, duration: int): nat
    requires duration > 0
  {
    match LastChunk(listing)
    case None => INVALID_INDEX
    case Some(f) => NextChunkStrategy(kind, f.index, f.time, now, duration)
  }

  lemma StrategyGoesForward(kind: Kind, last: nat, created: int, now: int, duration: int)
    requires duration > 0
    requires last + 1 + (if now > created then (now - created) / duration else 0) < INVALID_INDEX
    ensures last <= NextChunkStrategy(kind, last, created, now, duration) < INVALID_INDEX
  {
    if now > created {
      assert (now - created) / duration >= 0;
    }
  }

  /** A live recording skips as many chunks as whole chunk durations have passed since the last one was written. */
  lemma StrategySkips(last: nat, created: int, now: int, duration: int, skipped: nat)
    requires duration > 0 && last + skipped < INVALID_INDEX
    requires if now > created then skipped * duration <= now - created < (skipped + 1) * duration else skipped == 0
    ensures NextChunkStrategy(Live, last, created, now, duration) == last + skipped
    ensures NextChunkStrategy(Catchup, last, created, now, duration) == last + 1
  {
    if now > created {
      ModIs(now - created, duration, skipped, now - created - skipped * duration);
    }
  }

  /** The computed start index dominates every file, unless it wraps around. */
  lemma StartIndexDominates(kind: Kind, listing: seq<ChunkFile>, dir: Directory, now: int, duration: int)
    requires duration > 0 && Lists(listing, dir)
    requires forall f :: f in listing ==>
               f.index + 1 + (if now > f.time then (now - f.time) / duration else 0) < INVALID_INDEX
    ensures Inv(State(StartIndex(kind, listing, now, duration), None, dir))
  {
    LastChunkIsGreatest(listing);
    hide LastChunk, NextChunkStrategy;
    if listing == [] {
      assert dir == map[];
    } else {
      var f := LastChunk(listing).value;
      StrategyGoesForward(kind, f.index, f.time, now, duration);
      forall i | i in dir
        ensures i <= f.index
      {
        assert ChunkFile(i, dir[i]) in listing;
      }
    }
  }

  /**
    The assignment in the source lists path, index and the invalid time, but the fields are path,
    duration and index: the computed index lands in the duration and the recorder's own index is the
    invalid one.
  */
  function ChunkAtStart(path: string, startIndex: nat): ChunkInfo {
    ChunkInfo(path, startIndex, CLOCK_TIME_NONE)
  }

  lemma EmptyTogether(listing: seq<ChunkFile>, dir: Directory)
    requires Lists(listing, dir)
    ensures listing == [] <==> dir == map[]
  {
    assert forall i :: i in dir ==> ChunkFile(i, dir[i]) in listing;
    if listing == [] {
      assert dir == map[];
    } else {
      assert listing[0] in listing;
    }
  }

  /** So the first name handed out after a start overwrites a file exactly when chunks 0 and 1 are both there. */
  lemma FirstNameOverwritesIff(kind: Kind, path: string, listing: seq<ChunkFile>, dir: Directory, now: int, duration: int)
    requires duration > 0 && Lists(listing, dir)
    ensures var index := ChunkAtStart(path, StartIndex(kind, listing, now, duration)).index;
            && (NextIndex(index, dir) in dir <==> 0 in dir && 1 in dir)
            && (Inv(State(index, None, dir)) <==> listing == [])
  {
    EmptyTogether(listing, dir);
    hide Lists, StartIndex;
  }

  // ----------------------------------------------------------------- a restart and all that follows

  /** No name of the run exists when it is handed out. */
  predicate NamesAreNew(s: State, steps: seq<Step>)
    decreases |steps|
  {
    steps == []
    || ((steps[0].PathSet? ==> NextIndex(s.index, s.dir) !in s.dir) && NamesAreNew(Apply(s, steps[0]), steps[1..]))
  }

  /** As many names as there are valid indices. */
  predicate WithinIndices(steps: seq<Step>) {
    PathSets(steps) <= INVALID_INDEX
  }

  lemma {:induction false} NothingNamed(s: State, steps: seq<Step>)
    requires PathSets(steps) == 0
    ensures NamesAreNew(s, steps)
    decreases |steps|
  {
    if steps != [] {
      NothingNamed(Apply(s, steps[0]), steps[1..]);
    }
  }

  /** Writing and cleaning up keep the invariant also at the last index. */
  lemma OtherStepKeepsInv(s: State, step: Step)
    requires Inv(s) && !step.PathSet?
    ensures Inv(Apply(s, step)) && Apply(s, step).index == s.index
  {
  }

  /** From a state with the invariant, names are new until the indices run out. */
  lemma {:induction false} NamesStayNew(s: State, steps: seq<Step>)
    requires Inv(s) && s.index != INVALID_INDEX && s.index + PathSets(steps) <= INVALID_INDEX
    ensures NamesAreNew(s, steps)
    decreases |steps|
  {
    hide Inv;
    if steps != [] {
      NextNameIsNew(s);
      if !steps[0].PathSet? {
        OtherStepKeepsInv(s, steps[0]);
        NamesStayNew(Apply(s, steps[0]), steps[1..]);
      } else if s.index == INVALID_INDEX - 1 && s.index in s.dir {
        NothingNamed(Apply(s, steps[0]), steps[1..]);
      } else {
        NamingKeepsInvIff(s);
        NamesStayNew(Apply(s, steps[0]), steps[1..]);
      }
    }
  }

  lemma NextNameIsNew(s: State)
    requires Inv(s) && s.index != INVALID_INDEX
    ensures NextIndex(s.index, s.dir) == (if s.index in s.dir then s.index + 1 else s.index)
    ensures NextIndex(s.index, s.dir) !in s.dir
  {
  }

  /** A recorder at the invalid index in a directory with no chunk but 0. */
  lemma {:induction false} RestartStaysNew(dir: Directory, steps: seq<Step>)
    requires dir.Keys <= {0} && WithinIndices(steps)
    ensures NamesAreNew(State(INVALID_INDEX, None, dir), steps)
    decreases |steps|
  {
    if steps != [] {
      var s := State(INVALID_INDEX, None, dir);
      var t := Apply(s, steps[0]);
      match steps[0]
      case PathSet =>
        assert t.index == (if 0 in dir then 1 else 0) && Inv(t);
        NamesStayNew(t, steps[1..]);
      case Write(_) =>
        RestartStaysNew(dir, steps[1..]);
      case Cleanup(b) =>
        RestartStaysNew(Cleaned(dir, b), steps[1..]);
    }
  }

  /** Naming and writing one chunk after the other reaches the next taken index. */
  lemma {:induction false} NamesReachTaken(s: State, taken: nat) returns (steps: seq<Step>)
    requires Candidate(s.index) < taken < INVALID_INDEX && Candidate(s.index) in s.dir && taken in s.dir
    ensures !NamesAreNew(s, steps) && PathSets(steps) <= taken - Candidate(s.index)
    decreases taken - Candidate(s.index)
  {
    var next := Candidate(s.index) + 1;
    assert NextIndex(s.index, s.dir) == next;
    if next in s.dir {
      steps := [PathSet];
    } else {
      var t := Apply(Apply(s, PathSet), Write(0));
      var more := NamesReachTaken(t, taken);
      steps := [PathSet] + ([Write(0)] + more);
      TwoSteps(s, PathSet, Write(0), more);
    }
  }

  lemma TwoSteps(s: State, a: Step, b: Step, more: seq<Step>)
    ensures var steps := [a] + ([b] + more);
            && PathSets(steps) == (if a.PathSet? then 1 else 0) + (if b.PathSet? then 1 else 0) + PathSets(more)
            && (NamesAreNew(s, steps) ==> NamesAreNew(Apply(Apply(s, a), b), more))
  {
    hide NamesAreNew, PathSets;
    OneStep(s, a, [b] + more);
    OneStep(Apply(s, a), b, more);
  }

  lemma OneStep(s: State, a: Step, more: seq<Step>)
    ensures PathSets([a] + more) == (if a.PathSet? then 1 else 0) + PathSets(more)
    ensures NamesAreNew(s, [a] + more) ==> NamesAreNew(Apply(s, a), more)
  {
    assert ([a] + more)[1..] == more;
  }

  /**
    A restarted recorder never hands out the name of an existing file, whatever is written and cleaned up
    in between, exactly when the directory holds no chunk other than chunk 0.
  */
  lemma RestartNeverOverwritesIff(kind: Kind, path: string, listing: seq<ChunkFile>, dir: Directory, now: int, duration: int)
    requires duration > 0 && Lists(listing, dir)
    requires forall i :: i in dir ==> i < INVALID_INDEX
    ensures var s := State(ChunkAtStart(path, StartIndex(kind, listing, now, duration)).index, None, dir);
            (forall steps :: WithinIndices(steps) ==> NamesAreNew(s, steps)) <==> dir.Keys <= {0}
  {
    hide StartIndex, NamesAreNew, Lists;
    var s := State(INVALID_INDEX, None, dir);
    if dir.Keys <= {0} {
      forall steps | WithinIndices(steps)
        ensures NamesAreNew(s, steps)
      {
        RestartStaysNew(dir, steps);
      }
    } else {
      var taken :| taken in dir && taken != 0;
      var steps := RestartReachesTaken(dir, taken);
      assert WithinIndices(steps) && !NamesAreNew(s, steps);
    }
  }

  lemma RestartReachesTaken(dir: Directory, taken: nat) returns (steps: seq<Step>)
    requires 0 < taken < INVALID_INDEX && taken in dir
    ensures !NamesAreNew(State(INVALID_INDEX, None, dir), steps) && PathSets(steps) <= taken + 1
  {
    var s := State(INVALID_INDEX, None, dir);
    if 0 in dir {
      steps := NamesReachTaken(s, taken);
    } else {
      var t := Apply(Apply(s, PathSet), Write(0));
      var more := NamesReachTaken(t, taken);
      steps := [PathSet] + ([Write(0)] + more);
      TwoSteps(s, PathSet, Write(0), more);
    }
  }

  // ----------------------------------------------------------------- the stateful form

  const NO_DATA_PANIC_SEC: nat := 60

  class TimeShiftRecorder {
    var chunk: ChunkInfo
    var named: Option<nat>
    /** The recording directory, which the muxer changes too. */
    var dir: Directory

    function Current(): State
      reads this
    {
      State(chunk.index, named, dir)
    }

    constructor (chunk: ChunkInfo, dir: Directory)
      ensures this.chunk == chunk && Current() == State(chunk.index, None, dir)
    {
      this.chunk, this.named, this.dir := chunk, None, dir;
    }

    method CalcNextIndex() returns (index: nat)
      ensures index == NextIndex(chunk.index, dir)
    {
      index := chunk.index;
      if index == INVALID_INDEX {
        index := 0;
      }
      if index in dir {
        index := (index + 1) % TWO64;
      }
    }

    method OnPathSet() returns (path: string)
      modifies this
      ensures Current() == Apply(old(Current()), PathSet)
      ensures path == chunk.path + Print(chunk.index) + ".ts"
      ensures chunk == old(chunk).(index := chunk.index)
    {
      var index := CalcNextIndex();
      chunk := chunk.(index := index);
      named := Some(index);
      path := chunk.path + Print(chunk.index) + ".ts";
    }

    /** The clean-up part of the one-second tick; `elapsed` is the stream's life time in seconds. */
    method HandleMainTimerTick(elapsed: nat, now: int, lifeTime: int)
      modifies this`dir
      ensures Current() == if elapsed % NO_DATA_PANIC_SEC == 0 then Apply(old(Current()), Cleanup(now - lifeTime))
                           else old(Current())
      ensures elapsed % 60 == 0 ==> forall i :: i in dir <==> i in old(dir) && old(dir)[i] >= now - lifeTime
      ensures elapsed % 60 != 0 ==> dir == old(dir)
      ensures forall i :: i in dir ==> i in old(dir) && dir[i] == old(dir)[i]
    {
      if elapsed % NO_DATA_PANIC_SEC == 0 {
        var bound := now - lifeTime;
        var left := dir.Keys;
        ghost var before := dir;
        while left != {}
          invariant left <= before.Keys
          invariant dir == map i | i in before && (i in left || before[i] >= bound) :: before[i]
          decreases left
        {
          var i :| i in left;
          if dir[i] < bound {
            dir := dir - {i};
          }
          left := left - {i};
        }
      }
    }
  }

  /** Different indices have different names. */
  lemma NamesAreDistinct(path: string, i: nat, j: nat)
    requires path + Print(i) + ".ts" == path + Print(j) + ".ts"
    ensures i == j
  {
    var a, b := path + Print(i) + ".ts", path + Print(j) + ".ts";
    assert Print(i) == a[|path|..|a| - 3] == b[|path|..|b| - 3] == Print(j);
    PrintInjective(i, j);
  }
}
