/**
  The catch-up recording: the list of chunks with their durations, kept while recording and written
  as a playlist at the end.
*/
module Catchup {
  import opened Arithmetic
  import opened Wrappers
  import opened Decimal
  import opened Chunks
  import opened ChunkSearch
  import opened Recorder
  import opened M3u8Format
  import opened M3u8RoundTrip
  import M3u8Files

  /** The recorder, the time stamp of the last name request, and the chunk list. */
  datatype CatchupState = CatchupState(recorder: State, lastTime: nat, chunks: seq<ChunkInfo>)

  // ----------------------------------------------------------------- the code

  function FileName(index: nat): string {
    Print(index) + ".ts"
  }

  /** Unsigned 64-bit difference. */
  function ClockDiff(from: nat, to: nat): nat {
    (to - from) % TWO64
  }

  function SetLast(chunks: seq<ChunkInfo>, duration: nat): seq<ChunkInfo> {
    if chunks == [] then [] else chunks[|chunks| - 1 := chunks[|chunks| - 1].(duration := duration)]
  }

  /** `sample`: the time stamp of the buffer that starts the chunk, when there is one. */
  function NamePath(s: CatchupState, sample: Option<nat>): CatchupState {
    var i := NextIndex(s.recorder.index, s.recorder.dir);
    var closed := if sample.Some? && sample.value != CLOCK_TIME_NONE && s.lastTime != CLOCK_TIME_NONE
                  then SetLast(s.chunks, ClockDiff(s.lastTime, sample.value))
                  else s.chunks;
    CatchupState(Apply(s.recorder, PathSet),
                 if sample.Some? then sample.value else s.lastTime,
                 closed + [ChunkInfo(FileName(i), CLOCK_TIME_NONE, i)])
  }

  /** What happens to the directory until the next name is asked for. */
  function Between(s: CatchupState, steps: seq<Step>): CatchupState {
    var r := Run(s.recorder, steps);
    s.(recorder := r[|steps|])
  }

  /** One chunk of a recording: its time stamp and what happens to the directory while it is recorded. */
  datatype Recorded = Recorded(time: nat, steps: seq<Step>)

  function Record(s: CatchupState, calls: seq<Recorded>): CatchupState
    decreases |calls|
  {
    if calls == [] then s
    else
      var last := calls[|calls| - 1];
      Between(NamePath(Record(s, calls[..|calls| - 1]), Some(last.time)), last.steps)
  }

  /** The start in an empty directory. */
  const STARTED := CatchupState(State(INVALID_INDEX, None, map[]), CLOCK_TIME_NONE, [])

  // ----------------------------------------------------------------- conservation

  /** No names are asked for in between, and the file of the chunk is there at the end. */
  ghost predicate ChunkSurvives(s: CatchupState, steps: seq<Step>) {
    PathSets(steps) == 0 && Between(s, steps).recorder.index in Between(s, steps).recorder.dir
  }

  /** Valid time stamps that never go back, and each chunk's file there when the next name is asked for. */
  ghost predicate Regular(calls: seq<Recorded>)
    decreases |calls|
  {
    calls != [] ==>
      var n := |calls| - 1;
      && n + 2 < INVALID_INDEX
      && Regular(calls[..n])
      && calls[n].time < CLOCK_TIME_NONE
      && (n > 0 ==> calls[n - 1].time <= calls[n].time)
      && ChunkSurvives(NamePath(Record(STARTED, calls[..n]), Some(calls[n].time)), calls[n].steps)
  }

  lemma {:induction false} RunWithoutNames(s: State, steps: seq<Step>)
    requires Inv(s) && Candidate(s.index) + 1 < INVALID_INDEX && PathSets(steps) == 0
    ensures Inv(Run(s, steps)[|steps|])
    ensures Run(s, steps)[|steps|].index == s.index
    decreases |steps|
  {
    if steps != [] {
      StepKeepsInv(s, steps[0]);
      RunWithoutNames(Apply(s, steps[0]), steps[1..]);
    }
  }

  predicate Ordered(calls: seq<Recorded>) {
    && (forall k :: 0 <= k < |calls| ==> calls[k].time < CLOCK_TIME_NONE)
    && (forall k :: 0 < k < |calls| ==> calls[k - 1].time <= calls[k].time)
  }

  /** The time to the next chunk; the last chunk is still open. */
  function Duration(calls: seq<Recorded>, k: nat): nat
    requires k < |calls| && Ordered(calls)
  {
    if k + 1 < |calls| then calls[k + 1].time - calls[k + 1 - 1].time else CLOCK_TIME_NONE
  }

  /** The chunk list after the regular chunks `calls`: indices in order, each with its duration. */
  ghost predicate ListIs(s: CatchupState, calls: seq<Recorded>) {
    var n := |calls|;
    && Ordered(calls)
    && |s.chunks| == n
    && (n == 0 ==> s == STARTED)
    && (n > 0 ==> s.lastTime == calls[n - 1].time && s.recorder.index == n - 1)
    && forall k :: 0 <= k < n ==> s.chunks[k] == ChunkInfo(FileName(k), Duration(calls, k), k)
  }

  lemma ClockDiffForward(from: nat, to: nat)
    requires from <= to < TWO64
    ensures ClockDiff(from, to) == to - from
  {
  }

  lemma NamingExtendsList(s: CatchupState, p: seq<Recorded>, last: Recorded)
    requires ListIs(s, p) && Inv(s.recorder)
    requires p != [] ==> s.recorder.index in s.recorder.dir && p[|p| - 1].time <= last.time
    requires |p| + 2 < INVALID_INDEX && last.time < CLOCK_TIME_NONE
    ensures var t := NamePath(s, Some(last.time));
            ListIs(t, p + [last]) && Inv(t.recorder) && t.recorder.index == |p|
  {
    hide FileName, Inv, ClockDiff;
    StepKeepsInv(s.recorder, PathSet);
    var q := p + [last];
    var t := NamePath(s, Some(last.time));
    if p != [] {
      ClockDiffForward(s.lastTime, last.time);
      assert Duration(q, |p| - 1) == last.time - p[|p| - 1].time;
    }
    forall k | 0 <= k < |q|
      ensures t.chunks[k] == ChunkInfo(FileName(k), Duration(q, k), k)
    {
      if k + 1 < |p| {
        assert Duration(q, k) == Duration(p, k);
      }
    }
  }

  lemma BetweenKeepsList(t: CatchupState, calls: seq<Recorded>, steps: seq<Step>)
    requires calls != [] && |calls| + 1 < INVALID_INDEX
    requires ListIs(t, calls) && Inv(t.recorder) && ChunkSurvives(t, steps)
    ensures var u := Between(t, steps); ListIs(u, calls) && Inv(u.recorder) && u.recorder.index in u.recorder.dir
  {
    RunWithoutNames(t.recorder, steps);
  }

  /** A regular recording without its last chunk. */
  lemma OneMore(calls: seq<Recorded>)
    requires Regular(calls) && calls != []
    ensures var n := |calls| - 1;
            var p, last := calls[..n], calls[n];
            var t := NamePath(Record(STARTED, p), Some(last.time));
            && Regular(p) && n + 2 < INVALID_INDEX && last.time < CLOCK_TIME_NONE
            && (n > 0 ==> calls[n - 1].time <= last.time)
            && ChunkSurvives(t, last.steps)
            && Record(STARTED, calls) == Between(t, last.steps)
            && (p == [] ==> Record(STARTED, p) == STARTED)
  {
  }

  /** After a recording the list is right, no file can be overwritten, and the current file is there. */
  ghost predicate Kept(calls: seq<Recorded>) {
    var s := Record(STARTED, calls);
    ListIs(s, calls) && Inv(s.recorder) && (calls != [] ==> s.recorder.index in s.recorder.dir)
  }

  lemma OneMoreIsKept(calls: seq<Recorded>)
    requires Regular(calls) && calls != [] && Kept(calls[..|calls| - 1])
    ensures Kept(calls)
  {
    hide Record, Regular, NamePath, Between, ChunkSurvives, ListIs, Inv;
    OneMore(calls);
    var n := |calls| - 1;
    var last := calls[n];
    var s := Record(STARTED, calls[..n]);
    var t := NamePath(s, Some(last.time));
    assert ListIs(t, calls) && Inv(t.recorder) by {
      NamingExtendsList(s, calls[..n], last);
      assert calls[..n] + [last] == calls;
    }
    BetweenKeepsList(t, calls, last.steps);
  }

  lemma {:induction false} RecordingKeepsList(calls: seq<Recorded>)
    requires Regular(calls)
    ensures Kept(calls)
    decreases |calls|
  {
    if calls != [] {
      hide Kept;
      RecordingKeepsList(calls[..|calls| - 1]);
      OneMoreIsKept(calls);
    }
  }

  function Total(chunks: seq<ChunkInfo>): nat {
    if chunks == [] then 0 else Total(chunks[..|chunks| - 1]) + chunks[|chunks| - 1].duration
  }

  lemma {:induction false} DurationsTelescope(chunks: seq<ChunkInfo>, calls: seq<Recorded>, n: nat)
    requires 0 < n <= |calls| && |chunks| == |calls|
    requires forall k :: 0 <= k < n - 1 ==> chunks[k].duration == calls[k + 1].time - calls[k].time
    ensures Total(chunks[..n - 1]) == calls[n - 1].time - calls[0].time
  {
    if n > 1 {
      DurationsTelescope(chunks, calls, n - 1);
      assert chunks[..n - 1][..n - 2] == chunks[..n - 2];
    }
  }

  // ----------------------------------------------------------------- the playlist

  /** An entry still open gets the configured chunk duration. */
  function Closed(c: ChunkInfo, duration: nat): ChunkInfo {
    if c.duration == CLOCK_TIME_NONE then c.(duration := duration * SECOND % TWO64) else c
  }

  function ClosedAll(chunks: seq<ChunkInfo>, duration: nat): (r: seq<ChunkInfo>)
    ensures |r| == |chunks|
    ensures forall i :: 0 <= i < |chunks| ==> r[i] == Closed(chunks[i], duration)
  {
    if chunks == [] then [] else [Closed(chunks[0], duration)] + ClosedAll(chunks[1..], duration)
  }

  function FirstIndex(chunks: seq<ChunkInfo>): nat {
    if chunks == [] then 0 else chunks[0].index
  }

  function Playlist(chunks: seq<ChunkInfo>, duration: nat): string {
    Text(FirstIndex(chunks), duration, ClosedAll(chunks, duration))
  }

  /**
    Conservation: a recording started in an empty directory holds the chunks 0 to n, the closed ones
    add up to the time recorded, and writing the playlist gives only the open last one the configured
    duration.
  */
  lemma RecordingConservesTime(calls: seq<Recorded>, duration: nat)
    requires Regular(calls) && calls != [] && duration * SECOND < TWO64
    ensures var chunks := Record(STARTED, calls).chunks;
            var n := |calls| - 1;
            && |chunks| == n + 1
            && (forall k :: 0 <= k <= n ==> chunks[k].index == k && chunks[k].path == FileName(k))
            && Total(chunks[..n]) == calls[n].time - calls[0].time
            && ClosedAll(chunks, duration) == chunks[n := chunks[n].(duration := duration * SECOND)]
            && Total(ClosedAll(chunks, duration)) == calls[n].time - calls[0].time + duration * SECOND
  {
    RecordingKeepsList(calls);
    var chunks := Record(STARTED, calls).chunks;
    hide Record, Regular, FileName;
    var n := |calls| - 1;
    DurationsTelescope(chunks, calls, n + 1);
    ClosingTheLast(chunks, duration);
  }

  /** Closing a list whose last entry alone is open. */
  lemma ClosingTheLast(chunks: seq<ChunkInfo>, duration: nat)
    requires chunks != [] && duration * SECOND < TWO64
    requires forall k :: 0 <= k < |chunks| ==>
               (chunks[k].duration == CLOCK_TIME_NONE <==> k == |chunks| - 1)
    ensures var n := |chunks| - 1;
            && ClosedAll(chunks, duration) == chunks[n := chunks[n].(duration := duration * SECOND)]
            && Total(ClosedAll(chunks, duration)) == Total(chunks[..n]) + duration * SECOND
  {
    var n := |chunks| - 1;
    var closed := ClosedAll(chunks, duration);
    hide ClosedAll;
    assert closed == chunks[n := chunks[n].(duration := duration * SECOND)];
    assert closed[..n] == chunks[..n];
  }

  // ----------------------------------------------------------------- writing and loading again

  lemma FileNameIsReadable(index: nat)
    requires index <= UINT64_MAX
    ensures ParseIndex(FileName(index)) == Some(index) && |FileName(index)| <= 23
  {
    var line := FileName(index);
    assert line[|line| - 3..] == ".ts" && line[..|line| - 3] == Print(index);
    TrailingDigitsAfter("", Print(index));
    assert "" + Print(index) == Print(index);
    ParsePrint(index, UINT64_MAX);
    Print64Length(index);
  }

  /** Numbers of 64 bits, and each path made from its index. */
  predicate Readable(chunks: seq<ChunkInfo>) {
    forall k :: 0 <= k < |chunks| ==>
      chunks[k].index <= UINT64_MAX && chunks[k].path == FileName(chunks[k].index) && chunks[k].duration <= UINT64_MAX
  }

  /** The list a later start reads back is the list that was recorded, durations rounded to 10 ms. */
  lemma ReloadedListIsTheRecordedOne(calls: seq<Recorded>, duration: nat)
    requires Regular(calls) && duration <= INT_MAX && duration * SECOND < TWO64
    ensures var chunks := Record(STARTED, calls).chunks;
            var (ok, f) := ParseText(Playlist(chunks, duration));
            ok && f == Fields(3, true, 0, duration, RoundedAll(ClosedAll(chunks, duration)))
  {
    RecordingKeepsList(calls);
    var chunks := Record(STARTED, calls).chunks;
    assert FirstIndex(chunks) == 0;
    ClosedListIsReadable(chunks, duration);
    hide Record, Regular, ParseText, ClosedAll, ListIs;
    WrittenPlaylistIsReadBack(0, duration, ClosedAll(chunks, duration));
  }

  lemma ClosedListIsReadable(chunks: seq<ChunkInfo>, duration: nat)
    requires duration * SECOND < TWO64 && Readable(chunks)
    ensures AllNamed(ClosedAll(chunks, duration)) && AllFit(ClosedAll(chunks, duration))
  {
    var closed := ClosedAll(chunks, duration);
    hide ClosedAll, ParseIndex, FileName;
    forall i | 0 <= i < |closed|
      ensures Named(closed[i]) && FitsLine(closed[i])
    {
      assert closed[i] == Closed(chunks[i], duration);
      FileNameIsReadable(chunks[i].index);
    }
  }

  /** Any readable list that is written reads back with the index of its first chunk, when that fits an int. */
  lemma WrittenListIsReadBack(chunks: seq<ChunkInfo>, duration: nat)
    requires duration <= INT_MAX && duration * SECOND < TWO64 && Readable(chunks)
    ensures var (ok, f) := ParseText(Playlist(chunks, duration));
            var first := if chunks == [] then 0 else chunks[0].index;
            && (ok <==> first <= INT_MAX)
            && (ok ==> f == Fields(3, true, first, duration, RoundedAll(ClosedAll(chunks, duration))))
  {
    ClosedListIsReadable(chunks, duration);
    hide ParseText, ClosedAll, AllNamed, AllFit;
    WrittenPlaylistIsReadBack(FirstIndex(chunks), duration, ClosedAll(chunks, duration));
  }

  // ----------------------------------------------------------------- a resumed recording

  /** A name request with its sample's time stamp, if any, and what happens until the next one. */
  datatype Sampled = Sampled(sample: Option<nat>, steps: seq<Step>)

  function Resume(s: CatchupState, calls: seq<Sampled>): CatchupState
    decreases |calls|
  {
    if calls == [] then s
    else
      var last := calls[|calls| - 1];
      Between(NamePath(Resume(s, calls[..|calls| - 1]), last.sample), last.steps)
  }

  /** A catch-up stream that was started again: the reloaded list, and the recorder as its sink sets it up. */
  function Restarted(path: string, listing: seq<ChunkFile>, dir: Directory, now: int, duration: int,
                     reloaded: seq<ChunkInfo>): CatchupState
    requires duration > 0
  {
    var start := ChunkAtStart(path, StartIndex(Kind.Catchup, listing, now, duration));
    CatchupState(State(start.index, None, dir), start.duration, reloaded)
  }

  /** Only the last entry of the list can change when a name is asked for. */
  lemma NamingKeepsOlder(s: CatchupState, sample: Option<nat>, n: nat)
    requires n < |s.chunks|
    ensures |NamePath(s, sample).chunks| == |s.chunks| + 1 && NamePath(s, sample).chunks[..n] == s.chunks[..n]
  {
  }

  lemma {:induction false} ResumingKeepsFirst(s: CatchupState, calls: seq<Sampled>, n: nat)
    requires calls != [] && n == |s.chunks|
    ensures |Resume(s, calls).chunks| == n + |calls|
    ensures Resume(s, calls).chunks[..n] == NamePath(s, calls[0].sample).chunks[..n]
    decreases |calls|
  {
    hide NamePath, Between;
    var k := |calls| - 1;
    var t := Resume(s, calls[..k]);
    var c := calls[k];
    BetweenKeepsChunks(NamePath(t, c.sample), c.steps);
    if k == 0 {
      NamingAddsOne(s, c.sample);
    } else {
      ResumingKeepsFirst(s, calls[..k], n);
      NamingKeepsOlder(t, c.sample, n);
    }
  }

  lemma NamingAddsOne(s: CatchupState, sample: Option<nat>)
    ensures |NamePath(s, sample).chunks| == |s.chunks| + 1
  {
  }

  lemma BetweenKeepsChunks(s: CatchupState, steps: seq<Step>)
    ensures Between(s, steps).chunks == s.chunks
  {
  }

  /** The time of the last sample, or the one known before. */
  function LastKnown(before: nat, calls: seq<Sampled>): nat
    decreases |calls|
  {
    if calls == [] then before
    else if calls[|calls| - 1].sample.Some? then calls[|calls| - 1].sample.value
    else LastKnown(before, calls[..|calls| - 1])
  }

  lemma {:induction false} ResumingKnowsTime(s: CatchupState, calls: seq<Sampled>)
    ensures Resume(s, calls).lastTime == LastKnown(s.lastTime, calls)
    decreases |calls|
  {
    hide ClockDiff, FileName, Apply, Run, SetLast;
    if calls != [] {
      ResumingKnowsTime(s, calls[..|calls| - 1]);
    }
  }

  /** One name request closes the last chunk when both times are known, and adds an open one. */
  lemma NamingCloses(t: CatchupState, sample: Option<nat>)
    ensures var n, u := |t.chunks|, NamePath(t, sample).chunks;
            && |u| == n + 1
            && u[n].path == Print(u[n].index) + ".ts" && u[n].duration == CLOCK_TIME_NONE
            && (forall j :: 0 <= j < n - 1 ==> u[j] == t.chunks[j])
            && (n > 0 ==> u[n - 1] == if ValidTime(sample) && t.lastTime != CLOCK_TIME_NONE
                                      then t.chunks[n - 1].(duration := ClockDiff(t.lastTime, sample.value))
                                      else t.chunks[n - 1])
  {
    hide ClockDiff, Apply, NextIndex;
  }

  /** Chunk `k` of a recording: its name, and its duration when the request behind it is among the calls. */
  ghost predicate ChunkIs(before: nat, calls: seq<Sampled>, k: nat, chunk: ChunkInfo)
    requires k < |calls|
  {
    && chunk.path == Print(chunk.index) + ".ts"
    && chunk.duration == if k + 1 < |calls| && ValidTime(calls[k + 1].sample)
                            && LastKnown(before, calls[..k + 1]) != CLOCK_TIME_NONE
                         then (calls[k + 1].sample.value - LastKnown(before, calls[..k + 1])) % 0x1_0000_0000_0000_0000
                         else CLOCK_TIME_NONE
  }

  lemma ChunkStaysSo(before: nat, calls: seq<Sampled>, k: nat, chunk: ChunkInfo)
    requires k + 2 < |calls| && ChunkIs(before, calls[..|calls| - 1], k, chunk)
    ensures ChunkIs(before, calls, k, chunk)
  {
    hide LastKnown;
    assert calls[..|calls| - 1][..k + 1] == calls[..k + 1];
  }

  lemma ChunkIsClosed(before: nat, calls: seq<Sampled>, k: nat, chunk: ChunkInfo, last: nat)
    requires k + 2 == |calls| && ChunkIs(before, calls[..k + 1], k, chunk) && last == LastKnown(before, calls[..k + 1])
    ensures ChunkIs(before, calls, k,
                    if ValidTime(calls[k + 1].sample) && last != CLOCK_TIME_NONE
                    then chunk.(duration := ClockDiff(last, calls[k + 1].sample.value)) else chunk)
  {
    hide LastKnown;
  }

  /**
    In any recording, whatever the samples and the directory: chunk `k` is named after its index, and gets the
    time to the next chunk, in 64-bit arithmetic, exactly when both times are known; otherwise it stays open.
  */
  lemma {:induction false} ResumedChunk(s: CatchupState, calls: seq<Sampled>, k: nat)
    requires k < |calls|
    ensures |Resume(s, calls).chunks| == |s.chunks| + |calls|
    ensures ChunkIs(s.lastTime, calls, k, Resume(s, calls).chunks[|s.chunks| + k])
    decreases |calls|
  {
    hide Between, NamePath, LastKnown, ChunkIs;
    var n := |calls| - 1;
    var before := calls[..n];
    var t, c := Resume(s, before), calls[n];
    ResumingKeepsFirst(s, calls, |s.chunks|);
    BetweenKeepsChunks(NamePath(t, c.sample), c.steps);
    NamingCloses(t, c.sample);
    if k < n {
      ResumedChunk(s, before, k);
      if k + 1 == n {
        ResumingKnowsTime(s, before);
        ChunkIsClosed(s.lastTime, calls, k, t.chunks[|s.chunks| + k], t.lastTime);
      } else {
        ChunkStaysSo(s.lastTime, calls, k, t.chunks[|s.chunks| + k]);
      }
    } else {
      SizeAfter(s, before);
      NewChunkIs(s.lastTime, calls, Resume(s, calls).chunks[|s.chunks| + k]);
    }
  }

  lemma SizeAfter(s: CatchupState, calls: seq<Sampled>)
    ensures |Resume(s, calls).chunks| == |s.chunks| + |calls|
  {
    if calls != [] {
      ResumingKeepsFirst(s, calls, |s.chunks|);
    }
  }

  lemma NewChunkIs(before: nat, calls: seq<Sampled>, chunk: ChunkInfo)
    requires calls != [] && chunk.path == Print(chunk.index) + ".ts" && chunk.duration == CLOCK_TIME_NONE
    ensures ChunkIs(before, calls, |calls| - 1, chunk)
  {
  }

  predicate ValidTime(sample: Option<nat>) {
    sample.Some? && sample.value != CLOCK_TIME_NONE
  }

  lemma FirstNameKeepsIff(s: CatchupState, sample: Option<nat>)
    ensures NamePath(s, sample).chunks[..|s.chunks|] == s.chunks
            <==> s.chunks == [] || s.lastTime == CLOCK_TIME_NONE || !ValidTime(sample)
                 || ClockDiff(s.lastTime, sample.value) == s.chunks[|s.chunks| - 1].duration
  {
    hide ClockDiff, FileName, Apply;
    var n := |s.chunks|;
    var t := NamePath(s, sample);
    if n > 0 && s.lastTime != CLOCK_TIME_NONE && ValidTime(sample) {
      var d := ClockDiff(s.lastTime, sample.value);
      assert t.chunks[..n] == SetLast(s.chunks, d);
      assert SetLast(s.chunks, d)[n - 1].duration == d;
      if d == s.chunks[n - 1].duration {
        assert SetLast(s.chunks, d) == s.chunks;
      }
    } else {
      assert t.chunks[..n] == s.chunks;
    }
  }

  /**
    The start index lands in the field that holds the time of the last chunk, so the first valid time
    stamp closes the last reloaded entry a second time.  Over any resumed recording the reloaded entries
    survive exactly when there are none, the directory had no chunk, the first sample has no valid time,
    or the difference to the start index happens to be the duration already there.
  */
  lemma ReloadedSurviveIff(path: string, listing: seq<ChunkFile>, dir: Directory, now: int, duration: int,
                           reloaded: seq<ChunkInfo>, calls: seq<Sampled>)
    requires duration > 0 && Lists(listing, dir) && calls != []
    requires forall i :: i in dir ==> i < INVALID_INDEX - 1
    ensures var s := Restarted(path, listing, dir, now, duration, reloaded);
            reloaded <= Resume(s, calls).chunks
            <==> reloaded == [] || dir == map[] || !ValidTime(calls[0].sample)
                 || ClockDiff(StartIndex(Kind.Catchup, listing, now, duration), calls[0].sample.value)
                    == reloaded[|reloaded| - 1].duration
  {
    var s := Restarted(path, listing, dir, now, duration, reloaded);
    StartIsInvalidIff(listing, dir, now, duration);
    hide StartIndex, Resume, NamePath, ClockDiff, Lists;
    ResumingKeepsFirst(s, calls, |reloaded|);
    FirstNameKeepsIff(s, calls[0].sample);
  }

  lemma StartIsInvalidIff(listing: seq<ChunkFile>, dir: Directory, now: int, duration: int)
    requires duration > 0 && Lists(listing, dir)
    requires forall i :: i in dir ==> i < INVALID_INDEX - 1
    ensures StartIndex(Kind.Catchup, listing, now, duration) == INVALID_INDEX <==> dir == map[]
  {
    EmptyTogether(listing, dir);
    LastChunkIsGreatest(listing);
    hide LastChunk;
  }

  // ----------------------------------------------------------------- the stateful form

  function Fewer(a: nat, b: nat): nat {
    if a <= b then a else b
  }

  /** The header and the first `k` lines. */
  function HeaderAndLines(chunks: seq<ChunkInfo>, duration: nat, k: nat): string
    requires k <= |chunks|
  {
    WithHeader(FirstIndex(chunks), duration, Lines(ClosedAll(chunks, duration)[..k], ""))
  }

  /** What the file holds when only the first `writes` writes succeed: header, lines, footer. */
  function Written(chunks: seq<ChunkInfo>, duration: nat, writes: nat): string {
    if writes == 0 then ""
    else if writes >= |chunks| + 2 then Playlist(chunks, duration)
    else HeaderAndLines(chunks, duration, Fewer(writes - 1, |chunks|))
  }

  /** The list with its first `k` entries closed. */
  function PatchedUpTo(chunks: seq<ChunkInfo>, duration: nat, k: nat): (r: seq<ChunkInfo>)
    requires k <= |chunks|
    ensures |r| == |chunks|
  {
    ClosedAll(chunks, duration)[..k] + chunks[k..]
  }

  lemma {:induction false} LinesThen(chunks: seq<ChunkInfo>, a: string, b: string)
    ensures Lines(chunks, a) + b == Lines(chunks, a + b)
  {
    hide WithLine;
    if chunks != [] {
      var rest := Lines(chunks[1..], a);
      LinesThen(chunks[1..], a, b);
      M3u8Files.LineThen(chunks[0], rest);
      M3u8Files.LineThen(chunks[0], rest + b);
      assert (WithLine(chunks[0], "") + rest) + b == WithLine(chunks[0], "") + (rest + b);
    }
  }

  lemma HeaderThen(first: nat, target: nat, a: string, b: string)
    ensures WithHeader(first, target, a) + b == WithHeader(first, target, a + b)
  {
    hide WithHeader;
    M3u8Files.HeaderThen(first, target, a);
    M3u8Files.HeaderThen(first, target, a + b);
    var h := WithHeader(first, target, "");
    assert (h + a) + b == h + (a + b);
  }

  lemma {:induction false} LinesOfMore(chunks: seq<ChunkInfo>, c: ChunkInfo, tail: string)
    ensures Lines(chunks, WithLine(c, tail)) == Lines(chunks + [c], tail)
  {
    hide WithLine;
    if chunks == [] {
      assert (chunks + [c])[1..] == [];
    } else {
      assert (chunks + [c])[1..] == chunks[1..] + [c];
      LinesOfMore(chunks[1..], c, tail);
    }
  }

  /** Whichever write fails, the file holds a beginning of the playlist. */
  lemma WrittenIsBeginning(chunks: seq<ChunkInfo>, duration: nat, writes: nat)
    ensures Written(chunks, duration, writes) <= Playlist(chunks, duration)
  {
    var closed := ClosedAll(chunks, duration);
    hide WithHeader, Lines, ClosedAll, Body, FirstIndex;
    if 0 < writes < |chunks| + 2 {
      var k := Fewer(writes - 1, |chunks|);
      var rest := Lines(closed[k..], FOOTER);
      LinesAreBody(closed);
      LinesSplit(closed, k, FOOTER);
      LinesThen(closed[..k], "", rest);
      assert "" + rest == rest;
      HeaderThen(FirstIndex(chunks), duration, Lines(closed[..k], ""), rest);
    }
  }

  lemma {:induction false} LinesSplit(chunks: seq<ChunkInfo>, k: nat, tail: string)
    requires k <= |chunks|
    ensures Lines(chunks, tail) == Lines(chunks[..k], Lines(chunks[k..], tail))
    decreases k
  {
    hide WithLine;
    if k == 0 {
      assert chunks[..0] == [] && chunks[0..] == chunks;
    } else {
      LinesSplit(chunks[1..], k - 1, tail);
      assert chunks[..k][1..] == chunks[1..][..k - 1] && chunks[k..] == chunks[1..][k - 1..];
    }
  }

  /**
    Whichever write fails, a later start finds exactly the chunks whose lines were written, closed and rounded
    to 10 ms; the playlist counts as good from the first of them on, also without its footer.
  */
  lemma WrittenIsReadBack(chunks: seq<ChunkInfo>, duration: nat, writes: nat)
    requires duration <= INT_MAX && duration * SECOND < TWO64 && Readable(chunks)
    ensures var (ok, f) := ParseText(Written(chunks, duration, writes));
            && (ok <==> if chunks == [] then writes >= 2 else writes >= 2 && chunks[0].index <= INT_MAX)
            && (chunks != [] && chunks[0].index <= INT_MAX ==>
                  var k := Fewer(if writes == 0 then 0 else writes - 1, |chunks|);
                  f.chunks == RoundedAll(ClosedAll(chunks, duration)[..k]))
  {
    var closed := ClosedAll(chunks, duration);
    hide ParseText, ClosedAll, WithHeader, Lines, AllNamed, AllFit, Closed;
    if writes == 0 {
      NothingIsRead();
      assert closed[..0] == [];
    } else if writes >= |chunks| + 2 {
      WrittenListIsReadBack(chunks, duration);
      assert closed[..|chunks|] == closed;
    } else if writes == 1 || chunks == [] {
      HeaderAlone(FirstIndex(chunks), duration);
      NoLines();
      assert closed[..0] == [];
    } else {
      var k := Fewer(writes - 1, |chunks|);
      ClosedListIsReadable(chunks, duration);
      SomeAreReadable(closed, k);
      CutPlaylistIsReadBack(FirstIndex(chunks), duration, closed[..k]);
    }
  }

  lemma NothingIsRead()
    ensures ParseText("") == (false, CLEARED)
  {
  }

  lemma NoLines()
    ensures Lines([], "") == ""
  {
  }

  lemma SomeAreReadable(closed: seq<ChunkInfo>, k: nat)
    requires AllNamed(closed) && AllFit(closed) && k <= |closed|
    ensures AllNamed(closed[..k]) && AllFit(closed[..k])
  {
    hide Named, FitsLine;
  }

  lemma AllPatched(chunks: seq<ChunkInfo>, duration: nat)
    ensures PatchedUpTo(chunks, duration, |chunks|) == ClosedAll(chunks, duration)
  {
    assert ClosedAll(chunks, duration)[..|chunks|] == ClosedAll(chunks, duration);
  }

  lemma NothingYet(chunks: seq<ChunkInfo>, duration: nat)
    ensures HeaderAndLines(chunks, duration, 0) == WithHeader(FirstIndex(chunks), duration, "")
    ensures PatchedUpTo(chunks, duration, 0) == chunks
  {
    assert ClosedAll(chunks, duration)[..0] == [] && chunks[0..] == chunks;
  }

  /** Writing line `i` behind the header and the lines before it. */
  lemma WriteStep(chunks: seq<ChunkInfo>, duration: nat, i: nat)
    requires i < |chunks|
    ensures HeaderAndLines(chunks, duration, i) + WithLine(ClosedAll(chunks, duration)[i], "")
            == HeaderAndLines(chunks, duration, i + 1)
  {
    var first, closed := FirstIndex(chunks), ClosedAll(chunks, duration);
    hide WithHeader, Lines, WithLine, ClosedAll, FirstIndex;
    var line := WithLine(closed[i], "");
    HeaderThen(first, duration, Lines(closed[..i], ""), line);
    LinesThen(closed[..i], "", line);
    assert "" + line == line;
    LinesOfMore(closed[..i], closed[i], "");
    assert closed[..i] + [closed[i]] == closed[..i + 1];
  }

  lemma WriteEnd(chunks: seq<ChunkInfo>, duration: nat)
    ensures HeaderAndLines(chunks, duration, |chunks|) + FOOTER == Playlist(chunks, duration)
  {
    var first, closed := FirstIndex(chunks), ClosedAll(chunks, duration);
    hide WithHeader, Lines, ClosedAll, FirstIndex, Body;
    assert closed[..|chunks|] == closed;
    HeaderThen(first, duration, Lines(closed, ""), FOOTER);
    LinesThen(closed, "", FOOTER);
    assert "" + FOOTER == FOOTER;
    LinesAreBody(closed);
  }

  lemma Patched(closed: seq<ChunkInfo>, before: seq<ChunkInfo>, i: nat)
    requires |closed| == |before| && i < |before|
    ensures var chunks := closed[..i] + before[i..];
            && |chunks| == |before| && chunks[i] == before[i]
            && chunks[i := closed[i]] == closed[..i + 1] + before[i + 1..]
            && (closed[i] == before[i] ==> chunks == closed[..i + 1] + before[i + 1..])
  {
  }

  /** Closing entry `i` of a list whose first `i` entries are closed. */
  lemma PatchStep(before: seq<ChunkInfo>, duration: nat, i: nat)
    requires i < |before|
    ensures var chunks := PatchedUpTo(before, duration, i);
            (if chunks[i].duration == CLOCK_TIME_NONE
             then chunks[i := chunks[i].(duration := duration * SECOND % TWO64)] else chunks)
            == PatchedUpTo(before, duration, i + 1)
    ensures PatchedUpTo(before, duration, i + 1)[i] == ClosedAll(before, duration)[i]
  {
    var closed := ClosedAll(before, duration);
    hide ClosedAll;
    assert closed[i] == Closed(before[i], duration);
    Patched(closed, before, i);
  }

  class CatchupStream {
    const base: TimeShiftRecorder
    var chunks: seq<ChunkInfo>

    /** `playlist`: the text of an earlier playlist in the directory, if there is one. */
    constructor (base: TimeShiftRecorder, playlist: Option<string>)
      ensures this.base == base
      ensures chunks == if playlist.Some? then ParseText(playlist.value).1.chunks else []
    {
      this.base := base;
      chunks := [];
      new;
      var reader := new M3u8Files.M3u8Reader();
      var file: M3u8Files.TextFile? := null;
      if playlist.Some? {
        file := new M3u8Files.TextFile(playlist.value);
      }
      var ok := reader.ParseFile(file);
      chunks := reader.chunks;
    }

    function Current(): CatchupState
      reads this, base
    {
      CatchupState(base.Current(), base.chunk.duration, chunks)
    }

    method OnPathSet(sample: Option<nat>) returns (path: string)
      modifies this, base
      ensures Current() == NamePath(old(Current()), sample)
      ensures path == old(base.chunk.path) + FileName(base.chunk.index)
    {
      var index := base.CalcNextIndex();
      var chunk := ChunkInfo(FileName(index), CLOCK_TIME_NONE, index);
      if sample.Some? {
        var time := sample.value;
        if time != CLOCK_TIME_NONE && base.chunk.duration != CLOCK_TIME_NONE {
          var diff := ClockDiff(base.chunk.duration, time);
          if chunks != [] {
            chunks := chunks[|chunks| - 1 := chunks[|chunks| - 1].(duration := diff)];
          }
        }
        base.chunk := base.chunk.(duration := time);
      }
      chunks := chunks + [chunk];
      path := base.OnPathSet();
    }

    /** `canOpen`: the file can be opened; `writes`: how many writes succeed before one fails. */
    method WriteM3u8List(duration: nat, canOpen: bool, writes: nat) returns (text: string)
      modifies this`chunks
      ensures text == if canOpen then Written(old(chunks), duration, writes) else ""
      ensures chunks == PatchedUpTo(old(chunks), duration, if canOpen then Fewer(writes, |old(chunks)|) else 0)
    {
      hide PatchedUpTo, HeaderAndLines, Playlist, WithLine, WithHeader, ClosedAll;
      text := "";
      ghost var before := chunks;
      NothingYet(before, duration);
      if !canOpen {
        return;
      }
      var writer := new M3u8Files.M3u8Writer();
      var firstIndex := if chunks == [] then 0 else chunks[0].index;
      if writes == 0 {
        return;
      }
      writer.WriteHeader(firstIndex, duration);
      for i := 0 to |chunks|
        invariant chunks == PatchedUpTo(before, duration, i)
        invariant fresh(writer) && i <= writes - 1
        invariant writer.file == HeaderAndLines(before, duration, i)
      {
        PatchStep(before, duration, i);
        if chunks[i].duration == CLOCK_TIME_NONE {
          chunks := chunks[i := chunks[i].(duration := duration * SECOND % TWO64)];
        }
        if i == writes - 1 {
          return writer.file;
        }
        WriteStep(before, duration, i);
        writer.WriteLine(chunks[i]);
      }
      if writes >= |chunks| + 2 {
        WriteEnd(before, duration);
        writer.WriteFooter();
      }
      text := writer.file;
    }
  }
}
