/**
  Byte accounting and the data watchdog of a running stream: per-channel counters that wrap like
  `size_t`, a checkpoint that moves when output flows, and a timer tick that judges the bytes seen
  since the checkpoint.  The reference is a monitor that simply remembers what arrived, and when.
*/
module Watchdog {
  import opened Arithmetic
  import opened Wrappers

  const NO_DATA_PANIC_SEC: nat := 60
  const REPORT_DELAY_SEC: nat := 10
  const MIN_DATA: nat := 4 * 1024 * 60
  /** Seconds that fit a 64-bit count of milliseconds. */
  const LAST_SECOND: nat := 0x7FFF_FFFF_FFFF_FFFF / 1000

  /** The recorder forgives missing output, the time-shift player missing input. */
  datatype Kind = Base | Recorder | Player

  datatype Side = Input | Output

  /** The counters of one channel, each below `TWO64`. */
  datatype Channel = Channel(total: nat, prev: nat, bps: nat) {
    function Diff(): nat {
      (total - prev) % TWO64
    }

    function Add(size: nat): Channel {
      this.(total := (total + size) % TWO64)
    }

    function UpdateBps(sec: nat): Channel {
      if sec == 0 then this else this.(bps := Diff() / sec)
    }

    function UpdateCheckPoint(): Channel {
      this.(prev := total)
    }
  }

  datatype State = State(input: seq<Channel>, output: seq<Channel>, panicTick: int, statusTick: int, active: bool)

  /** `resetAt` is the clock when the tick moves the checkpoint, which it reads again. */
  datatype Event =
    | Transferred(side: Side, id: nat, size: nat)
    | StatusChanged(active: bool)
    | Ticked(up: int, resetAt: int)

  /** What one tick concludes; each request asks the stream to leave with an inner error. */
  datatype Tick = Tick(up: int, diff: nat, inBytes: nat, outBytes: nat, inBps: seq<nat>, outBps: seq<nat>,
                       checked: bool, inputQuits: bool, outputQuits: bool, reported: bool)

  // ----------------------------------------------------------------- the counters

  function Transfer(channels: seq<Channel>, id: nat, size: nat): seq<Channel> {
    if id < |channels| then channels[id := channels[id].Add(size)] else channels
  }

  function AfterTransfer(s: State, side: Side, id: nat, size: nat): State {
    if side.Input? then s.(input := Transfer(s.input, id, size)) else s.(output := Transfer(s.output, id, size))
  }

  function CheckPoints(channels: seq<Channel>): (r: seq<Channel>)
    ensures |r| == |channels|
  {
    seq(|channels|, i requires 0 <= i < |channels| => channels[i].UpdateCheckPoint())
  }

  function Rates(channels: seq<Channel>, sec: nat): (r: seq<Channel>)
    ensures |r| == |channels|
  {
    seq(|channels|, i requires 0 <= i < |channels| => channels[i].UpdateBps(sec))
  }

  function Bps(channels: seq<Channel>): (r: seq<nat>)
    ensures |r| == |channels|
  {
    seq(|channels|, i requires 0 <= i < |channels| => channels[i].bps)
  }

  /** The sum of the channel differences, in `size_t` arithmetic. */
  function SumDiff(channels: seq<Channel>): nat {
    if channels == [] then 0
    else (SumDiff(channels[..|channels| - 1]) + channels[|channels| - 1].Diff()) % TWO64
  }

  function AfterReset(s: State, now: int): State {
    s.(input := CheckPoints(s.input), output := CheckPoints(s.output), panicTick := now + NO_DATA_PANIC_SEC)
  }

  function Elapsed(s: State, up: int): nat {
    (NO_DATA_PANIC_SEC - s.panicTick + up + 1) % TWO64
  }

  function Conclude(kind: Kind, s: State, up: int): Tick {
    var diff := Elapsed(s, up);
    var inBytes, outBytes := SumDiff(s.input), SumDiff(s.output);
    var checked := up > s.panicTick;
    Tick(up, diff, inBytes, outBytes, Bps(Rates(s.input, diff)), Bps(Rates(s.output, diff)), checked,
         checked && inBytes < MIN_DATA && !kind.Player?,
         checked && outBytes < MIN_DATA && !kind.Recorder?,
         s.active && s.statusTick <= up)
  }

  function AfterTick(kind: Kind, s: State, up: int, resetAt: int): State {
    var t := Conclude(kind, s, up);
    var rated := s.(input := Rates(s.input, t.diff), output := Rates(s.output, t.diff));
    var checked := if t.checked && !t.outputQuits then AfterReset(rated, resetAt) else rated;
    if t.reported then checked.(statusTick := up + REPORT_DELAY_SEC) else checked
  }

  function Next(kind: Kind, s: State, e: Event): State {
    match e
    case Transferred(side, id, size) => AfterTransfer(s, side, id, size)
    case StatusChanged(active) => s.(active := active)
    case Ticked(up, resetAt) => AfterTick(kind, s, up, resetAt)
  }

  /** What the ticks of a run conclude. */
  function Ticks(kind: Kind, s: State, events: seq<Event>): seq<Tick>
    decreases |events|
  {
    if events == [] then []
    else
      (if events[0].Ticked? then [Conclude(kind, s, events[0].up)] else [])
      + Ticks(kind, Next(kind, s, events[0]), events[1..])
  }

  /** The state in which the main loop starts: counters of earlier runs are kept, the checkpoint is new. */
  function Started(input: seq<Channel>, output: seq<Channel>, now: int): State {
    AfterReset(State(input, output, 0, 0, false), now)
  }

  // ----------------------------------------------------------------- the reference monitor

  /** It remembers the checkpoint's time, what was transferred since, and the last report. */
  datatype Monitor = Monitor(checkpoint: int, since: seq<Event>, lastReport: Option<int>, active: bool)

  /** Bytes transferred on one channel. */
  function BytesOn(since: seq<Event>, side: Side, id: nat): nat {
    if since == [] then 0
    else
      var e := since[|since| - 1];
      BytesOn(since[..|since| - 1], side, id)
      + (if e.Transferred? && e.side == side && e.id == id then e.size else 0)
  }

  /** Bytes transferred on the channels `0` to `count - 1` together. */
  function Bytes(since: seq<Event>, side: Side, count: nat): nat {
    if since == [] then 0
    else
      var e := since[|since| - 1];
      Bytes(since[..|since| - 1], side, count)
      + (if e.Transferred? && e.side == side && e.id < count then e.size else 0)
  }

  /** The rate a channel must show: its bytes since the checkpoint over the seconds since, plus one. */
  function RatesSince(since: seq<Event>, side: Side, count: nat, sec: nat): (r: seq<nat>)
    requires sec > 0
    ensures |r| == count
  {
    seq(count, i requires 0 <= i < count => BytesOn(since, side, i) % TWO64 / sec)
  }

  /** The watchdog fires when more than a minute has passed since the checkpoint and too little was transferred. */
  function Expect(kind: Kind, ins: nat, outs: nat, m: Monitor, up: int): Tick
    requires up >= m.checkpoint
  {
    var elapsed := up - m.checkpoint;
    var inBytes, outBytes := Bytes(m.since, Input, ins) % TWO64, Bytes(m.since, Output, outs) % TWO64;
    var late := elapsed > NO_DATA_PANIC_SEC;
    Tick(up, elapsed + 1, inBytes, outBytes,
         RatesSince(m.since, Input, ins, elapsed + 1), RatesSince(m.since, Output, outs, elapsed + 1), late,
         late && inBytes < MIN_DATA && kind != Player,
         late && outBytes < MIN_DATA && kind != Recorder,
         m.active && (m.lastReport.None? || up - m.lastReport.value >= REPORT_DELAY_SEC))
  }

  function Observe(kind: Kind, ins: nat, outs: nat, m: Monitor, e: Event): Monitor
    requires e.Ticked? ==> e.up >= m.checkpoint
  {
    match e
    case Transferred(_, _, _) => m.(since := m.since + [e])
    case StatusChanged(active) => m.(active := active)
    case Ticked(up, resetAt) =>
      var t := Expect(kind, ins, outs, m, up);
      var moved := if t.checked && !t.outputQuits then m.(checkpoint := resetAt, since := []) else m;
      if t.reported then moved.(lastReport := Some(up)) else moved
  }

  /** The clock never goes back, from `now` on. */
  predicate Monotone(now: int, events: seq<Event>)
    decreases |events|
  {
    events == []
    || (if events[0].Ticked?
        then now <= events[0].up <= events[0].resetAt <= LAST_SECOND && Monotone(events[0].resetAt, events[1..])
        else Monotone(now, events[1..]))
  }

  function Later(now: int, e: Event): int {
    if e.Ticked? then e.resetAt else now
  }

  function Expected(kind: Kind, ins: nat, outs: nat, m: Monitor, now: int, events: seq<Event>): seq<Tick>
    requires m.checkpoint <= now && Monotone(now, events)
    decreases |events|
  {
    if events == [] then []
    else
      (if events[0].Ticked? then [Expect(kind, ins, outs, m, events[0].up)] else [])
      + Expected(kind, ins, outs, Observe(kind, ins, outs, m, events[0]), Later(now, events[0]), events[1..])
  }

  // ----------------------------------------------------------------- counters against the monitor

  /** Each channel's difference is what was transferred on it since the checkpoint. */
  ghost predicate Accounts(channels: seq<Channel>, since: seq<Event>, side: Side) {
    forall i :: 0 <= i < |channels| ==> channels[i].Diff() == BytesOn(since, side, i) % TWO64
  }

  lemma DiffAfterAdd(total: int, prev: int, bytes: int, size: int, m: nat)
    requires m > 0 && (total - prev) % m == bytes % m
    ensures ((total + size) % m - prev) % m == (bytes + size) % m
  {
    SameRemainder(total - prev, bytes, m, size);
    var q := (total + size) / m;
    Congruent(total + size - prev, (total + size) % m - prev, m, q);
  }

  lemma SameRemainder(a: int, b: int, m: nat, c: int)
    requires m > 0 && a % m == b % m
    ensures (a + c) % m == (b + c) % m
  {
    ModAdd(a, c, m);
    ModAdd(b, c, m);
  }

  lemma BytesOnAppend(since: seq<Event>, e: Event, side: Side, id: nat)
    ensures BytesOn(since + [e], side, id)
            == BytesOn(since, side, id) + (if e.Transferred? && e.side == side && e.id == id then e.size else 0)
  {
    assert (since + [e])[..|since|] == since;
  }

  lemma TransferAccounts(channels: seq<Channel>, since: seq<Event>, side: Side, e: Event)
    requires Accounts(channels, since, side) && e.Transferred?
    ensures Accounts(if e.side == side then Transfer(channels, e.id, e.size) else channels, since + [e], side)
  {
    hide BytesOn;
    var after := if e.side == side then Transfer(channels, e.id, e.size) else channels;
    forall i | 0 <= i < |after|
      ensures after[i].Diff() == BytesOn(since + [e], side, i) % TWO64
    {
      BytesOnAppend(since, e, side, i);
      if e.side == side && e.id == i {
        DiffAfterAdd(channels[i].total, channels[i].prev, BytesOn(since, side, i), e.size, TWO64);
      }
    }
  }

  lemma {:induction false} BytesSplit(since: seq<Event>, side: Side, count: nat)
    ensures Bytes(since, side, count + 1) == Bytes(since, side, count) + BytesOn(since, side, count)
  {
    if since != [] {
      BytesSplit(since[..|since| - 1], side, count);
    }
  }

  lemma {:induction false} NoChannelNoBytes(since: seq<Event>, side: Side)
    ensures Bytes(since, side, 0) == 0
  {
    if since != [] {
      NoChannelNoBytes(since[..|since| - 1], side);
    }
  }

  /** Summing the differences in `size_t` arithmetic gives the bytes of all the channels. */
  lemma {:induction false} SumIsBytes(channels: seq<Channel>, since: seq<Event>, side: Side)
    requires Accounts(channels, since, side)
    ensures SumDiff(channels) == Bytes(since, side, |channels|) % TWO64
  {
    hide Bytes, BytesOn;
    if channels == [] {
      NoChannelNoBytes(since, side);
      ModIs(0, TWO64, 0, 0);
    } else {
      var n := |channels| - 1;
      SumIsBytes(channels[..n], since, side);
      BytesSplit(since, side, n);
      ModAddBoth(Bytes(since, side, n), BytesOn(since, side, n), TWO64);
    }
  }

  lemma RatesAccount(channels: seq<Channel>, since: seq<Event>, side: Side, sec: nat)
    requires Accounts(channels, since, side) && sec > 0
    ensures Bps(Rates(channels, sec)) == RatesSince(since, side, |channels|, sec)
    ensures Accounts(Rates(channels, sec), since, side)
  {
    hide BytesOn;
    forall i | 0 <= i < |channels|
      ensures Rates(channels, sec)[i].Diff() == BytesOn(since, side, i) % TWO64
    {
      assert Rates(channels, sec)[i].total == channels[i].total && Rates(channels, sec)[i].prev == channels[i].prev;
    }
  }

  lemma CheckPointAccounts(channels: seq<Channel>, side: Side)
    ensures Accounts(CheckPoints(channels), [], side)
  {
    ModIs(0, TWO64, 0, 0);
  }

  // ----------------------------------------------------------------- the refinement

  ghost predicate Tracks(s: State, m: Monitor, now: int) {
    && 0 <= m.checkpoint <= now
    && s.panicTick == m.checkpoint + NO_DATA_PANIC_SEC
    && s.active == m.active
    && s.statusTick == (if m.lastReport.Some? then m.lastReport.value + REPORT_DELAY_SEC else 0)
    && Accounts(s.input, m.since, Input)
    && Accounts(s.output, m.since, Output)
  }

  lemma ElapsedIs(s: State, checkpoint: int, up: int)
    requires s.panicTick == checkpoint + NO_DATA_PANIC_SEC && 0 <= checkpoint <= up <= LAST_SECOND
    ensures Elapsed(s, up) == up - checkpoint + 1
  {
    ModIs(up - checkpoint + 1, TWO64, 0, up - checkpoint + 1);
  }

  /** A tick concludes what the monitor expects. */
  lemma ConcludeMeetsExpect(kind: Kind, s: State, m: Monitor, up: int)
    requires Tracks(s, m, up) && up <= LAST_SECOND
    ensures Conclude(kind, s, up) == Expect(kind, |s.input|, |s.output|, m, up)
    ensures Conclude(kind, s, up).diff == up - m.checkpoint + 1
  {
    hide SumDiff, Bytes, Bps, Rates, RatesSince, Accounts, Elapsed;
    ElapsedIs(s, m.checkpoint, up);
    var sec := up - m.checkpoint + 1;
    SumIsBytes(s.input, m.since, Input);
    SumIsBytes(s.output, m.since, Output);
    RatesAccount(s.input, m.since, Input, sec);
    RatesAccount(s.output, m.since, Output, sec);
  }

  lemma TickKeepsTrack(kind: Kind, s: State, m: Monitor, up: int, resetAt: int)
    requires Tracks(s, m, up) && up <= resetAt <= LAST_SECOND
    ensures Tracks(AfterTick(kind, s, up, resetAt), Observe(kind, |s.input|, |s.output|, m, Ticked(up, resetAt)), resetAt)
  {
    hide SumDiff, Bytes, Bps, Rates, RatesSince, Accounts, Elapsed, CheckPoints, Conclude, Expect;
    ConcludeMeetsExpect(kind, s, m, up);
    var sec := up - m.checkpoint + 1;
    RatesAccount(s.input, m.since, Input, sec);
    RatesAccount(s.output, m.since, Output, sec);
    CheckPointAccounts(Rates(s.input, sec), Input);
    CheckPointAccounts(Rates(s.output, sec), Output);
  }

  lemma NextKeepsTrack(kind: Kind, s: State, m: Monitor, now: int, e: Event)
    requires Tracks(s, m, now)
    requires e.Ticked? ==> now <= e.up <= e.resetAt <= LAST_SECOND
    ensures Tracks(Next(kind, s, e), Observe(kind, |s.input|, |s.output|, m, e), Later(now, e))
    ensures |Next(kind, s, e).input| == |s.input| && |Next(kind, s, e).output| == |s.output|
  {
    hide Accounts, Conclude, Expect;
    match e
    case Transferred(side, id, size) =>
      TransferAccounts(s.input, m.since, Input, e);
      TransferAccounts(s.output, m.since, Output, e);
    case StatusChanged(_) =>
    case Ticked(up, resetAt) =>
      TickKeepsTrack(kind, s, m, up, resetAt);
  }

  lemma {:induction false} RunMeetsMonitor(kind: Kind, s: State, m: Monitor, now: int, events: seq<Event>)
    requires Tracks(s, m, now) && Monotone(now, events)
    ensures Ticks(kind, s, events) == Expected(kind, |s.input|, |s.output|, m, now, events)
    decreases |events|
  {
    hide Tracks, Conclude, Expect, Next, Observe;
    if events != [] {
      var e := events[0];
      TracksIsOrdered(s, m, now);
      NextKeepsTrack(kind, s, m, now, e);
      if e.Ticked? {
        TracksLater(s, m, now, e.up);
        ConcludeMeetsExpect(kind, s, m, e.up);
      }
      RunMeetsMonitor(kind, Next(kind, s, e), Observe(kind, |s.input|, |s.output|, m, e), Later(now, e), events[1..]);
    }
  }

  lemma TracksIsOrdered(s: State, m: Monitor, now: int)
    requires Tracks(s, m, now)
    ensures m.checkpoint <= now
  {
  }

  lemma TracksLater(s: State, m: Monitor, now: int, up: int)
    requires Tracks(s, m, now) && now <= up
    ensures Tracks(s, m, up)
  {
  }

  /**
    From any counters left by earlier runs and on every sequence of transfers, status changes and ticks
    with a clock that does not go back, each tick concludes exactly what the monitor expects.
  */
  lemma WatchdogMeetsMonitor(kind: Kind, input: seq<Channel>, output: seq<Channel>, now: int, events: seq<Event>)
    requires 0 <= now && Monotone(now, events)
    ensures Ticks(kind, Started(input, output, now), events)
            == Expected(kind, |input|, |output|, Monitor(now, [], None, false), now, events)
  {
    CheckPointAccounts(input, Input);
    CheckPointAccounts(output, Output);
    RunMeetsMonitor(kind, Started(input, output, now), Monitor(now, [], None, false), now, events);
  }

  // ----------------------------------------------------------------- one tick, from any state

  /** A late tick asks an inner error of the sides below 240 kilobytes, unless the stream forgives that side. */
  lemma TickQuitsIff(kind: Kind, s: State, up: int)
    ensures var t := Conclude(kind, s, up);
            && (t.inputQuits <==> up > s.panicTick && SumDiff(s.input) < 245_760 && kind != Player)
            && (t.outputQuits <==> up > s.panicTick && SumDiff(s.output) < 245_760 && kind != Recorder)
            && (t.reported <==> s.active && up >= s.statusTick)
            && t.diff == (up - (s.panicTick - 60) + 1) % TWO64
            && RatesAre(s.input, t.inBps, t.diff) && RatesAre(s.output, t.outBps, t.diff)
  {
    hide SumDiff;
  }

  /** The difference over the seconds; no second keeps the rate. */
  predicate RatesAre(channels: seq<Channel>, bps: seq<nat>, sec: nat) {
    |bps| == |channels|
    && forall i :: 0 <= i < |bps| ==> bps[i] == if sec == 0 then channels[i].bps else channels[i].Diff() / sec
  }

  /** The checkpoint moves exactly at a late tick whose output does not fail; the counters themselves stay. */
  lemma CheckpointMovesIff(kind: Kind, s: State, up: int, resetAt: int)
    ensures var t := AfterTick(kind, s, up, resetAt);
            var moves := up > s.panicTick && (SumDiff(s.output) >= 245_760 || kind == Recorder);
            && t.panicTick == (if moves then resetAt + 60 else s.panicTick)
            && t.statusTick == (if s.active && up >= s.statusTick then up + 10 else s.statusTick)
            && t.active == s.active
            && CountsFrom(s.input, t.input, moves) && CountsFrom(s.output, t.output, moves)
  {
    hide SumDiff, Bps;
  }

  /** The totals stay, and the differences start again at 0 or stay. */
  predicate CountsFrom(before: seq<Channel>, after: seq<Channel>, moves: bool) {
    |after| == |before|
    && forall i :: 0 <= i < |after| ==>
         after[i].total == before[i].total && after[i].prev == if moves then before[i].total else before[i].prev
  }

  lemma StartedFromCheckpoint(input: seq<Channel>, output: seq<Channel>, now: int)
    ensures var s := Started(input, output, now);
            s.panicTick == now + 60 && s.statusTick == 0 && !s.active
            && CountsFrom(input, s.input, true) && CountsFrom(output, s.output, true)
  {
  }

  /** A transfer adds its size to the difference of its own channel, across a wrap, and to no other. */
  lemma TransferAdds(s: State, side: Side, id: nat, size: nat)
    ensures var t := AfterTransfer(s, side, id, size);
            && t.panicTick == s.panicTick && t.statusTick == s.statusTick && t.active == s.active
            && |t.input| == |s.input| && |t.output| == |s.output|
            && (forall i :: 0 <= i < |t.input| ==>
                  t.input[i].Diff() == (s.input[i].Diff() + (if side.Input? && i == id then size else 0)) % TWO64)
            && (forall i :: 0 <= i < |t.output| ==>
                  t.output[i].Diff() == (s.output[i].Diff() + (if side.Output? && i == id then size else 0)) % TWO64)
  {
    forall i | 0 <= i < |s.input|
      ensures var t := AfterTransfer(s, side, id, size).input;
              t[i].Diff() == (s.input[i].Diff() + (if side.Input? && i == id then size else 0)) % TWO64
    {
      AddedDiff(s.input[i], if side.Input? && i == id then size else 0);
    }
    forall i | 0 <= i < |s.output|
      ensures var t := AfterTransfer(s, side, id, size).output;
              t[i].Diff() == (s.output[i].Diff() + (if side.Output? && i == id then size else 0)) % TWO64
    {
      AddedDiff(s.output[i], if side.Output? && i == id then size else 0);
    }
  }

  lemma AddedDiff(c: Channel, size: nat)
    ensures c.Add(size).Diff() == (c.Diff() + size) % TWO64
    ensures c.Diff() == (c.Diff() + 0) % TWO64
  {
    ModAdd(c.total - c.prev, 0, TWO64);
    DiffAfterAdd(c.total, c.prev, c.Diff(), size, TWO64);
  }

  // ----------------------------------------------------------------- reports

  /** Two reports of one run are at least ten seconds apart, and none comes before `statusTick`. */
  ghost predicate Apart(ticks: seq<Tick>, statusTick: int) {
    && (forall i :: 0 <= i < |ticks| && ticks[i].reported ==> ticks[i].up >= statusTick)
    && (forall i, j :: 0 <= i < j < |ticks| && ticks[i].reported && ticks[j].reported
                       ==> ticks[j].up - ticks[i].up >= REPORT_DELAY_SEC)
  }

  lemma ApartCons(t: Tick, rest: seq<Tick>, statusTick: int)
    requires t.reported ==> t.up >= statusTick
    requires Apart(rest, if t.reported then t.up + REPORT_DELAY_SEC else statusTick)
    ensures Apart([t] + rest, statusTick)
  {
    var all := [t] + rest;
    forall i | 0 <= i < |all| && all[i].reported
      ensures all[i].up >= statusTick
    {
      if i > 0 {
        assert all[i] == rest[i - 1];
      }
    }
    forall i, j | 0 <= i < j < |all| && all[i].reported && all[j].reported
      ensures all[j].up - all[i].up >= REPORT_DELAY_SEC
    {
      assert all[j] == rest[j - 1];
      if i > 0 {
        assert all[i] == rest[i - 1];
      }
    }
  }

  /** However the status changes in between, and even if the clock goes back. */
  lemma {:induction false} ReportsApart(kind: Kind, s: State, events: seq<Event>)
    ensures Apart(Ticks(kind, s, events), s.statusTick)
    decreases |events|
  {
    hide SumDiff, Rates, Bps, Elapsed, CheckPoints, Apart, Transfer;
    if events != [] {
      var t := Next(kind, s, events[0]);
      ReportsApart(kind, t, events[1..]);
      var rest := Ticks(kind, t, events[1..]);
      if events[0].Ticked? {
        ApartCons(Conclude(kind, s, events[0].up), rest, s.statusTick);
      } else {
        assert [] + rest == rest;
      }
    } else {
      NoTicksApart(s.statusTick);
    }
  }

  lemma NoTicksApart(statusTick: int)
    ensures Apart([], statusTick)
  {
  }

  // ----------------------------------------------------------------- the stateful form

  class BaseStream {
    const kind: Kind
    var input: seq<Channel>
    var output: seq<Channel>
    var noDataPanicTick: int
    var statusTick: int
    var active: bool

    ghost function Current(): State
      reads this
    {
      State(input, output, noDataPanicTick, statusTick, active)
    }

    /** The state in which the main loop of `Exec` is entered. */
    constructor (kind: Kind, input: seq<Channel>, output: seq<Channel>, now: int)
      ensures this.kind == kind && Current() == Started(input, output, now)
    {
      this.kind := kind;
      this.input, this.output := input, output;
      noDataPanicTick, statusTick, active := 0, 0, false;
      new;
      ResetDataWait(now);
    }

    method ResetDataWait(now: int)
      modifies this
      ensures Current() == AfterReset(old(Current()), now)
    {
      noDataPanicTick := now + NO_DATA_PANIC_SEC;
      var i := 0;
      while i < |input|
        modifies this`input
        invariant i <= |input| == |old(input)|
        invariant forall j :: 0 <= j < |input| ==>
                    input[j] == if j < i then old(input)[j].UpdateCheckPoint() else old(input)[j]
      {
        input := input[i := input[i].UpdateCheckPoint()];
        i := i + 1;
      }
      assert input == CheckPoints(old(input));
      i := 0;
      while i < |output|
        modifies this`output
        invariant i <= |output| == |old(output)|
        invariant forall j :: 0 <= j < |output| ==>
                    output[j] == if j < i then old(output)[j].UpdateCheckPoint() else old(output)[j]
      {
        output := output[i := output[i].UpdateCheckPoint()];
        i := i + 1;
      }
      assert output == CheckPoints(old(output));
    }

    /** Called by every probe for every buffer. */
    method UpdateStats(side: Side, id: nat, size: nat)
      modifies this
      ensures Current() == AfterTransfer(old(Current()), side, id, size)
    {
      if side.Input? {
        if id < |input| {
          input := input[id := input[id].Add(size)];
        }
      } else {
        if id < |output| {
          output := output[id := output[id].Add(size)];
        }
      }
    }

    /** `resetAt` is what the clock shows if the tick moves the checkpoint. */
    method HandleMainTimerTick(up: int, resetAt: int) returns (t: Tick)
      modifies this
      ensures t == Conclude(kind, old(Current()), up)
      ensures Current() == AfterTick(kind, old(Current()), up, resetAt)
    {
      var diff := (NO_DATA_PANIC_SEC - noDataPanicTick + up + 1) % TWO64;
      var inBytes := RateInput(diff);
      var outBytes := RateOutput(diff);
      var checked, inputQuits, outputQuits, reported := false, false, false, false;
      var inBps, outBps := Bps(input), Bps(output);
      if up > noDataPanicTick {
        checked := true;
        if inBytes < MIN_DATA {
          inputQuits := kind != Player;
        }
        if outBytes < MIN_DATA && kind != Recorder {
          outputQuits := true;
        } else {
          ResetDataWait(resetAt);
        }
      }
      if active {
        if statusTick <= up {
          statusTick := up + REPORT_DELAY_SEC;
          reported := true;
        }
      }
      t := Tick(up, diff, inBytes, outBytes, inBps, outBps, checked, inputQuits, outputQuits, reported);
    }

    method RateInput(diff: nat) returns (bytes: nat)
      modifies this`input
      ensures bytes == SumDiff(old(input)) && input == Rates(old(input), diff)
    {
      bytes := 0;
      var i := 0;
      while i < |input|
        invariant i <= |input| == |old(input)|
        invariant forall j :: 0 <= j < |input| ==>
                    input[j] == if j < i then old(input)[j].UpdateBps(diff) else old(input)[j]
        invariant bytes == SumDiff(old(input)[..i])
      {
        assert old(input)[..i + 1][..i] == old(input)[..i];
        var d := input[i].Diff();
        input := input[i := input[i].UpdateBps(diff)];
        bytes := (bytes + d) % TWO64;
        i := i + 1;
      }
      assert old(input)[..i] == old(input);
      assert input == Rates(old(input), diff);
    }

    method RateOutput(diff: nat) returns (bytes: nat)
      modifies this`output
      ensures bytes == SumDiff(old(output)) && output == Rates(old(output), diff)
    {
      bytes := 0;
      var i := 0;
      while i < |output|
        invariant i <= |output| == |old(output)|
        invariant forall j :: 0 <= j < |output| ==>
                    output[j] == if j < i then old(output)[j].UpdateBps(diff) else old(output)[j]
        invariant bytes == SumDiff(old(output)[..i])
      {
        assert old(output)[..i + 1][..i] == old(output)[..i];
        var d := output[i].Diff();
        output := output[i := output[i].UpdateBps(diff)];
        bytes := (bytes + d) % TWO64;
        i := i + 1;
      }
      assert old(output)[..i] == old(output);
      assert output == Rates(old(output), diff);
    }
  }
}
