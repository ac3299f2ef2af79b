/**
  The per-pad probes: the consistency flags each one keeps from the events it sees, and the count of
  elements that have come to the end of their stream.
*/
module Probes {

  /** The events a probe distinguishes; `serialized` is a property of the event's type. */
  datatype EventType = FlushStart | FlushStop | StreamStart | Caps | Segment | Eos | Seek(flush: bool) | Other

  datatype Event = Event(kind: EventType, serialized: bool)

  datatype Consistency = Consistency(segment: bool, eos: bool, expectFlush: bool, flushing: bool,
                                     sawStreamStart: bool, sawSerializedEvent: bool)

  const UNSEEN := Consistency(false, true, false, false, false, false)

  /** A probe on a source pad and one on a sink pad look at different events. */
  datatype Direction = SourcePad | SinkPad

  function AfterSource(c: Consistency, e: Event): Consistency {
    var d :=
      match e.kind
      case FlushStart => c.(flushing := true)
      case FlushStop => c.(flushing := false, expectFlush := false)
      case StreamStart => c.(sawStreamStart := true)
      case Segment => c.(segment := true, eos := false)
      case Eos => c.(eos := true, segment := false)
      case _ => c;
    if e.serialized then d.(sawSerializedEvent := true) else d
  }

  function AfterSink(c: Consistency, e: Event): Consistency {
    match e.kind
    case Seek(flush) => c.(expectFlush := flush)
    case Segment => c.(segment := true, eos := false)
    case Eos => c.(eos := true, segment := false)
    case _ => c
  }

  function After(direction: Direction, c: Consistency, e: Event): Consistency {
    if direction.SourcePad? then AfterSource(c, e) else AfterSink(c, e)
  }

  function AfterAll(direction: Direction, trace: seq<Event>): Consistency {
    if trace == [] then UNSEEN else After(direction, AfterAll(direction, trace[..|trace| - 1]), trace[|trace| - 1])
  }

  lemma AfterAllAppend(direction: Direction, trace: seq<Event>, e: Event)
    ensures AfterAll(direction, trace + [e]) == After(direction, AfterAll(direction, trace), e)
  {
    hide After;
    assert (trace + [e])[..|trace|] == trace;
  }

  // ----------------------------------------------------------------- what the flags mean

  /** No SEGMENT has come since the last EOS, or since the probe was set up. */
  ghost predicate Ended(trace: seq<Event>) {
    forall i :: 0 <= i < |trace| && trace[i].kind.Segment? ==>
      exists j :: i < j < |trace| && trace[j].kind.Eos?
  }

  /** A FLUSH_START no FLUSH_STOP has followed. */
  ghost predicate Flushing(trace: seq<Event>) {
    exists i :: 0 <= i < |trace| && trace[i].kind.FlushStart?
                && forall j :: i < j < |trace| ==> !trace[j].kind.FlushStop?
  }

  /** The last SEEK asked for a flush. */
  ghost predicate FlushSought(trace: seq<Event>) {
    exists i :: 0 <= i < |trace| && trace[i].kind == Seek(true)
                && forall j :: i < j < |trace| ==> !trace[j].kind.Seek?
  }

  lemma EndedAppend(trace: seq<Event>, e: Event)
    ensures Ended(trace + [e]) <==> e.kind.Eos? || (Ended(trace) && !e.kind.Segment?)
  {
    var all := trace + [e];
    var n := |trace|;
    if e.kind.Eos? {
      forall i | 0 <= i < |all| && all[i].kind.Segment?
        ensures exists j :: i < j < |all| && all[j].kind.Eos?
      {
        assert all[n].kind.Eos?;
      }
    } else if e.kind.Segment? {
      assert all[n].kind.Segment?;
    } else {
      if Ended(trace) {
        forall i | 0 <= i < |all| && all[i].kind.Segment?
          ensures exists j :: i < j < |all| && all[j].kind.Eos?
        {
          assert trace[i].kind.Segment?;
          var j :| i < j < |trace| && trace[j].kind.Eos?;
          assert all[j].kind.Eos?;
        }
      }
      if Ended(all) {
        forall i | 0 <= i < |trace| && trace[i].kind.Segment?
          ensures exists j :: i < j < |trace| && trace[j].kind.Eos?
        {
          assert all[i].kind.Segment?;
          var j :| i < j < |all| && all[j].kind.Eos?;
          assert trace[j].kind.Eos?;
        }
      }
    }
  }

  lemma FlushingAppend(trace: seq<Event>, e: Event)
    ensures Flushing(trace + [e]) <==> e.kind.FlushStart? || (Flushing(trace) && !e.kind.FlushStop?)
  {
    var all := trace + [e];
    var n := |trace|;
    if e.kind.FlushStart? {
      assert all[n].kind.FlushStart?;
    } else if Flushing(trace) && !e.kind.FlushStop? {
      var i :| 0 <= i < |trace| && trace[i].kind.FlushStart? && forall j :: i < j < |trace| ==> !trace[j].kind.FlushStop?;
      assert all[i].kind.FlushStart?;
    }
    if Flushing(all) && !e.kind.FlushStart? {
      var i :| 0 <= i < |all| && all[i].kind.FlushStart? && forall j :: i < j < |all| ==> !all[j].kind.FlushStop?;
      assert i < n && trace[i].kind.FlushStart? && !all[n].kind.FlushStop?;
      forall j | i < j < |trace|
        ensures !trace[j].kind.FlushStop?
      {
        assert all[j] == trace[j];
      }
    }
  }

  lemma FlushSoughtAppend(trace: seq<Event>, e: Event)
    ensures FlushSought(trace + [e]) <==> e.kind == Seek(true) || (FlushSought(trace) && !e.kind.Seek?)
  {
    var all := trace + [e];
    var n := |trace|;
    if e.kind == Seek(true) {
      assert all[n].kind == Seek(true);
    } else if FlushSought(trace) && !e.kind.Seek? {
      var i :| 0 <= i < |trace| && trace[i].kind == Seek(true) && forall j :: i < j < |trace| ==> !trace[j].kind.Seek?;
      assert all[i].kind == Seek(true);
    }
    if FlushSought(all) && e.kind != Seek(true) {
      var i :| 0 <= i < |all| && all[i].kind == Seek(true) && forall j :: i < j < |all| ==> !all[j].kind.Seek?;
      assert i < n && trace[i].kind == Seek(true) && !all[n].kind.Seek?;
      forall j | i < j < |trace|
        ensures !trace[j].kind.Seek?
      {
        assert all[j] == trace[j];
      }
    }
  }

  /** How one event changes the two flags. */
  predicate EosMoves(c: Consistency, e: Event, d: Consistency) {
    && (d.eos <==> e.kind.Eos? || (c.eos && !e.kind.Segment?))
    && (d.segment <==> e.kind.Segment? || (c.segment && !e.kind.Eos?))
  }

  lemma SourceMoves(c: Consistency, e: Event)
    ensures EosMoves(c, e, AfterSource(c, e))
  {
  }

  lemma SinkMoves(c: Consistency, e: Event)
    ensures EosMoves(c, e, AfterSink(c, e))
  {
  }

  /** On every trace, for both kinds of pad: `eos` says the stream has ended, and `segment` the opposite. */
  lemma {:induction false} EosMeansEnded(direction: Direction, trace: seq<Event>)
    ensures AfterAll(direction, trace).eos <==> Ended(trace)
    ensures AfterAll(direction, trace).segment <==> !Ended(trace)
    decreases |trace|
  {
    hide Ended, AfterSource, AfterSink;
    if trace == [] {
      EndedAtStart();
    } else {
      var n := |trace| - 1;
      EosMeansEnded(direction, trace[..n]);
      SourceMoves(AfterAll(direction, trace[..n]), trace[n]);
      SinkMoves(AfterAll(direction, trace[..n]), trace[n]);
      EndedAppend(trace[..n], trace[n]);
      assert trace[..n] + [trace[n]] == trace;
    }
  }

  lemma EndedAtStart()
    ensures Ended([])
  {
  }

  predicate Saw(trace: seq<Event>, what: Event -> bool) {
    exists i :: 0 <= i < |trace| && what(trace[i])
  }

  lemma SawAppend(trace: seq<Event>, e: Event, what: Event -> bool)
    ensures Saw(trace + [e], what) <==> Saw(trace, what) || what(e)
  {
    var all := trace + [e];
    if Saw(trace, what) {
      var i :| 0 <= i < |trace| && what(trace[i]);
      assert what(all[i]);
    }
    if what(e) {
      assert what(all[|trace|]);
    }
  }

  predicate IsStreamStart(e: Event) {
    e.kind.StreamStart?
  }

  predicate IsSerialized(e: Event) {
    e.serialized
  }

  /** The other flags of a source pad: it never expects a flush, since only a sink pad's probe sees the seek. */
  lemma {:induction false} SourceFlags(trace: seq<Event>)
    ensures var c := AfterAll(SourcePad, trace);
            && (c.flushing <==> Flushing(trace))
            && !c.expectFlush
            && (c.sawStreamStart <==> Saw(trace, IsStreamStart))
            && (c.sawSerializedEvent <==> Saw(trace, IsSerialized))
    decreases |trace|
  {
    hide Flushing, Saw, AfterAll;
    if trace == [] {
      SourceFlagsAtStart();
    } else {
      var n := |trace| - 1;
      var before, e := trace[..n], trace[n];
      SourceFlags(before);
      AfterAllAppend(SourcePad, before, e);
      FlushingAppend(before, e);
      SawAppend(before, e, IsStreamStart);
      SawAppend(before, e, IsSerialized);
      assert before + [e] == trace;
    }
  }

  lemma SourceFlagsAtStart()
    ensures AfterAll(SourcePad, []) == UNSEEN && !Flushing([])
    ensures !Saw([], IsStreamStart) && !Saw([], IsSerialized)
  {
  }

  /** The other flags of a sink pad: it never sees a flush begin. */
  lemma {:induction false} SinkFlags(trace: seq<Event>)
    ensures var c := AfterAll(SinkPad, trace);
            (c.expectFlush <==> FlushSought(trace)) && !c.flushing && !c.sawStreamStart && !c.sawSerializedEvent
    decreases |trace|
  {
    hide FlushSought;
    if trace == [] {
      NothingSoughtAtStart();
    } else {
      var n := |trace| - 1;
      SinkFlags(trace[..n]);
      FlushSoughtAppend(trace[..n], trace[n]);
      assert trace[..n] + [trace[n]] == trace;
    }
  }

  lemma NothingSoughtAtStart()
    ensures !FlushSought([])
  {
  }

  /**
    The warning about a SEGMENT inside a flushing seek needs both flags, and no probe ever has both: the
    one on a source pad misses the seek, the one on a sink pad misses the flush.
  */
  lemma FlushingSeekIsNeverSeen(direction: Direction, trace: seq<Event>)
    ensures var c := AfterAll(direction, trace); !(c.expectFlush && c.flushing)
  {
    SourceFlags(trace);
    SinkFlags(trace);
  }

  // ----------------------------------------------------------------- the stateful form

  class Probe {
    const id: nat
    const direction: Direction
    var consistency: Consistency
    ghost var trace: seq<Event>

    ghost predicate Valid()
      reads this
    {
      consistency == AfterAll(direction, trace)
    }

    constructor (id: nat, direction: Direction)
      ensures this.id == id && this.direction == direction && Valid() && trace == []
    {
      this.id, this.direction := id, direction;
      consistency, trace := UNSEEN, [];
    }

    /** The branch of `source_callback_probe_buffer` and `sink_callback_probe_buffer` for events. */
    method HandleEvent(e: Event)
      requires Valid()
      modifies this
      ensures Valid() && trace == old(trace) + [e]
    {
      hide AfterAll;
      var c := consistency;
      if direction.SourcePad? {
        if e.kind.FlushStart? {
          c := c.(flushing := true);
        } else if e.kind.FlushStop? {
          c := c.(flushing := false, expectFlush := false);
        } else if e.kind.StreamStart? {
          c := c.(sawStreamStart := true);
        } else if e.kind.Segment? {
          c := c.(segment := true, eos := false);
        } else if e.kind.Eos? {
          c := c.(eos := true, segment := false);
        }
        if e.serialized {
          c := c.(sawSerializedEvent := true);
        }
      } else {
        if e.kind.Seek? {
          c := c.(expectFlush := e.kind.flush);
        } else if e.kind.Segment? {
          c := c.(segment := true, eos := false);
        } else if e.kind.Eos? {
          c := c.(eos := true, segment := false);
        }
      }
      assert c == After(direction, consistency, e);
      AfterAllAppend(direction, trace, e);
      consistency := c;
      trace := trace + [e];
    }
  }

  // ----------------------------------------------------------------- counting ended elements

  /** The elements all of whose probes have seen their stream end. */
  ghost function EndedIds(probes: seq<Probe>): set<nat>
    reads probes
  {
    set p | p in probes && (forall q :: q in probes && q.id == p.id ==> Ended(q.trace)) :: p.id
  }

  /** What the first loop has collected from the probes before `k`. */
  ghost predicate Collected(statuses: map<nat, bool>, probes: seq<Probe>, k: nat)
    requires k <= |probes|
    reads probes
  {
    && (forall i :: 0 <= i < k ==> probes[i].id in statuses)
    && (forall id :: id in statuses ==> exists i :: 0 <= i < k && probes[i].id == id)
    && (forall id :: id in statuses ==>
          (statuses[id] <==> forall i :: 0 <= i < k && probes[i].id == id ==> probes[i].consistency.eos))
  }

  lemma CollectedIsEnded(statuses: map<nat, bool>, probes: seq<Probe>)
    requires Collected(statuses, probes, |probes|)
    requires forall p :: p in probes ==> p.Valid()
    ensures (set id | id in statuses && statuses[id]) == EndedIds(probes)
  {
    hide Ended;
    forall p | p in probes
      ensures p.consistency.eos <==> Ended(p.trace)
    {
      EosMeansEnded(p.direction, p.trace);
    }
    var counted := set id | id in statuses && statuses[id];
    forall id | id in counted
      ensures id in EndedIds(probes)
    {
      var i :| 0 <= i < |probes| && probes[i].id == id;
      assert probes[i] in probes;
    }
    forall id | id in EndedIds(probes)
      ensures id in counted
    {
      var p :| p in probes && p.id == id && forall q :: q in probes && q.id == p.id ==> Ended(q.trace);
      var i :| 0 <= i < |probes| && probes[i] == p;
      assert probes[i].id in statuses;
    }
  }

  method CollectStatuses(probes: seq<Probe>) returns (statuses: map<nat, bool>)
    ensures Collected(statuses, probes, |probes|)
  {
    statuses := map[];
    for k := 0 to |probes|
      invariant Collected(statuses, probes, k)
    {
      var id, eos := probes[k].id, probes[k].consistency.eos;
      if id in statuses {
        statuses := statuses[id := statuses[id] && eos];
      } else {
        statuses := statuses[id := eos];
      }
    }
  }

  method CountTrue(statuses: map<nat, bool>) returns (count: nat)
    ensures count == |set id | id in statuses && statuses[id]|
  {
    count := 0;
    var ids := statuses.Keys;
    ghost var seen: set<nat> := {};
    while ids != {}
      invariant ids <= statuses.Keys && seen == (set id | id in statuses.Keys - ids && statuses[id])
      invariant count == |seen|
      decreases ids
    {
      var id :| id in ids;
      if statuses[id] {
        count := count + 1;
        seen := seen + {id};
      }
      ids := ids - {id};
    }
    assert seen == (set id | id in statuses && statuses[id]);
  }

  /** `CountInputEOS` and `CountOutEOS`: the distinct elements whose every probe saw no SEGMENT after its last EOS. */
  method CountEos(probes: seq<Probe>) returns (count: nat)
    requires forall p :: p in probes ==> p.Valid()
    ensures count == |EndedIds(probes)|
  {
    var statuses := CollectStatuses(probes);
    CollectedIsEnded(statuses, probes);
    count := CountTrue(statuses);
  }
}
