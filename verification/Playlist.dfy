/**
  The playlist source: a list of files turned into buffers of at most 4096 bytes,
  once or for ever.  The relay and the encoding stream share this behaviour.

  `Iteration` is one turn of the read loop, `NeedData` the whole callback and `Run`
  any number of callbacks.  The laws about runs are stated on these functions; the
  class at the end is the stateful form and is proved to compute them.
*/
module Playlist {
  import opened Arithmetic

  newtype byte = x: int | 0 <= x < 256

  const BUFFER_SIZE: nat := 4096

  /** One listed input: a path that cannot be opened, or a file with its bytes. */
  datatype Source = Missing | Readable(data: seq<byte>)

  datatype Config = Config(files: seq<Source>, loop: bool) {
    /** The next entry is taken without a bounds check, so a looping list must not be empty. */
    predicate Valid() {
      loop ==> files != []
    }
  }

  /** The file handle: no file, or the file at `index` with `offset` bytes already read. */
  datatype Handle = Closed | Open(index: nat, offset: nat)

  datatype State = State(file: Handle, pos: nat) {
    predicate Valid(cfg: Config) {
      && pos <= |cfg.files|
      && (file.Open? ==>
            && file.index + 1 == pos
            && cfg.files[file.index].Readable?
            && file.offset <= |cfg.files[file.index].data|)
    }
  }

  const INITIAL := State(Closed, 0)

  datatype Event = Buffer(data: seq<byte>) | Eos

  datatype Outcome = Return(event: Event, next: State) | Again(next: State)

  // ----------------------------------------------------------------- the code

  function OpenNext(cfg: Config, s: State): (t: State)
    requires cfg.Valid() && s.Valid(cfg) && s.file.Closed?
    ensures t.Valid(cfg)
    ensures t.file.Open? ==> t.file.offset == 0
  {
    if !cfg.loop && s.pos >= |cfg.files| then s
    else
      var p := if s.pos >= |cfg.files| then 0 else s.pos;
      match cfg.files[p]
      case Missing => State(Closed, p + 1)
      case Readable(_) => State(Open(p, 0), p + 1)
  }

  function Min(a: nat, b: nat): nat {
    if a <= b then a else b
  }

  /** One turn of `while (size == 0)`. */
  function Iteration(cfg: Config, s: State): (o: Outcome)
    requires cfg.Valid() && s.Valid(cfg)
    ensures o.next.Valid(cfg)
  {
    var t := if s.file.Closed? then OpenNext(cfg, s) else s;
    if t.file.Closed? then Return(Eos, t)
    else
      var data := cfg.files[t.file.index].data;
      var size := Min(BUFFER_SIZE, |data| - t.file.offset);
      if size == 0 then Again(t.(file := Closed))
      else Return(Buffer(data[t.file.offset..t.file.offset + size]),
                  t.(file := Open(t.file.index, t.file.offset + size)))
  }

  // ----------------------------------------------------------------- termination

  /** A file at which the read loop stops: it cannot be opened, or it has bytes. */
  predicate Stops(f: Source) {
    f.Missing? || f.data != []
  }

  /** The callback returns: a list played once, or a loop over at least one stopping file. */
  ghost predicate Productive(cfg: Config) {
    cfg.loop ==> exists i :: 0 <= i < |cfg.files| && Stops(cfg.files[i])
  }

  /** The first stopping file at or after `p`, or the length of the list. */
  function FirstStop(files: seq<Source>, p: nat): (k: nat)
    requires p <= |files|
    ensures p <= k <= |files|
    ensures k < |files| ==> Stops(files[k])
    ensures forall i :: p <= i < k ==> !Stops(files[i])
    decreases |files| - p
  {
    if p == |files| || Stops(files[p]) then p else FirstStop(files, p + 1)
  }

  /** Files left to skip: up to the end of the list, or cyclically up to the next stopping file. */
  function Distance(cfg: Config, p: nat): nat
    requires p <= |cfg.files|
  {
    if !cfg.loop then |cfg.files| - p
    else
      var k := FirstStop(cfg.files, p);
      if k < |cfg.files| then k - p else |cfg.files| - p + FirstStop(cfg.files, 0)
  }

  lemma DistanceStep(cfg: Config, p: nat)
    requires cfg.Valid() && Productive(cfg) && p <= |cfg.files|
    requires !cfg.loop ==> p < |cfg.files|
    ensures var q := if p == |cfg.files| then 0 else p;
            !Stops(cfg.files[q]) ==> Distance(cfg, q + 1) < Distance(cfg, p)
  {
    var q := if p == |cfg.files| then 0 else p;
    if cfg.loop && !Stops(cfg.files[q]) {
      var i :| 0 <= i < |cfg.files| && Stops(cfg.files[i]);
      assert FirstStop(cfg.files, 0) <= i;
      assert FirstStop(cfg.files, q) == FirstStop(cfg.files, q + 1);
    }
  }

  /** A turn that reads nothing moves strictly closer to a file that ends the loop. */
  lemma AgainGetsCloser(cfg: Config, s: State)
    requires cfg.Valid() && s.Valid(cfg) && Productive(cfg)
    requires Iteration(cfg, s).Again?
    ensures var t := Iteration(cfg, s).next;
            && Distance(cfg, t.pos) <= Distance(cfg, s.pos)
            && (s.file.Closed? ==> Distance(cfg, t.pos) < Distance(cfg, s.pos))
  {
    if s.file.Closed? {
      DistanceStep(cfg, s.pos);
    }
  }

  /** The whole callback, once the buffer has been allocated. */
  function NeedData(cfg: Config, s: State): (r: (Event, State))
    requires cfg.Valid() && s.Valid(cfg) && Productive(cfg)
    ensures r.1.Valid(cfg)
    decreases Distance(cfg, s.pos), s.file.Open?
  {
    match Iteration(cfg, s)
    case Return(e, t) => (e, t)
    case Again(t) => AgainGetsCloser(cfg, s); NeedData(cfg, t)
  }

  lemma FirstOpen(cfg: Config, s: State)
    requires cfg.Valid() && s.Valid(cfg)
    ensures s.file.Closed? ==>
              var t := OpenNext(cfg, s);
              Iteration(cfg, s) == if t.file.Closed? then Return(Eos, t) else Iteration(cfg, t)
  {
  }

  lemma TurnTowardsReturn(cfg: Config, s: State)
    requires cfg.Valid() && s.Valid(cfg) && Productive(cfg)
    ensures var o := Iteration(cfg, s);
            && NeedData(cfg, s) == (if o.Return? then (o.event, o.next) else NeedData(cfg, o.next))
            && (o.Again? ==>
                  && Distance(cfg, o.next.pos) <= Distance(cfg, s.pos)
                  && (s.file.Closed? ==> Distance(cfg, o.next.pos) < Distance(cfg, s.pos)))
  {
    if Iteration(cfg, s).Again? {
      AgainGetsCloser(cfg, s);
    }
  }

  /** The loop after `k` turns, staying put once it has returned. */
  function Turns(cfg: Config, s: State, k: nat): (o: Outcome)
    requires cfg.Valid() && s.Valid(cfg)
    ensures o.next.Valid(cfg)
    decreases k
  {
    if k == 0 then Again(s)
    else match Iteration(cfg, s)
         case Return(e, t) => Return(e, t)
         case Again(t) => Turns(cfg, t, k - 1)
  }

  lemma {:induction false} TurnsReachNeedData(cfg: Config, s: State) returns (k: nat)
    requires cfg.Valid() && s.Valid(cfg) && Productive(cfg)
    ensures Turns(cfg, s, k) == Return(NeedData(cfg, s).0, NeedData(cfg, s).1)
    decreases Distance(cfg, s.pos), s.file.Open?
  {
    match Iteration(cfg, s)
    case Return(e, t) =>
      k := 1;
    case Again(t) =>
      AgainGetsCloser(cfg, s);
      k := TurnsReachNeedData(cfg, t);
      k := k + 1;
  }

  lemma {:induction false} UnproductiveNeverReturns(cfg: Config, s: State, k: nat)
    requires cfg.Valid() && s.Valid(cfg) && !Productive(cfg)
    ensures Turns(cfg, s, k).Again?
    decreases k
  {
    if k > 0 {
      var t := if s.file.Closed? then OpenNext(cfg, s) else s;
      assert t.file.Open? && !Stops(cfg.files[t.file.index]);
      UnproductiveNeverReturns(cfg, Iteration(cfg, s).next, k - 1);
    }
  }

  /** The read loop ends exactly for the productive playlists, from every state. */
  lemma ReadLoopEndsIff(cfg: Config, s: State)
    requires cfg.Valid() && s.Valid(cfg)
    ensures (exists k: nat :: Turns(cfg, s, k).Return?) <==> Productive(cfg)
  {
    if Productive(cfg) {
      var k := TurnsReachNeedData(cfg, s);
      assert Turns(cfg, s, k).Return?;
    } else {
      forall k: nat
        ensures !Turns(cfg, s, k).Return?
      {
        UnproductiveNeverReturns(cfg, s, k);
      }
    }
  }

  // ----------------------------------------------------------------- runs

  /** One callback: without memory for the buffer it only signals end of stream. */
  function Call(cfg: Config, s: State, memory: bool): (r: (Event, State))
    requires cfg.Valid() && s.Valid(cfg) && Productive(cfg)
    ensures r.1.Valid(cfg)
  {
    if memory then NeedData(cfg, s) else (Eos, s)
  }

  /** A run of callbacks; `memory` says of each whether its buffer could be allocated. */
  function Run(cfg: Config, s: State, memory: seq<bool>): (r: (seq<Event>, State))
    requires cfg.Valid() && s.Valid(cfg) && Productive(cfg)
    ensures r.1.Valid(cfg) && |r.0| == |memory|
    decreases |memory|
  {
    if memory == [] then ([], s)
    else
      var call := Call(cfg, s, memory[0]);
      var rest := Run(cfg, call.1, memory[1..]);
      ([call.0] + rest.0, rest.1)
  }

  function Content(files: seq<Source>): seq<byte> {
    if files == [] then []
    else (if files[0].Readable? then files[0].data else []) + Content(files[1..])
  }

  function Pushed(events: seq<Event>): seq<byte> {
    if events == [] then []
    else (if events[0].Buffer? then events[0].data else []) + Pushed(events[1..])
  }

  /** What this pass over the list still has to deliver. */
  function Pending(cfg: Config, s: State): seq<byte>
    requires s.Valid(cfg)
  {
    (if s.file.Open? then cfg.files[s.file.index].data[s.file.offset..] else [])
    + Content(cfg.files[s.pos..])
  }

  function Repeat(s: seq<byte>, k: nat): seq<byte> {
    if k == 0 then [] else s + Repeat(s, k - 1)
  }

  lemma {:induction false} RepeatAdd(s: seq<byte>, a: nat, b: nat)
    ensures Repeat(s, a) + Repeat(s, b) == Repeat(s, a + b)
  {
    if a == 0 {
    } else {
      RepeatAdd(s, a - 1, b);
      assert Repeat(s, a) + Repeat(s, b) == s + (Repeat(s, a - 1) + Repeat(s, b));
    }
  }

  function Bytes(e: Event): seq<byte> {
    if e.Buffer? then e.data else []
  }

  /**
    Getting from `s` to `t` hands over `out`: what `s` owed, with `laps` further passes, is `out`
    followed by what `t` owes.  Without looping no pass is added.
  */
  ghost predicate Delivers(cfg: Config, s: State, laps: nat, out: seq<byte>, t: State)
    requires s.Valid(cfg) && t.Valid(cfg)
  {
    && (!cfg.loop ==> laps == 0)
    && Pending(cfg, s) + Repeat(Content(cfg.files), laps) == out + Pending(cfg, t)
  }

  lemma DeliversNothing(cfg: Config, s: State)
    requires s.Valid(cfg)
    ensures Delivers(cfg, s, 0, [], s)
  {
    assert Pending(cfg, s) + [] == [] + Pending(cfg, s);
  }

  lemma Chain(p0: seq<byte>, p1: seq<byte>, p2: seq<byte>, out1: seq<byte>, out2: seq<byte>,
              ra: seq<byte>, rb: seq<byte>)
    requires p0 + ra == out1 + p1
    requires p1 + rb == out2 + p2
    ensures p0 + (ra + rb) == (out1 + out2) + p2
  {
    assert p0 + (ra + rb) == (p0 + ra) + rb == (out1 + p1) + rb == out1 + (p1 + rb) == (out1 + out2) + p2;
  }

  lemma DeliversCompose(cfg: Config, s: State, a: nat, out1: seq<byte>, t: State, b: nat, out2: seq<byte>, u: State)
    requires s.Valid(cfg) && t.Valid(cfg) && u.Valid(cfg)
    requires Delivers(cfg, s, a, out1, t) && Delivers(cfg, t, b, out2, u)
    ensures Delivers(cfg, s, a + b, out1 + out2, u)
  {
    var c := Content(cfg.files);
    RepeatAdd(c, a, b);
    Chain(Pending(cfg, s), Pending(cfg, t), Pending(cfg, u), out1, out2, Repeat(c, a), Repeat(c, b));
  }

  /** Opening a file delivers nothing and, in a loop, adds a pass when the list is exhausted. */
  lemma OpenNextDelivers(cfg: Config, s: State) returns (laps: nat)
    requires cfg.Valid() && s.Valid(cfg) && s.file.Closed?
    ensures Delivers(cfg, s, laps, [], OpenNext(cfg, s))
  {
    var n := |cfg.files|;
    laps := if cfg.loop && s.pos == n then 1 else 0;
    assert cfg.files[0..] == cfg.files;
    assert Repeat(Content(cfg.files), 1) == Content(cfg.files);
    if cfg.loop || s.pos < n {
      var p := if s.pos == n then 0 else s.pos;
      assert cfg.files[p..][1..] == cfg.files[p + 1..];
      assert Content(cfg.files[p..]) == Bytes(Buffer(if cfg.files[p].Readable? then cfg.files[p].data else []))
                                        + Content(cfg.files[p + 1..]);
    }
  }

  /** Reading splits the unread rest of the open file. */
  lemma ReadDelivers(cfg: Config, t: State)
    requires cfg.Valid() && t.Valid(cfg) && t.file.Open?
    ensures var o := Iteration(cfg, t);
            Delivers(cfg, t, 0, if o.Return? then Bytes(o.event) else [], o.next)
  {
    hide Content;
    var data := cfg.files[t.file.index].data;
    var size := Min(BUFFER_SIZE, |data| - t.file.offset);
    var unread := data[t.file.offset..];
    if size > 0 {
      var mid := t.file.offset + size;
      assert unread == data[t.file.offset..mid] + data[mid..];
      SplitFront(unread, data[t.file.offset..mid], data[mid..], Content(cfg.files[t.pos..]));
    }
  }

  lemma SplitFront(whole: seq<byte>, front: seq<byte>, back: seq<byte>, rest: seq<byte>)
    requires whole == front + back
    ensures (whole + rest) + [] == front + (back + rest)
  {
  }

  lemma IterationDelivers(cfg: Config, s: State) returns (laps: nat)
    requires cfg.Valid() && s.Valid(cfg)
    ensures var o := Iteration(cfg, s);
            Delivers(cfg, s, laps, if o.Return? then Bytes(o.event) else [], o.next)
  {
    hide Delivers;
    if s.file.Open? {
      laps := 0;
      ReadDelivers(cfg, s);
    } else {
      laps := OpenNextDelivers(cfg, s);
      var t := OpenNext(cfg, s);
      if t.file.Open? {
        ReadDelivers(cfg, t);
        var o := Iteration(cfg, s);
        assert o == Iteration(cfg, t);
        var out := if o.Return? then Bytes(o.event) else [];
        DeliversCompose(cfg, s, laps, [], t, 0, out, o.next);
        assert [] + out == out;
      }
    }
  }

  lemma {:induction false} NeedDataDelivers(cfg: Config, s: State) returns (laps: nat, out: seq<byte>, u: State)
    requires cfg.Valid() && s.Valid(cfg) && Productive(cfg)
    ensures out == Bytes(NeedData(cfg, s).0) && u == NeedData(cfg, s).1
    ensures Delivers(cfg, s, laps, out, u)
    decreases Distance(cfg, s.pos), s.file.Open?
  {
    hide Delivers, Content, FirstStop;
    laps := IterationDelivers(cfg, s);
    match Iteration(cfg, s)
    case Return(e, t) =>
      out, u := Bytes(e), t;
    case Again(t) =>
      AgainGetsCloser(cfg, s);
      var more, rest, v := NeedDataDelivers(cfg, t);
      DeliversCompose(cfg, s, laps, [], t, more, rest, v);
      out, u := [] + rest, v;
      laps := laps + more;
  }

  lemma PushedFirst(e: Event, es: seq<Event>)
    ensures Pushed([e] + es) == Bytes(e) + Pushed(es)
  {
    assert ([e] + es)[1..] == es;
  }

  lemma CallDelivers(cfg: Config, s: State, memory: bool) returns (laps: nat)
    requires cfg.Valid() && s.Valid(cfg) && Productive(cfg)
    ensures var (e, t) := Call(cfg, s, memory); Delivers(cfg, s, laps, Bytes(e), t)
  {
    if memory {
      var out, t;
      laps, out, t := NeedDataDelivers(cfg, s);
    } else {
      laps := 0;
      DeliversNothing(cfg, s);
    }
  }

  /**
    Conservation over every run: nothing is lost, repeated or reordered.  `laps` counts the
    passes begun during the run.
  */
  lemma {:induction false} RunDelivers(cfg: Config, s: State, memory: seq<bool>) returns (laps: nat)
    requires cfg.Valid() && s.Valid(cfg) && Productive(cfg)
    ensures var (es, t) := Run(cfg, s, memory); Delivers(cfg, s, laps, Pushed(es), t)
    decreases |memory|
  {
    hide Delivers, Call, Productive;
    if memory == [] {
      laps := 0;
      DeliversNothing(cfg, s);
    } else {
      var e, t := Call(cfg, s, memory[0]).0, Call(cfg, s, memory[0]).1;
      var es, u := Run(cfg, t, memory[1..]).0, Run(cfg, t, memory[1..]).1;
      var laps1 := CallDelivers(cfg, s, memory[0]);
      var laps2 := RunDelivers(cfg, t, memory[1..]);
      DeliversCompose(cfg, s, laps1, Bytes(e), t, laps2, Pushed(es), u);
      PushedFirst(e, es);
      laps := laps1 + laps2;
    }
  }

  lemma PendingInitially(cfg: Config)
    ensures Pending(cfg, INITIAL) == Content(cfg.files)
  {
    assert cfg.files[0..] == cfg.files;
  }

  /** Played once: the bytes pushed, the unread rest and the files to come are all the files in order. */
  lemma PlayedOnceConservesContent(cfg: Config, memory: seq<bool>)
    requires cfg.Valid() && !cfg.loop
    ensures var (es, t) := Run(cfg, INITIAL, memory);
            Pushed(es) + Pending(cfg, t) == Content(cfg.files)
  {
    var laps := RunDelivers(cfg, INITIAL, memory);
    PendingInitially(cfg);
  }

  lemma ModMinus(i: nat, n: nat)
    requires 0 < n <= i
    ensures (i - n) % n == i % n
  {
    Congruent(i, i - n, n, 1);
  }

  lemma {:induction false} RepeatIndex(s: seq<byte>, k: nat, i: nat)
    requires i < |Repeat(s, k)|
    ensures s != [] && Repeat(s, k)[i] == s[i % |s|]
  {
    if k == 0 {
    } else if i < |s| {
    } else {
      RepeatIndex(s, k - 1, i - |s|);
      ModMinus(i, |s|);
    }
  }

  /** Played in a loop: byte number `i` pushed is byte `i` of the endless repetition of the files. */
  lemma LoopPushesTheRepetition(cfg: Config, memory: seq<bool>, i: nat)
    requires cfg.Valid() && cfg.loop && Productive(cfg)
    requires i < |Pushed(Run(cfg, INITIAL, memory).0)|
    ensures Content(cfg.files) != []
    ensures Pushed(Run(cfg, INITIAL, memory).0)[i] == Content(cfg.files)[i % |Content(cfg.files)|]
  {
    var c := Content(cfg.files);
    var (es, t) := Run(cfg, INITIAL, memory);
    var laps := RunDelivers(cfg, INITIAL, memory);
    PendingInitially(cfg);
    var all := Repeat(c, laps + 1);
    assert all == Pushed(es) + Pending(cfg, t);
    assert all[i] == Pushed(es)[i];
    RepeatIndex(c, laps + 1, i);
  }

  // ----------------------------------------------------------------- single events

  /** `data` is a contiguous piece of one listed file. */
  ghost predicate WithinOneFile(files: seq<Source>, data: seq<byte>) {
    exists i, o: nat :: 0 <= i < |files| && PieceOf(files[i], o, data)
  }

  predicate PieceOf(f: Source, offset: nat, data: seq<byte>) {
    && f.Readable?
    && offset + |data| <= |f.data|
    && f.data[offset..offset + |data|] == data
    && (|data| < 4096 ==> offset + |data| == |f.data|)
  }

  ghost predicate GoodEvent(cfg: Config, e: Event) {
    e.Buffer? ==> 1 <= |e.data| <= 4096 && WithinOneFile(cfg.files, e.data)
  }

  lemma {:induction false} NeedDataEvent(cfg: Config, s: State)
    requires cfg.Valid() && s.Valid(cfg) && Productive(cfg)
    ensures GoodEvent(cfg, NeedData(cfg, s).0)
    ensures NeedData(cfg, s).0.Eos? ==>
              && NeedData(cfg, s).1.file.Closed?
              && var p := NeedData(cfg, s).1.pos;
                 (!cfg.loop && p == |cfg.files|) || (p > 0 && cfg.files[p - 1].Missing?)
    decreases Distance(cfg, s.pos), s.file.Open?
  {
    var o := Iteration(cfg, s);
    if o.Again? {
      AgainGetsCloser(cfg, s);
      NeedDataEvent(cfg, o.next);
    } else if o.event.Buffer? {
      var t := if s.file.Closed? then OpenNext(cfg, s) else s;
      var data := cfg.files[t.file.index].data;
      var n := |o.event.data|;
      assert PieceOf(cfg.files[t.file.index], t.file.offset, o.event.data);
    }
  }

  /** Every buffer of every run is non-empty and lies within one file, which it ends unless it has 4096 bytes. */
  lemma {:induction false} BuffersAreFilePieces(cfg: Config, s: State, memory: seq<bool>)
    requires cfg.Valid() && s.Valid(cfg) && Productive(cfg)
    ensures forall e :: e in Run(cfg, s, memory).0 ==> GoodEvent(cfg, e)
    decreases |memory|
  {
    if memory == [] {
    } else {
      var (e, t) := Call(cfg, s, memory[0]);
      NeedDataEvent(cfg, s);
      BuffersAreFilePieces(cfg, t, memory[1..]);
    }
  }

  predicate AllReadable(files: seq<Source>) {
    forall i :: 0 <= i < |files| ==> files[i].Readable?
  }

  /** In a loop over readable files, one of them not empty, end of stream is never signalled. */
  lemma {:induction false} LoopNeverEnds(cfg: Config, s: State, memory: seq<bool>)
    requires cfg.Valid() && s.Valid(cfg) && Productive(cfg) && cfg.loop
    requires AllReadable(cfg.files) && forall i :: 0 <= i < |memory| ==> memory[i]
    ensures Eos !in Run(cfg, s, memory).0
    decreases |memory|
  {
    if memory == [] {
    } else {
      NeedDataEvent(cfg, s);
      var (e, t) := NeedData(cfg, s);
      LoopNeverEnds(cfg, t, memory[1..]);
    }
  }

  // ----------------------------------------------------------------- end of stream, played once

  function AllTrue(n: nat): seq<bool> {
    seq(n, _ => true)
  }

  /** Bytes and files still ahead; every callback that delivers or skips something lowers it. */
  function Ahead(cfg: Config, s: State): nat
    requires s.Valid(cfg)
  {
    |Pending(cfg, s)| + |cfg.files| - s.pos
  }

  lemma NeedDataHandsOver(cfg: Config, s: State)
    requires cfg.Valid() && s.Valid(cfg) && !cfg.loop
    ensures var (e, t) := NeedData(cfg, s);
            && Pending(cfg, s) == Bytes(e) + Pending(cfg, t)
            && |Pending(cfg, s)| == |Bytes(e)| + |Pending(cfg, t)|
  {
    var laps, out, u := NeedDataDelivers(cfg, s);
    assert Pending(cfg, s) + [] == Pending(cfg, s);
  }

  lemma NeedDataLowersAhead(cfg: Config, s: State)
    requires cfg.Valid() && s.Valid(cfg) && !cfg.loop
    ensures var (e, t) := NeedData(cfg, s);
            && s.pos <= t.pos
            && (e.Buffer? || t.pos > s.pos ==> Ahead(cfg, t) < Ahead(cfg, s))
    decreases Distance(cfg, s.pos), s.file.Open?
  {
    NeedDataHandsOver(cfg, s);
    NeedDataEvent(cfg, s);
    var o := Iteration(cfg, s);
    if o.Again? {
      AgainGetsCloser(cfg, s);
      NeedDataLowersAhead(cfg, o.next);
    }
  }

  /** A callback never reads past an entry that cannot be opened without signalling end of stream there. */
  lemma {:induction false} NeedDataStopsAtMissing(cfg: Config, s: State, i: nat)
    requires cfg.Valid() && s.Valid(cfg) && !cfg.loop
    requires s.pos <= i < |cfg.files| && cfg.files[i].Missing?
    ensures var (e, t) := NeedData(cfg, s);
            t.pos <= i || (e == Eos && t == State(Closed, i + 1))
    ensures var (e, t) := NeedData(cfg, s); t.pos > s.pos || e.Buffer?
    decreases Distance(cfg, s.pos), s.file.Open?
  {
    var o := Iteration(cfg, s);
    if o.Again? {
      AgainGetsCloser(cfg, s);
      NeedDataStopsAtMissing(cfg, o.next, i);
    }
  }

  lemma {:induction false} RunReachesMissing(cfg: Config, s: State, i: nat) returns (n: nat)
    requires cfg.Valid() && s.Valid(cfg) && !cfg.loop
    requires s.pos <= i < |cfg.files| && cfg.files[i].Missing?
    ensures n > 0
    ensures var (es, t) := Run(cfg, s, AllTrue(n));
            es[n - 1] == Eos && t == State(Closed, i + 1)
    decreases Ahead(cfg, s)
  {
    hide NeedData, Run, AllTrue, Ahead;
    var (e, t) := NeedData(cfg, s);
    NeedDataStopsAtMissing(cfg, s, i);
    NeedDataLowersAhead(cfg, s);
    if t.pos > i {
      n := 1;
      RunOfOne(cfg, s);
    } else {
      n := RunReachesMissing(cfg, t, i);
      RunOfMore(cfg, s, n);
      n := n + 1;
    }
  }

  lemma RunStep(cfg: Config, s: State, first: bool, rest: seq<bool>)
    requires cfg.Valid() && s.Valid(cfg) && Productive(cfg)
    ensures var (e, t) := Call(cfg, s, first);
            var (es, u) := Run(cfg, t, rest);
            Run(cfg, s, [first] + rest) == ([e] + es, u)
    ensures Run(cfg, s, []) == ([], s)
  {
    hide NeedData, Productive;
    assert ([first] + rest)[1..] == rest;
  }

  lemma RunOfOne(cfg: Config, s: State)
    requires cfg.Valid() && s.Valid(cfg) && Productive(cfg)
    ensures Run(cfg, s, AllTrue(1)) == ([NeedData(cfg, s).0], NeedData(cfg, s).1)
  {
    hide NeedData, Productive, Run;
    var (e, t) := NeedData(cfg, s);
    RunStep(cfg, s, true, []);
    RunStep(cfg, t, true, []);
    assert AllTrue(1) == [true] + [];
    assert [e] + [] == [e];
  }

  lemma RunOfMore(cfg: Config, s: State, n: nat)
    requires cfg.Valid() && s.Valid(cfg) && Productive(cfg)
    ensures var (e, t) := NeedData(cfg, s);
            var (es, u) := Run(cfg, t, AllTrue(n));
            Run(cfg, s, AllTrue(n + 1)) == ([e] + es, u)
  {
    hide NeedData, Productive, Run;
    RunStep(cfg, s, true, AllTrue(n));
    assert AllTrue(n + 1) == [true] + AllTrue(n);
  }

  /** The last callback of the run had its buffer and signals end of stream while bytes are still undelivered. */
  ghost predicate EndsEarly(cfg: Config, memory: seq<bool>)
    requires cfg.Valid() && !cfg.loop
  {
    && memory != [] && memory[|memory| - 1]
    && var (es, t) := Run(cfg, INITIAL, memory); es[|memory| - 1] == Eos && Pending(cfg, t) != []
  }

  lemma {:induction false} LastEventOfRun(cfg: Config, s: State, memory: seq<bool>)
    requires cfg.Valid() && s.Valid(cfg) && !cfg.loop && memory != [] && memory[|memory| - 1]
    requires Run(cfg, s, memory).0[|memory| - 1] == Eos
    ensures var t := Run(cfg, s, memory).1;
            t.file.Closed? && (t.pos == |cfg.files| || (t.pos > 0 && cfg.files[t.pos - 1].Missing?))
    decreases |memory|
  {
    hide NeedData;
    if |memory| == 1 {
      NeedDataEvent(cfg, s);
    } else {
      LastEventOfRun(cfg, Call(cfg, s, memory[0]).1, memory[1..]);
    }
  }

  lemma {:induction false} NonEmptyContent(files: seq<Source>) returns (j: nat)
    requires Content(files) != []
    ensures j < |files| && files[j].Readable? && files[j].data != []
  {
    if files[0].Readable? && files[0].data != [] {
      j := 0;
    } else {
      j := NonEmptyContent(files[1..]);
      j := j + 1;
    }
  }

  lemma {:induction false} ContentOfNonEmpty(files: seq<Source>, j: nat)
    requires j < |files| && files[j].Readable? && files[j].data != []
    ensures Content(files) != []
  {
    if j > 0 {
      ContentOfNonEmpty(files[1..], j - 1);
    }
  }

  /** An entry that cannot be opened comes before a file with bytes. */
  ghost predicate MissingBeforeData(files: seq<Source>) {
    exists i, j :: 0 <= i < j < |files| && files[i].Missing? && files[j].Readable? && files[j].data != []
  }

  /**
    Played once, and whatever allocations fail: a callback that has its buffer can signal end of stream
    before everything is out exactly when an entry that cannot be opened comes before a file with bytes.
    It signals end of stream for such an entry, and the next callback goes on with the file after it.
  */
  lemma EndsEarlyIff(cfg: Config)
    requires cfg.Valid() && !cfg.loop
    ensures (exists memory :: EndsEarly(cfg, memory)) <==> MissingBeforeData(cfg.files)
  {
    hide NeedData, Run, Content;
    if memory :| EndsEarly(cfg, memory) {
      LastEventOfRun(cfg, INITIAL, memory);
      var t := Run(cfg, INITIAL, memory).1;
      var j := NonEmptyContent(cfg.files[t.pos..]);
      assert cfg.files[t.pos - 1].Missing? && cfg.files[t.pos + j].data != [];
    }
    if MissingBeforeData(cfg.files) {
      var i, j :| 0 <= i < j < |cfg.files| && cfg.files[i].Missing? && cfg.files[j].Readable?
                  && cfg.files[j].data != [];
      var n := RunReachesMissing(cfg, INITIAL, i);
      ContentOfNonEmpty(cfg.files[i + 1..], j - i - 1);
      assert EndsEarly(cfg, AllTrue(n));
    }
  }

  /** A callback without a buffer signals end of stream wherever the source is, and changes nothing else. */
  lemma NoMemoryEndsAnywhere(cfg: Config, memory: seq<bool>)
    requires cfg.Valid() && Productive(cfg)
    ensures var (es, t) := Run(cfg, INITIAL, memory);
            Run(cfg, INITIAL, memory + [false]) == (es + [Eos], t)
  {
    RunThenNoMemory(cfg, INITIAL, memory);
  }

  lemma {:induction false} RunThenNoMemory(cfg: Config, s: State, memory: seq<bool>)
    requires cfg.Valid() && s.Valid(cfg) && Productive(cfg)
    ensures var (es, t) := Run(cfg, s, memory);
            Run(cfg, s, memory + [false]) == (es + [Eos], t)
    decreases |memory|
  {
    hide NeedData, Productive, Run;
    if memory == [] {
      RunStep(cfg, s, false, []);
      assert [false] + [] == [] + [false] && [Eos] + [] == [] + [Eos];
    } else {
      var (e, t) := Call(cfg, s, memory[0]);
      var rest := memory[1..];
      RunThenNoMemory(cfg, t, rest);
      RunStep(cfg, s, memory[0], rest);
      RunStep(cfg, s, memory[0], rest + [false]);
      assert memory == [memory[0]] + rest;
      assert [memory[0]] + (rest + [false]) == memory + [false];
      assert [e] + (Run(cfg, t, rest).0 + [Eos]) == ([e] + Run(cfg, t, rest).0) + [Eos];
    }
  }

  // ----------------------------------------------------------------- end of stream in a loop

  /** The last callback of the run had its buffer and signals end of stream. */
  ghost predicate LoopEnds(cfg: Config, memory: seq<bool>)
    requires cfg.Valid() && Productive(cfg)
  {
    memory != [] && memory[|memory| - 1] && Run(cfg, INITIAL, memory).0[|memory| - 1] == Eos
  }

  lemma {:induction false} LoopEndsAtMissing(cfg: Config, s: State, memory: seq<bool>)
    requires cfg.Valid() && s.Valid(cfg) && Productive(cfg) && cfg.loop && memory != [] && memory[|memory| - 1]
    requires Run(cfg, s, memory).0[|memory| - 1] == Eos
    ensures !AllReadable(cfg.files)
    decreases |memory|
  {
    hide NeedData, Productive;
    if |memory| == 1 {
      NeedDataEvent(cfg, s);
    } else {
      LoopEndsAtMissing(cfg, Call(cfg, s, memory[0]).1, memory[1..]);
    }
  }

  /** Up to an entry that cannot be opened, a loop and the same list played once do the same. */
  lemma {:induction false} SameUntilMissing(cfg: Config, s: State, i: nat)
    requires cfg.Valid() && s.Valid(cfg) && Productive(cfg) && cfg.loop
    requires s.pos <= i < |cfg.files| && cfg.files[i].Missing?
    ensures NeedData(cfg, s) == NeedData(cfg.(loop := false), s)
    decreases |cfg.files| - s.pos, s.file.Open?
  {
    var once := cfg.(loop := false);
    assert Iteration(cfg, s) == Iteration(once, s);
    var o := Iteration(cfg, s);
    if o.Again? {
      AgainGetsCloser(cfg, s);
      AgainGetsCloser(once, s);
      AgainSkipsReadable(cfg, s);
      SameUntilMissing(cfg, o.next, i);
    }
  }

  lemma AgainSkipsReadable(cfg: Config, s: State)
    requires cfg.Valid() && s.Valid(cfg) && s.pos < |cfg.files| && Iteration(cfg, s).Again?
    ensures var t := Iteration(cfg, s).next;
            t.file.Closed? && if s.file.Open? then t.pos == s.pos else t.pos == s.pos + 1 && cfg.files[s.pos].Readable?
  {
  }

  lemma {:induction false} LoopReachesMissing(cfg: Config, s: State, i: nat) returns (n: nat)
    requires cfg.Valid() && s.Valid(cfg) && Productive(cfg) && cfg.loop
    requires s.pos <= i < |cfg.files| && cfg.files[i].Missing?
    ensures n > 0 && Run(cfg, s, AllTrue(n)).0[n - 1] == Eos
    decreases Ahead(cfg.(loop := false), s)
  {
    hide NeedData, Run, AllTrue, Ahead, Productive;
    var once := cfg.(loop := false);
    SameUntilMissing(cfg, s, i);
    var (e, t) := NeedData(cfg, s);
    NeedDataStopsAtMissing(once, s, i);
    NeedDataLowersAhead(once, s);
    if t.pos > i {
      n := 1;
      RunOfOne(cfg, s);
    } else {
      n := LoopReachesMissing(cfg, t, i);
      RunOfMore(cfg, s, n);
      n := n + 1;
    }
  }

  /** A loop can send end of stream with its buffer at hand exactly when some entry cannot be opened. */
  lemma LoopEndsIff(cfg: Config)
    requires cfg.Valid() && Productive(cfg) && cfg.loop
    ensures (exists memory :: LoopEnds(cfg, memory)) <==> !AllReadable(cfg.files)
  {
    hide NeedData, Run, AllTrue, Productive;
    if memory :| LoopEnds(cfg, memory) {
      LoopEndsAtMissing(cfg, INITIAL, memory);
    }
    if !AllReadable(cfg.files) {
      var i :| 0 <= i < |cfg.files| && !cfg.files[i].Readable?;
      var n := LoopReachesMissing(cfg, INITIAL, i);
      AllTrueIsTrue(n);
      assert LoopEnds(cfg, AllTrue(n));
    }
  }

  lemma AllTrueIsTrue(n: nat)
    requires n > 0
    ensures |AllTrue(n)| == n && AllTrue(n)[n - 1]
  {
  }

  lemma NothingPending(cfg: Config, s: State)
    requires s.Valid(cfg) && s.file.Closed? && s.pos == |cfg.files|
    ensures Pending(cfg, s) == []
  {
    assert cfg.files[s.pos..] == [];
  }

  lemma {:induction false} RunDrains(cfg: Config, s: State) returns (n: nat)
    requires cfg.Valid() && s.Valid(cfg) && !cfg.loop && AllReadable(cfg.files)
    ensures 0 < n <= |Pending(cfg, s)| + 1
    ensures var (es, t) := Run(cfg, s, AllTrue(n)); es[n - 1] == Eos && Pushed(es) == Pending(cfg, s)
    decreases Ahead(cfg, s), |cfg.files| - s.pos
  {
    hide NeedData, Content;
    var (e, t) := NeedData(cfg, s);
    NeedDataHandsOver(cfg, s);
    NeedDataEvent(cfg, s);
    NeedDataLowersAhead(cfg, s);
    if e.Eos? {
      n := 1;
      assert AllTrue(1)[1..] == [];
      PushedFirst(e, []);
      NothingPending(cfg, t);
    } else {
      n := RunDrains(cfg, t);
      n := n + 1;
      assert AllTrue(n)[1..] == AllTrue(n - 1);
      PushedFirst(e, Run(cfg, t, AllTrue(n - 1)).0);
    }
  }

  /** Played once over readable files, the stream does end, with every byte delivered in order. */
  lemma PlayedOnceDeliversEverything(cfg: Config) returns (n: nat)
    requires cfg.Valid() && !cfg.loop && AllReadable(cfg.files)
    ensures 0 < n <= |Content(cfg.files)| + 1
    ensures var (es, t) := Run(cfg, INITIAL, AllTrue(n)); es[n - 1] == Eos && Pushed(es) == Content(cfg.files)
  {
    assert cfg.files[0..] == cfg.files;
    n := RunDrains(cfg, INITIAL);
  }

  // ----------------------------------------------------------------- the stateful form

  class PlaylistStream {
    const config: Config
    var currentFile: Handle
    var currentPos: nat
    /** What has been handed to the application source so far. */
    var sent: seq<Event>
    /** Set when a push was refused and the stream asked to quit. */
    var quitRequested: bool

    ghost predicate Valid()
      reads this
    {
      config.Valid() && Current().Valid(config)
    }

    function Current(): State
      reads this
    {
      State(currentFile, currentPos)
    }

    constructor (config: Config)
      requires config.Valid()
      ensures Valid() && this.config == config && Current() == INITIAL && sent == [] && !quitRequested
    {
      this.config := config;
      currentFile, currentPos, sent, quitRequested := Closed, 0, [], false;
    }

    method OpenNextFile() returns (file: Handle)
      requires Valid() && currentFile.Closed?
      modifies this`currentPos
      ensures State(file, currentPos) == OpenNext(config, old(Current()))
    {
      if !config.loop {
        if currentPos >= |config.files| {
          return Closed;
        }
      }
      if currentPos >= |config.files| {
        currentPos := 0;
      }
      var input := config.files[currentPos];
      var index := currentPos;
      currentPos := currentPos + 1;
      match input {
        case Missing => file := Closed;
        case Readable(_) => file := Open(index, 0);
      }
    }

    /** `fread` of one buffer; the file is closed when there was nothing to read. */
    method ReadFile() returns (buffer: seq<byte>)
      requires Valid() && currentFile.Open?
      modifies this`currentFile
      ensures Iteration(config, old(Current()))
              == if buffer == [] then Again(Current()) else Return(Buffer(buffer), Current())
    {
      var data := config.files[currentFile.index].data;
      var size := Min(BUFFER_SIZE, |data| - currentFile.offset);
      buffer := data[currentFile.offset..currentFile.offset + size];
      currentFile := if size == 0 then Closed else Open(currentFile.index, currentFile.offset + size);
    }

    /** `turns` turns of the read loop, for any list: it may be far from its end. */
    method ReadTurns(turns: nat) returns (outcome: Outcome)
      requires Valid()
      modifies this`currentFile, this`currentPos
      ensures Valid() && outcome == Turns(config, old(Current()), turns) && Current() == outcome.next
    {
      hide Iteration;
      for k := 0 to turns
        invariant Valid()
        invariant Turns(config, old(Current()), turns) == Turns(config, Current(), turns - k)
      {
        FirstOpen(config, Current());
        if currentFile.Closed? {
          currentFile := OpenNextFile();
        }
        if currentFile.Closed? {
          return Return(Eos, Current());
        }
        var buffer := ReadFile();
        if buffer != [] {
          return Return(Buffer(buffer), Current());
        }
      }
      outcome := Again(Current());
    }

    /**
      `memory`: the buffer could be allocated; `flowOk`: the application source took the buffer.  On a
      list that is not productive the callback does not return.
    */
    method HandleNeedData(memory: bool, flowOk: bool)
      requires Valid() && (memory ==> Productive(config))
      modifies this
      ensures Valid()
      ensures var (e, t) := if memory then NeedData(config, old(Current())) else (Eos, old(Current()));
              && sent == old(sent) + [e]
              && Current() == t
              && quitRequested == (old(quitRequested) || (e.Buffer? && !flowOk))
    {
      if !memory {
        sent := sent + [Eos];
        return;
      }
      hide NeedData, Distance, Productive, Iteration;
      var buffer: seq<byte> := [];
      while buffer == []
        invariant Valid() && sent == old(sent) && quitRequested == old(quitRequested)
        invariant NeedData(config, old(Current()))
                  == if buffer == [] then NeedData(config, Current()) else (Buffer(buffer), Current())
        decreases buffer == [], Distance(config, currentPos), currentFile.Open?
      {
        TurnTowardsReturn(config, Current());
        FirstOpen(config, Current());
        if currentFile.Closed? {
          currentFile := OpenNextFile();
        }
        if currentFile.Closed? {
          sent := sent + [Eos];
          return;
        }
        buffer := ReadFile();
      }
      sent := sent + [Buffer(buffer)];
      if !flowOk {
        quitRequested := true;
      }
    }
  }
}
