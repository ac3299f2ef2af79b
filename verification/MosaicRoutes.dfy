/**
  What the mosaic pipeline is for: every decoded stream reaches every output, and a decoder's new pad is
  sent to the queue of its own input.
*/
module MosaicRoutes {
  import opened Wrappers
  import opened Decimal
  import opened Names
  import opened Elements
  import opened Geometry
  import opened Mosaic

  // ----------------------------------------------------------------- routes

  ghost predicate IsRoute(links: set<Link>, path: seq<Element>, from: Element, to: Element) {
    && path != [] && path[0] == from && path[|path| - 1] == to
    && forall k :: 0 < k < |path| ==> (path[k - 1], path[k]) in links
  }

  ghost predicate Leads(links: set<Link>, from: Element, to: Element) {
    exists path :: IsRoute(links, path, from, to)
  }

  lemma {:induction false} ChainMember(line: seq<Element>, k: nat)
    requires 0 < k < |line|
    ensures (line[k - 1], line[k]) in Chain(line)
    decreases |line|
  {
    var n := |line| - 1;
    if k < n {
      ChainMember(line[..n], k);
    }
  }

  lemma ChainLeads(links: set<Link>, line: seq<Element>)
    requires line != [] && Chain(line) <= links
    ensures Leads(links, line[0], line[|line| - 1])
  {
    hide Chain;
    forall k | 0 < k < |line|
      ensures (line[k - 1], line[k]) in links
    {
      ChainMember(line, k);
    }
    assert IsRoute(links, line, line[0], line[|line| - 1]);
  }

  lemma LeadsOn(links: set<Link>, a: Element, b: Element, c: Element)
    requires Leads(links, a, b) && Leads(links, b, c)
    ensures Leads(links, a, c)
  {
    var p :| IsRoute(links, p, a, b);
    var q :| IsRoute(links, q, b, c);
    var r := p + q[1..];
    forall k | 0 < k < |r|
      ensures (r[k - 1], r[k]) in links
    {
      if k < |p| {
        assert r[k - 1] == p[k - 1] && r[k] == p[k];
      } else {
        assert r[k] == q[k - |p| + 1];
        assert r[k - 1] == q[k - |p|];
      }
    }
    assert IsRoute(links, r, a, c);
  }

  lemma {:induction false} InputLinks(cfg: Config, n: nat, i: nat)
    requires i < n
    ensures InputPart(cfg, i).links <= InputParts(cfg, n).links
  {
    hide InputPart;
    if i < n - 1 {
      InputLinks(cfg, n - 1, i);
    }
  }

  lemma {:induction false} OutputLinks(cfg: Config, n: nat, o: nat)
    requires o < n <= |cfg.outputs|
    ensures OutputPart(cfg, o).links <= OutputParts(cfg, n).links
  {
    hide OutputPart;
    if o < n - 1 {
      OutputLinks(cfg, n - 1, o);
    }
  }

  lemma PartLinks(cfg: Config)
    ensures InputParts(cfg, cfg.inputs).links <= Pipeline(cfg).links
    ensures Trunks(cfg).links <= Pipeline(cfg).links
    ensures OutputParts(cfg, |cfg.outputs|).links <= Pipeline(cfg).links
  {
    hide InputParts, Trunks, OutputParts;
  }

  /** Where the video (audio) of output `o` leaves the pipeline. */
  function VideoEnd(cfg: Config, o: nat): Element
    requires o < |cfg.outputs|
  {
    Element(if cfg.outputs[o].Device? then VideoSink else Sink, o)
  }

  function AudioEnd(cfg: Config, o: nat): Element
    requires o < |cfg.outputs|
  {
    Element(if cfg.outputs[o].Device? then AudioSink else Sink, o)
  }

  lemma BranchLeads(cfg: Config, links: set<Link>, i: nat)
    requires InputPart(cfg, i).links <= links
    ensures cfg.video ==> Leads(links, Element(VideoQueue, i), Element(VideoMixer, 0))
    ensures cfg.audio ==> Leads(links, Element(AudioQueue, i), Element(AudioMixer, 0))
  {
    hide Chain, Leads;
    if cfg.video {
      ChainLeads(links, VideoBranch(i) + [Element(VideoMixer, 0)]);
    }
    if cfg.audio {
      ChainLeads(links, AudioBranch(i) + [Element(AudioMixer, 0)]);
    }
  }

  lemma TrunkLeads(cfg: Config, links: set<Link>)
    requires Trunks(cfg).links <= links
    ensures cfg.video ==> Leads(links, Element(VideoMixer, 0), Element(VideoTee, 0))
    ensures cfg.audio ==> Leads(links, Element(AudioMixer, 0), Element(AudioTee, 0))
  {
    hide Chain, Leads;
    if cfg.video {
      ChainLeads(links, [Element(VideoMixer, 0)] + VideoTrunk(cfg));
    }
    if cfg.audio {
      ChainLeads(links, [Element(AudioMixer, 0)] + AudioTrunk(cfg));
    }
  }

  lemma DeviceLeads(cfg: Config, links: set<Link>, o: nat)
    requires DevicePart(cfg, o).links <= links
    ensures cfg.video ==> Leads(links, Element(VideoTee, 0), Element(VideoSink, o))
    ensures cfg.audio ==> Leads(links, Element(AudioTee, 0), Element(AudioSink, o))
  {
    hide Chain, Leads;
    if cfg.video {
      ChainLeads(links, [Element(VideoTee, 0)] + DeviceVideo(o));
    }
    if cfg.audio {
      ChainLeads(links, [Element(AudioTee, 0)] + DeviceAudio(o));
    }
  }

  lemma NetworkLeads(cfg: Config, links: set<Link>, o: nat, rtp: bool)
    requires NetworkPart(cfg, o, rtp).links <= links
    ensures cfg.video ==> Leads(links, Element(VideoTee, 0), Element(Sink, o))
    ensures cfg.audio ==> Leads(links, Element(AudioTee, 0), Element(Sink, o))
  {
    hide Chain, NetworkVideo, NetworkAudio, NetworkAudioAdded;
    var mux, sink := Element(Muxer, o), Element(Sink, o);
    assert IsRoute(links, [mux, sink], mux, sink);
    hide Leads;
    if cfg.video {
      ChainLeads(links, [Element(VideoTee, 0)] + NetworkVideo(cfg, o, rtp) + [mux]);
      LeadsOn(links, Element(VideoTee, 0), mux, sink);
    }
    if cfg.audio {
      ChainLeads(links, [Element(AudioTee, 0)] + NetworkAudio(cfg, o, rtp) + [mux]);
      LeadsOn(links, Element(AudioTee, 0), mux, sink);
    }
  }

  lemma OutputLeads(cfg: Config, links: set<Link>, o: nat)
    requires o < |cfg.outputs| && OutputPart(cfg, o).links <= links
    ensures cfg.video ==> Leads(links, Element(VideoTee, 0), VideoEnd(cfg, o))
    ensures cfg.audio ==> Leads(links, Element(AudioTee, 0), AudioEnd(cfg, o))
  {
    hide Leads, DevicePart, NetworkPart;
    match cfg.outputs[o]
    case Device => DeviceLeads(cfg, links, o);
    case Network(rtp) => NetworkLeads(cfg, links, o, rtp);
  }

  /** The links lead from the queues of every input to the end of every output. */
  lemma EveryInputReachesEveryOutput(cfg: Config, i: nat, o: nat)
    requires i < cfg.inputs && o < |cfg.outputs|
    ensures var links := Pipeline(cfg).links;
            && (cfg.video ==> Leads(links, Element(VideoQueue, i), VideoEnd(cfg, o)))
            && (cfg.audio ==> Leads(links, Element(AudioQueue, i), AudioEnd(cfg, o)))
            && (Element(Source, i), Element(Decodebin, i)) in links
  {
    var links := Pipeline(cfg).links;
    hide Leads, Pipeline, InputParts, OutputParts, Trunks, OutputPart, VideoEnd, AudioEnd, Chain, VideoBranch, AudioBranch;
    PartLinks(cfg);
    InputLinks(cfg, cfg.inputs, i);
    OutputLinks(cfg, |cfg.outputs|, o);
    BranchLeads(cfg, links, i);
    TrunkLeads(cfg, links);
    OutputLeads(cfg, links, o);
    if cfg.video {
      LeadsOn(links, Element(VideoQueue, i), Element(VideoMixer, 0), Element(VideoTee, 0));
      LeadsOn(links, Element(VideoQueue, i), Element(VideoTee, 0), VideoEnd(cfg, o));
    }
    if cfg.audio {
      LeadsOn(links, Element(AudioQueue, i), Element(AudioMixer, 0), Element(AudioTee, 0));
      LeadsOn(links, Element(AudioQueue, i), Element(AudioTee, 0), AudioEnd(cfg, o));
    }
  }

  // ----------------------------------------------------------------- lookups by name

  function FindElement(es: seq<Element>, name: string): Option<Element> {
    if es == [] then None
    else if Name(es[0]) == name then Some(es[0])
    else FindElement(es[1..], name)
  }

  /** With distinct names, looking up an element's name finds that element. */
  lemma {:induction false} FindsByName(es: seq<Element>, e: Element)
    requires e in es
    ensures FindElement(es, Name(e)) == Some(e)
    decreases |es|
  {
    hide Name;
    if Name(es[0]) == Name(e) {
      NamesDiffer(es[0], e);
    } else {
      FindsByName(es[1..], e);
    }
  }

  lemma {:induction false} InputElements(cfg: Config, n: nat, i: nat)
    requires i < n
    ensures forall e :: e in InputPart(cfg, i).elements ==> e in InputParts(cfg, n).elements
  {
    hide InputPart;
    if i < n - 1 {
      InputElements(cfg, n - 1, i);
    }
  }

  lemma PipelineHasInput(cfg: Config, i: nat)
    requires i < cfg.inputs
    ensures forall e :: e in InputPart(cfg, i).elements ==> e in Pipeline(cfg).elements
  {
    hide InputParts, Trunks, OutputParts, InputPart;
    InputElements(cfg, cfg.inputs, i);
  }

  lemma QueuesAreBuilt(cfg: Config, i: nat)
    ensures cfg.video ==> Element(VideoQueue, i) in InputPart(cfg, i).elements
    ensures cfg.audio ==> Element(AudioQueue, i) in InputPart(cfg, i).elements
    ensures Element(Decodebin, i) in InputPart(cfg, i).elements
  {
    hide Chain;
    if cfg.video {
      assert VideoBranch(i)[0] == Element(VideoQueue, i);
    }
    if cfg.audio {
      assert AudioBranch(i)[0] == Element(AudioQueue, i);
    }
    assert [Element(Source, i), Element(Decodebin, i)][1] == Element(Decodebin, i);
  }

  datatype PadType = VideoPad | AudioPad | OtherPad

  function PadTypeOf(padType: string): PadType {
    if "video" <= padType then VideoPad else if "audio" <= padType then AudioPad else OtherPad
  }

  /** The type's beginning decides, whatever follows it. */
  lemma PadTypeByPrefix(rest: string, other: string)
    requires !("video" <= other) && !("audio" <= other)
    ensures PadTypeOf("video" + rest) == VideoPad
    ensures PadTypeOf("audio" + rest) == AudioPad
    ensures PadTypeOf(other) == OtherPad
  {
    var audio := "audio" + rest;
    assert audio[0] == 'a';
    assert "video" <= "video" + rest && "audio" <= audio;
  }

  /** The id the handler goes on with: `stale` is what its variable held, if the number does not convert. */
  function IdOf(name: string, stale: nat): Option<nat> {
    match GetElementId(name)
    case NoMatch => None
    case Unassigned => Some(stale)
    case Assigned(id) => Some(id)
  }

  /** Names of another shape have no id; a number of more than 64 bits leaves the id as it was. */
  lemma IdOfIs(name: string, stem: string, n: nat, stale: nat)
    ensures IdOf(name, stale).None? <==> forall words, digits :: !Matches(name, words, digits)
    ensures IsStem(stem) ==> IdOf(stem + Print(n), stale) == Some(if n <= 0xffff_ffff_ffff_ffff then n else stale)
  {
    hide Matches, IsStem, NumberOfName;
    ElementIdIsPatternMatch(name, UINT64_MAX);
    if IsStem(stem) {
      IdOfGeneratedName(stem, n);
    }
  }

  /** The queue a new pad of the named decoder is linked to. */
  function Destination(es: seq<Element>, cfg: Config, name: string, padType: string, stale: nat): Option<Element> {
    var id := IdOf(name, stale);
    if id.None? then None
    else if PadTypeOf(padType).VideoPad? && cfg.video then FindElement(es, Name(Element(VideoQueue, id.value)))
    else if PadTypeOf(padType).AudioPad? && cfg.audio then FindElement(es, Name(Element(AudioQueue, id.value)))
    else None
  }

  /** The pads of input `i`'s decoder go to the queues built for input `i`. */
  lemma PadsGoToTheirOwnQueue(cfg: Config, i: nat, padType: string, stale: nat)
    requires i < cfg.inputs && Grid(cfg.inputs).Some?
    ensures GetElementId(Name(Element(Decodebin, i))) == Assigned(i)
    ensures Destination(Pipeline(cfg).elements, cfg, Name(Element(Decodebin, i)), padType, stale)
            == if "video" <= padType && cfg.video then Some(Element(VideoQueue, i))
               else if "audio" <= padType && cfg.audio then Some(Element(AudioQueue, i))
               else None
  {
    hide Pipeline, InputPart, FindElement, NumberOfName;
    PrefixesExclude(padType);
    DecodebinName(i);
    PipelineHasInput(cfg, i);
    QueuesAreBuilt(cfg, i);
    if cfg.video {
      FindsByName(Pipeline(cfg).elements, Element(VideoQueue, i));
    }
    if cfg.audio {
      FindsByName(Pipeline(cfg).elements, Element(AudioQueue, i));
    }
  }

  lemma PrefixesExclude(t: string)
    ensures !("video" <= t && "audio" <= t)
  {
    if "video" <= t {
      assert t[0] == 'v';
    }
  }

  lemma DecodebinName(i: nat)
    requires i <= UINT64_MAX
    ensures GetElementId(Name(Element(Decodebin, i))) == Assigned(i)
  {
    hide IsStem, GetElementId;
    DecodebinStem();
    IdOfGeneratedName(Stem(Decodebin), i);
  }

  // ----------------------------------------------------------------- linking the pads

  /** A new pad of input `input`'s decoder; the queue's own pad may be missing, and the link may fail. */
  datatype PadEvent = PadEvent(input: nat, pad: nat, padType: string, sinkValid: bool, linkOk: bool, stale: nat)

  /** Which decoder's pad each queue is fed from. */
  type Feeds = map<Element, (string, nat)>

  function Linked(feeds: Feeds, dest: Option<Element>, decodebin: string, pad: nat, sinkValid: bool, linkOk: bool): Feeds {
    if dest.Some? && sinkValid && dest.value !in feeds && linkOk then feeds[dest.value := (decodebin, pad)] else feeds
  }

  function AfterPads(es: seq<Element>, cfg: Config, events: seq<PadEvent>): Feeds {
    if events == [] then map[]
    else
      var e := events[|events| - 1];
      var decodebin := Name(Element(Decodebin, e.input));
      Linked(AfterPads(es, cfg, events[..|events| - 1]), Destination(es, cfg, decodebin, e.padType, e.stale),
             decodebin, e.pad, e.sinkValid, e.linkOk)
  }

  /** The pad is of the queue's input and type, and can be linked. */
  predicate Suits(cfg: Config, e: PadEvent, queue: Element) {
    && e.sinkValid && e.linkOk && e.input == queue.id
    && match queue.role {
         case VideoQueue => cfg.video && "video" <= e.padType
         case AudioQueue => cfg.audio && "audio" <= e.padType
         case _ => false
       }
  }

  /** Event `k` is the first that suits the queue. */
  predicate FirstSuiting(cfg: Config, events: seq<PadEvent>, queue: Element, k: int) {
    && 0 <= k < |events| && Suits(cfg, events[k], queue)
    && forall j :: 0 <= j < k ==> !Suits(cfg, events[j], queue)
  }

  ghost predicate FedByOwn(cfg: Config, events: seq<PadEvent>, feeds: Feeds) {
    && (forall queue :: queue in feeds ==>
          exists k :: FirstSuiting(cfg, events, queue, k)
                      && feeds[queue] == (Name(Element(Decodebin, queue.id)), events[k].pad))
    && (forall k, queue :: 0 <= k < |events| && Suits(cfg, events[k], queue) ==> queue in feeds)
  }

  lemma PadSuits(cfg: Config, e: PadEvent, queue: Element)
    requires e.input < cfg.inputs && Grid(cfg.inputs).Some?
    ensures Suits(cfg, e, queue)
            <==> Destination(Pipeline(cfg).elements, cfg, Name(Element(Decodebin, e.input)), e.padType, e.stale) == Some(queue)
                 && e.sinkValid && e.linkOk
  {
    hide Pipeline, Destination, Name;
    PrefixesExclude(e.padType);
    PadsGoToTheirOwnQueue(cfg, e.input, e.padType, e.stale);
  }

  lemma LinkingKeepsOwn(cfg: Config, events: seq<PadEvent>, feeds: Feeds, e: PadEvent)
    requires e.input < cfg.inputs && Grid(cfg.inputs).Some? && FedByOwn(cfg, events, feeds)
    ensures var decodebin := Name(Element(Decodebin, e.input));
            var dest := Destination(Pipeline(cfg).elements, cfg, decodebin, e.padType, e.stale);
            FedByOwn(cfg, events + [e], Linked(feeds, dest, decodebin, e.pad, e.sinkValid, e.linkOk))
  {
    hide Pipeline, Destination, Name, Suits, Grid;
    var decodebin := Name(Element(Decodebin, e.input));
    var dest := Destination(Pipeline(cfg).elements, cfg, decodebin, e.padType, e.stale);
    var after := Linked(feeds, dest, decodebin, e.pad, e.sinkValid, e.linkOk);
    var all := events + [e];
    forall queue
      ensures Suits(cfg, e, queue) <==> dest == Some(queue) && e.sinkValid && e.linkOk
      ensures Suits(cfg, e, queue) ==> queue.id == e.input
    {
      PadSuits(cfg, e, queue);
      SuitsItsInput(cfg, e, queue);
    }
    forall queue | queue in after
      ensures exists k :: FirstSuiting(cfg, all, queue, k)
                          && after[queue] == (Name(Element(Decodebin, queue.id)), all[k].pad)
    {
      if queue in feeds {
        var k :| FirstSuiting(cfg, events, queue, k)
                 && feeds[queue] == (Name(Element(Decodebin, queue.id)), events[k].pad);
        FirstStaysFirst(cfg, events, e, queue, k);
      } else {
        FirstIsLast(cfg, events, e, queue);
      }
    }
    forall k, queue | 0 <= k < |all| && Suits(cfg, all[k], queue)
      ensures queue in after
    {
      if k < |events| {
        assert all[k] == events[k];
      }
    }
  }

  lemma SuitsItsInput(cfg: Config, e: PadEvent, queue: Element)
    ensures Suits(cfg, e, queue) ==> queue.id == e.input
  {
  }

  lemma FirstStaysFirst(cfg: Config, events: seq<PadEvent>, e: PadEvent, queue: Element, k: int)
    requires FirstSuiting(cfg, events, queue, k)
    ensures FirstSuiting(cfg, events + [e], queue, k) && (events + [e])[k] == events[k]
  {
    hide Suits;
    assert forall j :: 0 <= j < |events| ==> (events + [e])[j] == events[j];
  }

  lemma FirstIsLast(cfg: Config, events: seq<PadEvent>, e: PadEvent, queue: Element)
    requires Suits(cfg, e, queue) && forall j :: 0 <= j < |events| ==> !Suits(cfg, events[j], queue)
    ensures FirstSuiting(cfg, events + [e], queue, |events|) && (events + [e])[|events|] == e
  {
    hide Suits;
    assert forall j :: 0 <= j < |events| ==> (events + [e])[j] == events[j];
  }

  /**
    After any pads of the pipeline's decoders, in any order: a queue is fed exactly when a pad of its own
    decoder and type could be linked, and then by the first such pad.
  */
  lemma {:induction false} QueuesAreFedByTheirOwn(cfg: Config, events: seq<PadEvent>)
    requires Grid(cfg.inputs).Some? && forall k :: 0 <= k < |events| ==> events[k].input < cfg.inputs
    ensures FedByOwn(cfg, events, AfterPads(Pipeline(cfg).elements, cfg, events))
    decreases |events|
  {
    hide Pipeline, Destination, Name, FedByOwn, Linked, Grid;
    if events == [] {
      NothingFed(cfg);
    } else {
      var n := |events| - 1;
      QueuesAreFedByTheirOwn(cfg, events[..n]);
      LinkingKeepsOwn(cfg, events[..n], AfterPads(Pipeline(cfg).elements, cfg, events[..n]), events[n]);
      assert events[..n] + [events[n]] == events;
    }
  }

  lemma NothingFed(cfg: Config)
    ensures FedByOwn(cfg, [], map[])
  {
  }
}
