/**
  The mosaic builder: the pipeline it adds and links for a number of inputs and outputs, and the lookup
  that sends a decoder's new pad to the queue built for its input.
*/
module Mosaic {
  import opened Wrappers
  import opened Decimal
  import opened Names
  import opened Elements
  import opened Geometry

  /** `rtp` says the output's scheme is udp. */
  datatype OutputKind = Device | Network(rtp: bool)

  /** What the builder asks of the encoding configuration; `mp3`, `h264`: the chosen encoders. */
  datatype Config = Config(inputs: nat, outputs: seq<OutputKind>, video: bool, audio: bool, deinterlace: bool,
                           aspectRatio: bool, frameRate: bool, h264: bool, profile: bool, streamFormat: bool,
                           channels: bool, volume: bool, mp3: bool)

  type Link = (Element, Element)

  /** Elements in the order they are added, and the links between them. */
  datatype Part = Part(elements: seq<Element>, links: set<Link>) {
    function Then(other: Part): Part {
      Part(elements + other.elements, links + other.links)
    }
  }

  const NO_PART := Part([], {})

  function When(condition: bool, e: Element): seq<Element> {
    if condition then [e] else []
  }

  /** The links of a line of elements, each to the next. */
  function Chain(line: seq<Element>): set<Link> {
    if |line| < 2 then {}
    else Chain(line[..|line| - 1]) + {(line[|line| - 2], line[|line| - 1])}
  }

  // ----------------------------------------------------------------- the lines of the pipeline

  function VideoBranch(i: nat): seq<Element> {
    [Element(VideoQueue, i), Element(MuxScale, i), Element(MuxScaleCaps, i), Element(VideoBox, i)]
  }

  function AudioBranch(i: nat): seq<Element> {
    [Element(AudioQueue, i), Element(Level, i)]
  }

  function VideoTrunk(cfg: Config): seq<Element> {
    [Element(Cairo, 0), Element(VideoConvert, 0)] + When(cfg.deinterlace, Element(Deinterlace, 0)) + [Element(VideoTee, 0)]
  }

  function AudioTrunk(cfg: Config): seq<Element> {
    [Element(AudioConvert, 0)] + When(cfg.channels, Element(AudioConvertCaps, 0)) + When(cfg.volume, Element(Volume, 0))
    + [Element(AudioTee, 0)]
  }

  /** Before the encoder. */
  function VideoShaping(cfg: Config, o: nat): seq<Element> {
    [Element(VideoTeeQueue, o)] + When(cfg.aspectRatio, Element(AspectRatio, o))
    + When(cfg.frameRate, Element(VideoRate, o)) + When(cfg.frameRate, Element(VideoRateCaps, o))
  }

  function VideoEncoding(cfg: Config, o: nat): seq<Element> {
    [Element(VideoCodec, o)] + When(cfg.profile, Element(ProfileCaps, o))
    + When(cfg.streamFormat, Element(StreamFormatCaps, o))
  }

  function VideoPacking(cfg: Config, o: nat, rtp: bool): seq<Element> {
    When(rtp, Element(VideoPay, o)) + When(cfg.h264, Element(VideoParser, o))
  }

  function NetworkVideo(cfg: Config, o: nat, rtp: bool): seq<Element> {
    VideoShaping(cfg, o) + VideoEncoding(cfg, o) + VideoPacking(cfg, o, rtp)
  }

  /** In the order of the stream: an MP3 encoder has its resampler before it and its parser behind. */
  function NetworkAudio(cfg: Config, o: nat, rtp: bool): seq<Element> {
    [Element(AudioTeeQueue, o)] + When(cfg.mp3, Element(AudioResample, o)) + [Element(AudioCodec, o)]
    + When(cfg.mp3, Element(AudioParse, o)) + When(rtp, Element(AudioPay, o))
  }

  /** In the order of adding. */
  function NetworkAudioAdded(cfg: Config, o: nat, rtp: bool): seq<Element> {
    [Element(AudioTeeQueue, o), Element(AudioCodec, o)] + When(cfg.mp3, Element(AudioResample, o))
    + When(cfg.mp3, Element(AudioParse, o)) + When(rtp, Element(AudioPay, o))
  }

  function DeviceVideo(o: nat): seq<Element> {
    [Element(VideoTeeQueue, o), Element(VideoSink, o)]
  }

  function DeviceAudio(o: nat): seq<Element> {
    [Element(AudioTeeQueue, o), Element(AudioSink, o)]
  }

  // ----------------------------------------------------------------- the pipeline

  function InputPart(cfg: Config, i: nat): Part {
    Part([Element(Source, i), Element(Decodebin, i)], {(Element(Source, i), Element(Decodebin, i))})
    .Then(if cfg.video then Part(VideoBranch(i), Chain(VideoBranch(i) + [Element(VideoMixer, 0)])) else NO_PART)
    .Then(if cfg.audio then Part(AudioBranch(i), Chain(AudioBranch(i) + [Element(AudioMixer, 0)])) else NO_PART)
  }

  function InputParts(cfg: Config, n: nat): Part {
    if n == 0 then NO_PART else InputParts(cfg, n - 1).Then(InputPart(cfg, n - 1))
  }

  function Mixers(): Part {
    Part([Element(VideoMixer, 0), Element(AudioMixer, 0)], {})
  }

  function Trunks(cfg: Config): Part {
    (if cfg.video then Part(VideoTrunk(cfg), Chain([Element(VideoMixer, 0)] + VideoTrunk(cfg))) else NO_PART)
    .Then(if cfg.audio then Part(AudioTrunk(cfg), Chain([Element(AudioMixer, 0)] + AudioTrunk(cfg))) else NO_PART)
  }

  function DevicePart(cfg: Config, o: nat): Part {
    (if cfg.video then Part(DeviceVideo(o), Chain([Element(VideoTee, 0)] + DeviceVideo(o))) else NO_PART)
    .Then(if cfg.audio then Part(DeviceAudio(o), Chain([Element(AudioTee, 0)] + DeviceAudio(o))) else NO_PART)
  }

  function NetworkVideoPart(cfg: Config, o: nat, rtp: bool): Part {
    if cfg.video then
      Part(NetworkVideo(cfg, o, rtp), Chain([Element(VideoTee, 0)] + NetworkVideo(cfg, o, rtp) + [Element(Muxer, o)]))
    else NO_PART
  }

  function NetworkAudioPart(cfg: Config, o: nat, rtp: bool): Part {
    if cfg.audio then
      Part(NetworkAudioAdded(cfg, o, rtp),
           Chain([Element(AudioTee, 0)] + NetworkAudio(cfg, o, rtp) + [Element(Muxer, o)]))
    else NO_PART
  }

  function NetworkPart(cfg: Config, o: nat, rtp: bool): Part {
    Part([Element(Muxer, o)], {})
    .Then(NetworkVideoPart(cfg, o, rtp))
    .Then(NetworkAudioPart(cfg, o, rtp))
    .Then(Part([Element(Sink, o)], {(Element(Muxer, o), Element(Sink, o))}))
  }

  function OutputPart(cfg: Config, o: nat): Part
    requires o < |cfg.outputs|
  {
    match cfg.outputs[o]
    case Device => DevicePart(cfg, o)
    case Network(rtp) => NetworkPart(cfg, o, rtp)
  }

  function OutputParts(cfg: Config, n: nat): Part
    requires n <= |cfg.outputs|
  {
    if n == 0 then NO_PART else OutputParts(cfg, n - 1).Then(OutputPart(cfg, n - 1))
  }

  function Pipeline(cfg: Config): Part {
    Mixers().Then(InputParts(cfg, cfg.inputs)).Then(Trunks(cfg)).Then(OutputParts(cfg, |cfg.outputs|))
  }

  // ----------------------------------------------------------------- no name is used twice

  /** Shared elements, those of an input, shared again, those of an output. */
  function Section(role: Role): nat {
    if Rank(role) < 2 then 0 else if Rank(role) < 10 then 1 else if Rank(role) < 18 then 2 else 3
  }

  predicate Before(a: Element, b: Element) {
    || Section(a.role) < Section(b.role)
    || (Section(a.role) == Section(b.role) && (a.id < b.id || (a.id == b.id && Rank(a.role) < Rank(b.role))))
  }

  ghost predicate Ordered(es: seq<Element>) {
    forall i, j :: 0 <= i < j < |es| ==> Before(es[i], es[j])
  }

  /** All in one section, for one id, with ranks from `low` to below `high`. */
  predicate InRange(es: seq<Element>, section: nat, id: nat, low: nat, high: nat) {
    forall i :: 0 <= i < |es| ==> Section(es[i].role) == section && es[i].id == id && low <= Rank(es[i].role) < high
  }

  ghost predicate Ranked(es: seq<Element>, section: nat, id: nat, low: nat, high: nat) {
    Ordered(es) && InRange(es, section, id, low, high)
  }

  lemma OrderedConcat(a: seq<Element>, b: seq<Element>)
    requires Ordered(a) && Ordered(b)
    requires forall i, j :: 0 <= i < |a| && 0 <= j < |b| ==> Before(a[i], b[j])
    ensures Ordered(a + b)
  {
    hide Before;
    var c := a + b;
    forall i, j | 0 <= i < j < |c|
      ensures Before(c[i], c[j])
    {
      if j < |a| {
        assert c[i] == a[i] && c[j] == a[j];
      } else if i >= |a| {
        assert c[i] == b[i - |a|] && c[j] == b[j - |a|];
      } else {
        assert c[i] == a[i] && c[j] == b[j - |a|];
      }
    }
  }

  lemma RankedConcat(a: seq<Element>, b: seq<Element>, section: nat, id: nat, low: nat, mid: nat, high: nat)
    requires Ranked(a, section, id, low, mid) && Ranked(b, section, id, mid, high) && low <= mid <= high
    ensures Ranked(a + b, section, id, low, high)
  {
    hide Rank, Section;
    OrderedConcat(a, b);
  }

  lemma Grow(es: seq<Element>, condition: bool, e: Element, section: nat, low: nat, mid: nat)
    requires Ranked(es, section, e.id, low, mid) && low <= mid <= Rank(e.role) && Section(e.role) == section
    ensures Ranked(es + When(condition, e), section, e.id, low, Rank(e.role) + 1)
  {
    hide Rank, Section;
    RankedConcat(es, When(condition, e), section, e.id, low, mid, Rank(e.role) + 1);
  }

  lemma One(e: Element)
    ensures Ranked([e], Section(e.role), e.id, Rank(e.role), Rank(e.role) + 1)
    ensures [e] == When(true, e)
  {
  }

  lemma Empty(section: nat, id: nat, low: nat, high: nat)
    ensures Ranked([], section, id, low, high)
  {
  }

  lemma Wider(es: seq<Element>, section: nat, id: nat, low: nat, high: nat, lower: nat, higher: nat)
    requires Ranked(es, section, id, low, high) && lower <= low && high <= higher
    ensures Ranked(es, section, id, lower, higher)
  {
    hide Rank, Section;
  }

  lemma SourceIsRanked(i: nat)
    ensures Ranked([Element(Source, i), Element(Decodebin, i)], 1, i, 2, 4)
  {
  }

  lemma BranchesAreRanked(i: nat)
    ensures Ranked(VideoBranch(i), 1, i, 4, 8) && Ranked(AudioBranch(i), 1, i, 8, 10)
  {
  }

  lemma VideoTrunkIsRanked(cfg: Config)
    ensures Ranked(VideoTrunk(cfg), 2, 0, 10, 14)
  {
    hide Ranked, When;
    var v := [Element(Cairo, 0), Element(VideoConvert, 0)];
    CairoLine();
    Grow(v, cfg.deinterlace, Element(Deinterlace, 0), 2, 10, 12);
    One(Element(VideoTee, 0));
    Grow(v + When(cfg.deinterlace, Element(Deinterlace, 0)), true, Element(VideoTee, 0), 2, 10, 13);
  }

  lemma AudioTrunkIsRanked(cfg: Config)
    ensures Ranked(AudioTrunk(cfg), 2, 0, 14, 18)
  {
    hide Ranked, When;
    One(Element(AudioConvert, 0));
    One(Element(AudioTee, 0));
    var a := [Element(AudioConvert, 0)];
    Grow(a, cfg.channels, Element(AudioConvertCaps, 0), 2, 14, 15);
    a := a + When(cfg.channels, Element(AudioConvertCaps, 0));
    Grow(a, cfg.volume, Element(Volume, 0), 2, 14, 16);
    a := a + When(cfg.volume, Element(Volume, 0));
    Grow(a, true, Element(AudioTee, 0), 2, 14, 17);
  }

  lemma CairoLine()
    ensures Ranked([Element(Cairo, 0), Element(VideoConvert, 0)], 2, 0, 10, 12)
  {
  }

  lemma ShapingIsRanked(cfg: Config, o: nat)
    ensures Ranked(VideoShaping(cfg, o), 3, o, 19, 24)
  {
    hide Ranked, When;
    One(Element(VideoTeeQueue, o));
    var v := [Element(VideoTeeQueue, o)];
    Grow(v, cfg.aspectRatio, Element(AspectRatio, o), 3, 19, 20);
    v := v + When(cfg.aspectRatio, Element(AspectRatio, o));
    Grow(v, cfg.frameRate, Element(VideoRate, o), 3, 19, 22);
    v := v + When(cfg.frameRate, Element(VideoRate, o));
    Grow(v, cfg.frameRate, Element(VideoRateCaps, o), 3, 19, 23);
  }

  lemma EncodingIsRanked(cfg: Config, o: nat)
    ensures Ranked(VideoEncoding(cfg, o), 3, o, 24, 27)
  {
    hide Ranked, When;
    One(Element(VideoCodec, o));
    var v := [Element(VideoCodec, o)];
    Grow(v, cfg.profile, Element(ProfileCaps, o), 3, 24, 25);
    Grow(v + When(cfg.profile, Element(ProfileCaps, o)), cfg.streamFormat, Element(StreamFormatCaps, o), 3, 24, 26);
  }

  lemma PackingIsRanked(cfg: Config, o: nat, rtp: bool)
    ensures Ranked(VideoPacking(cfg, o, rtp), 3, o, 27, 29)
  {
    hide Ranked, When;
    Empty(3, o, 27, 27);
    Grow([], rtp, Element(VideoPay, o), 3, 27, 27);
    assert [] + When(rtp, Element(VideoPay, o)) == When(rtp, Element(VideoPay, o));
    Grow(When(rtp, Element(VideoPay, o)), cfg.h264, Element(VideoParser, o), 3, 27, 28);
  }

  lemma NetworkVideoIsRanked(cfg: Config, o: nat, rtp: bool)
    ensures Ranked(NetworkVideo(cfg, o, rtp), 3, o, 19, 29)
  {
    hide Ranked, VideoShaping, VideoEncoding, VideoPacking;
    ShapingIsRanked(cfg, o);
    EncodingIsRanked(cfg, o);
    PackingIsRanked(cfg, o, rtp);
    RankedConcat(VideoShaping(cfg, o), VideoEncoding(cfg, o), 3, o, 19, 24, 27);
    RankedConcat(VideoShaping(cfg, o) + VideoEncoding(cfg, o), VideoPacking(cfg, o, rtp), 3, o, 19, 27, 29);
  }

  lemma NetworkAudioIsRanked(cfg: Config, o: nat, rtp: bool)
    ensures Ranked(NetworkAudioAdded(cfg, o, rtp), 3, o, 29, 35)
  {
    hide Ranked, When;
    var a := [Element(AudioTeeQueue, o), Element(AudioCodec, o)];
    AudioCodecLine(o);
    Grow(a, cfg.mp3, Element(AudioResample, o), 3, 29, 32);
    a := a + When(cfg.mp3, Element(AudioResample, o));
    Grow(a, cfg.mp3, Element(AudioParse, o), 3, 29, 33);
    a := a + When(cfg.mp3, Element(AudioParse, o));
    Grow(a, rtp, Element(AudioPay, o), 3, 29, 34);
  }

  lemma AudioCodecLine(o: nat)
    ensures Ranked([Element(AudioTeeQueue, o), Element(AudioCodec, o)], 3, o, 29, 32)
  {
  }

  lemma DeviceVideoIsRanked(o: nat)
    ensures Ranked(DeviceVideo(o), 3, o, 19, 21)
  {
  }

  lemma DeviceAudioIsRanked(o: nat)
    ensures Ranked(DeviceAudio(o), 3, o, 29, 31)
  {
  }

  lemma InputIsRanked(cfg: Config, i: nat)
    ensures Ranked(InputPart(cfg, i).elements, 1, i, 2, 10)
  {
    hide Ranked, VideoBranch, AudioBranch, Chain;
    SourceIsRanked(i);
    BranchesAreRanked(i);
    Empty(1, i, 4, 8);
    Empty(1, i, 8, 10);
    var s := [Element(Source, i), Element(Decodebin, i)];
    var v := if cfg.video then VideoBranch(i) else [];
    RankedConcat(s, v, 1, i, 2, 4, 8);
    RankedConcat(s + v, if cfg.audio then AudioBranch(i) else [], 1, i, 2, 8, 10);
  }

  lemma TrunkPartIsRanked(cfg: Config)
    ensures Ranked(Trunks(cfg).elements, 2, 0, 10, 18)
  {
    hide Ranked, VideoTrunk, AudioTrunk, Chain;
    VideoTrunkIsRanked(cfg);
    AudioTrunkIsRanked(cfg);
    Empty(2, 0, 10, 14);
    Empty(2, 0, 14, 18);
    RankedConcat(if cfg.video then VideoTrunk(cfg) else [], if cfg.audio then AudioTrunk(cfg) else [], 2, 0, 10, 14, 18);
  }

  lemma DevicePartIsRanked(cfg: Config, o: nat)
    ensures Ranked(DevicePart(cfg, o).elements, 3, o, 18, 36)
  {
    hide Ranked, DeviceVideo, DeviceAudio, Chain;
    DeviceVideoIsRanked(o);
    DeviceAudioIsRanked(o);
    var v := if cfg.video then DeviceVideo(o) else [];
    var a := if cfg.audio then DeviceAudio(o) else [];
    Empty(3, o, 19, 21);
    Empty(3, o, 29, 31);
    Wider(v, 3, o, 19, 21, 18, 29);
    Wider(a, 3, o, 29, 31, 29, 36);
    RankedConcat(v, a, 3, o, 18, 29, 36);
  }

  lemma NetworkPartIsRanked(cfg: Config, o: nat, rtp: bool)
    ensures Ranked(NetworkPart(cfg, o, rtp).elements, 3, o, 18, 36)
  {
    hide Ranked, NetworkVideo, NetworkAudioAdded, Chain;
    One(Element(Muxer, o));
    One(Element(Sink, o));
    NetworkVideoIsRanked(cfg, o, rtp);
    NetworkAudioIsRanked(cfg, o, rtp);
    Empty(3, o, 19, 29);
    Empty(3, o, 29, 35);
    var m := [Element(Muxer, o)];
    var v := NetworkVideoPart(cfg, o, rtp).elements;
    var a := NetworkAudioPart(cfg, o, rtp).elements;
    RankedConcat(m, v, 3, o, 18, 19, 29);
    RankedConcat(m + v, a, 3, o, 18, 29, 35);
    RankedConcat(m + v + a, [Element(Sink, o)], 3, o, 18, 35, 36);
  }

  lemma OutputIsRanked(cfg: Config, o: nat)
    requires o < |cfg.outputs|
    ensures Ranked(OutputPart(cfg, o).elements, 3, o, 18, 36)
  {
    hide Ranked, DevicePart, NetworkPart;
    match cfg.outputs[o]
    case Device => DevicePartIsRanked(cfg, o);
    case Network(rtp) => NetworkPartIsRanked(cfg, o, rtp);
  }

  /** Ordered, in one section, with ids below `n`. */
  ghost predicate Numbered(es: seq<Element>, section: nat, n: nat) {
    Ordered(es) && forall i :: 0 <= i < |es| ==> Section(es[i].role) == section && es[i].id < n
  }

  lemma NumberedConcat(a: seq<Element>, b: seq<Element>, section: nat, n: nat, low: nat, high: nat)
    requires Numbered(a, section, n) && Ranked(b, section, n, low, high)
    ensures Numbered(a + b, section, n + 1)
  {
    hide Section, Rank;
    OrderedConcat(a, b);
  }

  lemma {:induction false} InputsAreNumbered(cfg: Config, n: nat)
    ensures Numbered(InputParts(cfg, n).elements, 1, n)
  {
    hide InputPart, Ranked;
    if n > 0 {
      InputsAreNumbered(cfg, n - 1);
      InputIsRanked(cfg, n - 1);
      NumberedConcat(InputParts(cfg, n - 1).elements, InputPart(cfg, n - 1).elements, 1, n - 1, 2, 10);
    }
  }

  lemma {:induction false} OutputsAreNumbered(cfg: Config, n: nat)
    requires n <= |cfg.outputs|
    ensures Numbered(OutputParts(cfg, n).elements, 3, n)
  {
    hide OutputPart, Ranked;
    if n > 0 {
      OutputsAreNumbered(cfg, n - 1);
      OutputIsRanked(cfg, n - 1);
      NumberedConcat(OutputParts(cfg, n - 1).elements, OutputPart(cfg, n - 1).elements, 3, n - 1, 18, 36);
    }
  }

  /** Ordered, with all sections below `section`. */
  ghost predicate Sectioned(es: seq<Element>, section: nat) {
    Ordered(es) && forall i :: 0 <= i < |es| ==> Section(es[i].role) < section
  }

  lemma SectionedConcat(a: seq<Element>, b: seq<Element>, section: nat)
    requires Sectioned(a, section) && Ordered(b) && forall i :: 0 <= i < |b| ==> Section(b[i].role) == section
    ensures Sectioned(a + b, section + 1)
  {
    hide Section, Rank;
    OrderedConcat(a, b);
  }

  lemma MixersAreSectioned()
    ensures Sectioned(Mixers().elements, 1)
  {
  }

  lemma PipelineIsOrdered(cfg: Config)
    ensures Ordered(Pipeline(cfg).elements)
  {
    hide InputParts, OutputParts, Trunks, Mixers, Section, Rank, Before;
    var n := cfg.inputs;
    MixersAreSectioned();
    InputsAreNumbered(cfg, n);
    TrunkPartIsRanked(cfg);
    OutputsAreNumbered(cfg, |cfg.outputs|);
    var m, i, t := Mixers().elements, InputParts(cfg, n).elements, Trunks(cfg).elements;
    SectionedConcat(m, i, 1);
    SectionedConcat(m + i, t, 2);
    SectionedConcat(m + i + t, OutputParts(cfg, |cfg.outputs|).elements, 3);
  }

  /** For every configuration, no two elements of the pipeline have the same name. */
  lemma NamesAreDistinct(cfg: Config)
    ensures var es := Pipeline(cfg).elements; forall i, j :: 0 <= i < j < |es| ==> Name(es[i]) != Name(es[j])
  {
    hide Name, Pipeline;
    PipelineIsOrdered(cfg);
    var es := Pipeline(cfg).elements;
    forall i, j | 0 <= i < j < |es|
      ensures Name(es[i]) != Name(es[j])
    {
      assert Before(es[i], es[j]);
      if Name(es[i]) == Name(es[j]) {
        NamesDiffer(es[i], es[j]);
      }
    }
  }

  // ----------------------------------------------------------------- links

  datatype Track = Video | Audio | Both

  function TrackOf(role: Role): Track {
    var k := Rank(role);
    if k == 0 || 4 <= k < 8 || 10 <= k < 14 || 19 <= k < 29 then Video
    else if k == 1 || 8 <= k < 10 || 14 <= k < 18 || 29 <= k < 35 then Audio
    else Both
  }

  /** Inputs, mixers, trunks, outputs. */
  function Stage(role: Role): nat {
    match Section(role)
    case 0 => 1
    case 1 => 0
    case k => k
  }

  /** A link keeps to its track and to its own input or output, or leads to the next stage. */
  predicate Wired(a: Element, b: Element) {
    && (TrackOf(a.role) == TrackOf(b.role) || TrackOf(a.role).Both? || TrackOf(b.role).Both?)
    && ((Stage(a.role) == Stage(b.role) && a.id == b.id) || Stage(b.role) == Stage(a.role) + 1)
  }

  ghost predicate WellWired(links: set<Link>) {
    forall l :: l in links ==> Wired(l.0, l.1)
  }

  ghost predicate LineWired(line: seq<Element>) {
    forall k :: 0 < k < |line| ==> Wired(line[k - 1], line[k])
  }

  lemma {:induction false} ChainIsWired(line: seq<Element>)
    requires LineWired(line)
    ensures WellWired(Chain(line))
    decreases |line|
  {
    hide Wired;
    if |line| >= 2 {
      var n := |line| - 1;
      forall k | 0 < k < n
        ensures Wired(line[..n][k - 1], line[..n][k])
      {
        assert line[..n][k] == line[k];
      }
      ChainIsWired(line[..n]);
      assert Wired(line[n - 1], line[n]);
    }
  }

  /** Elements of one stage, id and track. */
  predicate Alike(es: seq<Element>, stage: nat, id: nat, track: Track) {
    forall i :: 0 <= i < |es| ==> Stage(es[i].role) == stage && es[i].id == id && TrackOf(es[i].role) == track
  }

  /** A line of alike elements, entered from `head` and left to `tail`. */
  lemma LineIsWired(head: seq<Element>, line: seq<Element>, tail: seq<Element>, stage: nat, id: nat, track: Track)
    requires |head| <= 1 && |tail| <= 1 && line != [] && Alike(line, stage, id, track)
    requires head != [] ==> Stage(head[0].role) + 1 == stage && TrackOf(head[0].role) == track
    requires tail != [] ==> TrackOf(tail[0].role) == track || TrackOf(tail[0].role).Both?
    requires tail != [] ==> Stage(tail[0].role) == stage + 1 || (Stage(tail[0].role) == stage && tail[0].id == id)
    ensures WellWired(Chain(head + line + tail))
  {
    hide Stage, TrackOf, WellWired, Chain;
    var all := head + line + tail;
    forall k | 0 < k < |all|
      ensures Wired(all[k - 1], all[k])
    {
      var h, n := |head|, |head| + |line|;
      if h <= k < n {
        assert all[k] == line[k - h];
      }
      if h <= k - 1 < n {
        assert all[k - 1] == line[k - 1 - h];
      }
    }
    ChainIsWired(all);
  }

  lemma RangeIsAlike(es: seq<Element>, section: nat, id: nat, low: nat, high: nat, stage: nat, track: Track)
    requires InRange(es, section, id, low, high)
    requires forall role :: low <= Rank(role) < high && Section(role) == section ==> Stage(role) == stage && TrackOf(role) == track
    ensures Alike(es, stage, id, track)
  {
    hide Rank, Section, Stage, TrackOf;
  }

  lemma BranchesAreAlike(i: nat)
    ensures Alike(VideoBranch(i), 0, i, Video) && Alike(AudioBranch(i), 0, i, Audio)
  {
    hide VideoBranch, AudioBranch, Ordered;
    BranchesAreRanked(i);
    RangeIsAlike(VideoBranch(i), 1, i, 4, 8, 0, Video);
    RangeIsAlike(AudioBranch(i), 1, i, 8, 10, 0, Audio);
  }

  lemma TrunksAreAlike(cfg: Config)
    ensures Alike(VideoTrunk(cfg), 2, 0, Video) && Alike(AudioTrunk(cfg), 2, 0, Audio)
  {
    hide VideoTrunk, AudioTrunk, Ordered;
    VideoTrunkIsRanked(cfg);
    AudioTrunkIsRanked(cfg);
    RangeIsAlike(VideoTrunk(cfg), 2, 0, 10, 14, 2, Video);
    RangeIsAlike(AudioTrunk(cfg), 2, 0, 14, 18, 2, Audio);
  }

  lemma OutputLinesAreAlike(cfg: Config, o: nat, rtp: bool)
    ensures Alike(NetworkVideo(cfg, o, rtp), 3, o, Video) && Alike(NetworkAudioAdded(cfg, o, rtp), 3, o, Audio)
    ensures Alike(DeviceVideo(o), 3, o, Video) && Alike(DeviceAudio(o), 3, o, Audio)
  {
    hide NetworkVideo, NetworkAudioAdded, DeviceVideo, DeviceAudio, Ordered;
    NetworkVideoIsRanked(cfg, o, rtp);
    NetworkAudioIsRanked(cfg, o, rtp);
    DeviceVideoIsRanked(o);
    DeviceAudioIsRanked(o);
    RangeIsAlike(NetworkVideo(cfg, o, rtp), 3, o, 19, 29, 3, Video);
    RangeIsAlike(NetworkAudioAdded(cfg, o, rtp), 3, o, 29, 35, 3, Audio);
    RangeIsAlike(DeviceVideo(o), 3, o, 19, 21, 3, Video);
    RangeIsAlike(DeviceAudio(o), 3, o, 29, 31, 3, Audio);
  }

  lemma AudioLineIsAlike(cfg: Config, o: nat, rtp: bool)
    ensures Alike(NetworkAudio(cfg, o, rtp), 3, o, Audio)
  {
    hide Alike;
    OutputLinesAreAlike(cfg, o, rtp);
    SameElements(cfg, o, rtp);
    AlikeByMembers(NetworkAudioAdded(cfg, o, rtp), NetworkAudio(cfg, o, rtp), 3, o, Audio);
  }

  lemma SameElements(cfg: Config, o: nat, rtp: bool)
    ensures forall e :: e in NetworkAudio(cfg, o, rtp) ==> e in NetworkAudioAdded(cfg, o, rtp)
  {
  }

  lemma AlikeByMembers(a: seq<Element>, b: seq<Element>, stage: nat, id: nat, track: Track)
    requires Alike(a, stage, id, track) && forall e :: e in b ==> e in a
    ensures Alike(b, stage, id, track)
  {
    hide Stage, TrackOf;
    forall i | 0 <= i < |b|
      ensures Stage(b[i].role) == stage && b[i].id == id && TrackOf(b[i].role) == track
    {
      assert b[i] in b;
    }
  }

  lemma Ends()
    ensures Stage(VideoMixer) == 1 == Stage(AudioMixer) && TrackOf(VideoMixer) == Video && TrackOf(AudioMixer) == Audio
    ensures Stage(VideoTee) == 2 == Stage(AudioTee) && TrackOf(VideoTee) == Video && TrackOf(AudioTee) == Audio
    ensures Stage(Muxer) == 3 == Stage(Sink) && TrackOf(Muxer) == Both == TrackOf(Sink)
    ensures Stage(Source) == 0 == Stage(Decodebin) && TrackOf(Source) == Both
  {
  }

  lemma InputIsWired(cfg: Config, i: nat)
    ensures WellWired(InputPart(cfg, i).links)
  {
    hide VideoBranch, AudioBranch, Chain, Stage, TrackOf, Alike;
    BranchesAreAlike(i);
    BranchesAreSome(i);
    Ends();
    var vm, am := [Element(VideoMixer, 0)], [Element(AudioMixer, 0)];
    LineIsWired([], VideoBranch(i), vm, 0, i, Video);
    LineIsWired([], AudioBranch(i), am, 0, i, Audio);
    assert [] + VideoBranch(i) + vm == VideoBranch(i) + vm && [] + AudioBranch(i) + am == AudioBranch(i) + am;
  }

  lemma BranchesAreSome(i: nat)
    ensures VideoBranch(i) != [] && AudioBranch(i) != []
  {
  }

  lemma TrunkPartIsWired(cfg: Config)
    ensures WellWired(Trunks(cfg).links)
  {
    hide VideoTrunk, AudioTrunk, Chain, Stage, TrackOf, Alike;
    TrunksAreAlike(cfg);
    TrunksAreSome(cfg);
    Ends();
    var vm, am := [Element(VideoMixer, 0)], [Element(AudioMixer, 0)];
    LineIsWired(vm, VideoTrunk(cfg), [], 2, 0, Video);
    LineIsWired(am, AudioTrunk(cfg), [], 2, 0, Audio);
    assert vm + VideoTrunk(cfg) + [] == vm + VideoTrunk(cfg) && am + AudioTrunk(cfg) + [] == am + AudioTrunk(cfg);
  }

  lemma TrunksAreSome(cfg: Config)
    ensures VideoTrunk(cfg) != [] && AudioTrunk(cfg) != []
  {
  }

  lemma OutputLinesAreSome(cfg: Config, o: nat, rtp: bool)
    ensures NetworkVideo(cfg, o, rtp) != [] && NetworkAudio(cfg, o, rtp) != []
    ensures DeviceVideo(o) != [] && DeviceAudio(o) != []
  {
  }

  lemma DevicePartIsWired(cfg: Config, o: nat)
    ensures WellWired(DevicePart(cfg, o).links)
  {
    hide DeviceVideo, DeviceAudio, Chain, Stage, TrackOf, Alike;
    OutputLinesAreAlike(cfg, o, false);
    OutputLinesAreSome(cfg, o, false);
    Ends();
    var vt, at := [Element(VideoTee, 0)], [Element(AudioTee, 0)];
    LineIsWired(vt, DeviceVideo(o), [], 3, o, Video);
    LineIsWired(at, DeviceAudio(o), [], 3, o, Audio);
    assert vt + DeviceVideo(o) + [] == vt + DeviceVideo(o) && at + DeviceAudio(o) + [] == at + DeviceAudio(o);
  }

  lemma NetworkPartIsWired(cfg: Config, o: nat, rtp: bool)
    ensures WellWired(NetworkPart(cfg, o, rtp).links)
  {
    hide NetworkVideo, NetworkAudio, NetworkAudioAdded, Chain, Stage, TrackOf, Alike;
    OutputLinesAreAlike(cfg, o, rtp);
    AudioLineIsAlike(cfg, o, rtp);
    OutputLinesAreSome(cfg, o, rtp);
    Ends();
    var mux := [Element(Muxer, o)];
    LineIsWired([Element(VideoTee, 0)], NetworkVideo(cfg, o, rtp), mux, 3, o, Video);
    LineIsWired([Element(AudioTee, 0)], NetworkAudio(cfg, o, rtp), mux, 3, o, Audio);
  }

  lemma {:induction false} InputsAreWired(cfg: Config, n: nat)
    ensures WellWired(InputParts(cfg, n).links)
  {
    hide InputPart, Wired;
    if n > 0 {
      InputsAreWired(cfg, n - 1);
      InputIsWired(cfg, n - 1);
    }
  }

  lemma {:induction false} OutputsAreWired(cfg: Config, n: nat)
    requires n <= |cfg.outputs|
    ensures WellWired(OutputParts(cfg, n).links)
  {
    hide DevicePart, NetworkPart, Wired;
    if n > 0 {
      OutputsAreWired(cfg, n - 1);
      match cfg.outputs[n - 1]
      case Device => DevicePartIsWired(cfg, n - 1);
      case Network(rtp) => NetworkPartIsWired(cfg, n - 1, rtp);
    }
  }

  /**
    For every configuration: no link joins two inputs or two outputs, goes back a stage or skips one, or
    joins video to audio other than at a source, a decoder, a muxer or a sink.
  */
  lemma PipelineIsWired(cfg: Config)
    ensures WellWired(Pipeline(cfg).links)
  {
    hide InputParts, OutputParts, Trunks, Wired;
    InputsAreWired(cfg, cfg.inputs);
    TrunkPartIsWired(cfg);
    OutputsAreWired(cfg, |cfg.outputs|);
  }
}
