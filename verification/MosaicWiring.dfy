/**
  The mosaic pipeline element by element: which elements it has, what each is linked from, and what every
  route from an input's queue to a network output passes.
*/
module MosaicWiring {
  import opened Wrappers
  import opened Elements
  import opened Mosaic
  import opened MosaicRoutes

  // ----------------------------------------------------------------- which elements there are

  predicate SharedBuilt(cfg: Config, role: Role) {
    match role
    case VideoMixer | AudioMixer => true
    case Cairo | VideoConvert | VideoTee => cfg.video
    case Deinterlace => cfg.video && cfg.deinterlace
    case AudioConvert | AudioTee => cfg.audio
    case AudioConvertCaps => cfg.audio && cfg.channels
    case Volume => cfg.audio && cfg.volume
    case _ => false
  }

  predicate InputBuilt(cfg: Config, role: Role) {
    match role
    case Source | Decodebin => true
    case VideoQueue | MuxScale | MuxScaleCaps | VideoBox => cfg.video
    case AudioQueue | Level => cfg.audio
    case _ => false
  }

  predicate OutputBuilt(cfg: Config, kind: OutputKind, role: Role) {
    match role
    case VideoTeeQueue => cfg.video
    case AudioTeeQueue => cfg.audio
    case VideoSink => kind.Device? && cfg.video
    case AudioSink => kind.Device? && cfg.audio
    case Muxer | Sink => kind.Network?
    case VideoCodec => kind.Network? && cfg.video
    case AspectRatio => kind.Network? && cfg.video && cfg.aspectRatio
    case VideoRate | VideoRateCaps => kind.Network? && cfg.video && cfg.frameRate
    case ProfileCaps => kind.Network? && cfg.video && cfg.profile
    case StreamFormatCaps => kind.Network? && cfg.video && cfg.streamFormat
    case VideoPay => kind == Network(true) && cfg.video
    case VideoParser => kind.Network? && cfg.video && cfg.h264
    case AudioCodec => kind.Network? && cfg.audio
    case AudioResample | AudioParse => kind.Network? && cfg.audio && cfg.mp3
    case AudioPay => kind == Network(true) && cfg.audio
    case _ => false
  }

  predicate Built(cfg: Config, e: Element) {
    || (e.id == 0 && SharedBuilt(cfg, e.role))
    || (e.id < cfg.inputs && InputBuilt(cfg, e.role))
    || (e.id < |cfg.outputs| && OutputBuilt(cfg, cfg.outputs[e.id], e.role))
  }

  lemma InWhen(condition: bool, x: Element, e: Element)
    ensures e in When(condition, x) <==> condition && e == x
  {
  }

  lemma InputHas(cfg: Config, i: nat, e: Element)
    ensures e in InputPart(cfg, i).elements <==> e.id == i && InputBuilt(cfg, e.role)
  {
    hide Chain;
  }

  lemma {:induction false} InputsHave(cfg: Config, n: nat, e: Element)
    ensures e in InputParts(cfg, n).elements <==> e.id < n && InputBuilt(cfg, e.role)
  {
    hide InputPart, InputBuilt;
    if n > 0 {
      InputsHave(cfg, n - 1, e);
      InputHas(cfg, n - 1, e);
    }
  }

  lemma SharedHave(cfg: Config, e: Element)
    ensures e in Mixers().elements || e in Trunks(cfg).elements <==> e.id == 0 && SharedBuilt(cfg, e.role)
  {
    hide Chain, VideoTrunk, AudioTrunk, SharedBuilt;
    VideoTrunkHas(cfg, e);
    AudioTrunkHas(cfg, e);
    SharedIs(cfg, e.role);
  }

  lemma VideoTrunkHas(cfg: Config, e: Element)
    ensures e in VideoTrunk(cfg)
            <==> e.id == 0 && (e.role.Cairo? || e.role.VideoConvert? || e.role.VideoTee?
                               || (e.role.Deinterlace? && cfg.deinterlace))
  {
    hide When;
    InWhen(cfg.deinterlace, Element(Deinterlace, 0), e);
  }

  lemma AudioTrunkHas(cfg: Config, e: Element)
    ensures e in AudioTrunk(cfg)
            <==> e.id == 0 && (e.role.AudioConvert? || e.role.AudioTee? || (e.role.AudioConvertCaps? && cfg.channels)
                               || (e.role.Volume? && cfg.volume))
  {
    hide When;
    InWhen(cfg.channels, Element(AudioConvertCaps, 0), e);
    InWhen(cfg.volume, Element(Volume, 0), e);
  }

  lemma SharedIs(cfg: Config, role: Role)
    ensures SharedBuilt(cfg, role)
            <==> role.VideoMixer? || role.AudioMixer?
                 || (cfg.video && (role.Cairo? || role.VideoConvert? || role.VideoTee?
                                   || (role.Deinterlace? && cfg.deinterlace)))
                 || (cfg.audio && (role.AudioConvert? || role.AudioTee? || (role.AudioConvertCaps? && cfg.channels)
                                   || (role.Volume? && cfg.volume)))
  {
  }

  lemma DeviceHas(cfg: Config, o: nat, e: Element)
    ensures e in DevicePart(cfg, o).elements <==> e.id == o && OutputBuilt(cfg, Device, e.role)
  {
    hide Chain;
  }

  lemma VideoLineHas(cfg: Config, o: nat, rtp: bool, e: Element)
    requires cfg.video
    ensures e in NetworkVideo(cfg, o, rtp)
            <==> e.id == o && TrackOf(e.role).Video? && OutputBuilt(cfg, Network(rtp), e.role)
  {
    ShapingHas(cfg, o, e);
    EncodingAndPackingHave(cfg, o, rtp, e);
    hide VideoShaping, VideoEncoding, VideoPacking, When;
  }

  lemma ShapingHas(cfg: Config, o: nat, e: Element)
    ensures e in VideoShaping(cfg, o)
            <==> e.id == o && (e.role.VideoTeeQueue? || (cfg.aspectRatio && e.role.AspectRatio?)
                               || (cfg.frameRate && (e.role.VideoRate? || e.role.VideoRateCaps?)))
  {
    hide When;
    InWhen(cfg.aspectRatio, Element(AspectRatio, o), e);
    InWhen(cfg.frameRate, Element(VideoRate, o), e);
    InWhen(cfg.frameRate, Element(VideoRateCaps, o), e);
  }

  lemma EncodingAndPackingHave(cfg: Config, o: nat, rtp: bool, e: Element)
    ensures e in VideoEncoding(cfg, o) + VideoPacking(cfg, o, rtp)
            <==> e.id == o && (e.role.VideoCodec? || (cfg.profile && e.role.ProfileCaps?)
                               || (cfg.streamFormat && e.role.StreamFormatCaps?)
                               || (rtp && e.role.VideoPay?) || (cfg.h264 && e.role.VideoParser?))
  {
    hide When;
    InWhen(cfg.profile, Element(ProfileCaps, o), e);
    InWhen(cfg.streamFormat, Element(StreamFormatCaps, o), e);
    InWhen(rtp, Element(VideoPay, o), e);
    InWhen(cfg.h264, Element(VideoParser, o), e);
  }

  lemma AudioLineHas(cfg: Config, o: nat, rtp: bool, e: Element)
    requires cfg.audio
    ensures e in NetworkAudioAdded(cfg, o, rtp)
            <==> e.id == o && TrackOf(e.role).Audio? && OutputBuilt(cfg, Network(rtp), e.role)
  {
    hide When;
    InWhen(cfg.mp3, Element(AudioResample, o), e);
    InWhen(cfg.mp3, Element(AudioParse, o), e);
    InWhen(rtp, Element(AudioPay, o), e);
  }

  lemma NetworkHas(cfg: Config, o: nat, rtp: bool, e: Element)
    ensures e in NetworkPart(cfg, o, rtp).elements <==> e.id == o && OutputBuilt(cfg, Network(rtp), e.role)
  {
    hide Chain, NetworkVideo, NetworkAudio, NetworkAudioAdded;
    if cfg.video {
      VideoLineHas(cfg, o, rtp, e);
    }
    if cfg.audio {
      AudioLineHas(cfg, o, rtp, e);
    }
    OutputTracks(cfg, rtp, e.role);
  }

  lemma OutputTracks(cfg: Config, rtp: bool, role: Role)
    ensures OutputBuilt(cfg, Network(rtp), role) ==>
              match TrackOf(role)
              case Video => cfg.video
              case Audio => cfg.audio
              case Both => role.Muxer? || role.Sink?
  {
  }

  lemma {:induction false} OutputsHave(cfg: Config, n: nat, e: Element)
    requires n <= |cfg.outputs|
    ensures e in OutputParts(cfg, n).elements <==> e.id < n && OutputBuilt(cfg, cfg.outputs[e.id], e.role)
  {
    hide DevicePart, NetworkPart, OutputBuilt;
    if n > 0 {
      OutputsHave(cfg, n - 1, e);
      match cfg.outputs[n - 1]
      case Device => DeviceHas(cfg, n - 1, e);
      case Network(rtp) => NetworkHas(cfg, n - 1, rtp, e);
    }
  }

  /** For every configuration the pipeline has exactly the elements asked for. */
  lemma ElementsIff(cfg: Config, e: Element)
    ensures e in Pipeline(cfg).elements <==> Built(cfg, e)
  {
    hide InputParts, Trunks, OutputParts, Mixers, InputBuilt, SharedBuilt, OutputBuilt;
    InputsHave(cfg, cfg.inputs, e);
    SharedHave(cfg, e);
    OutputsHave(cfg, |cfg.outputs|, e);
  }

  // ----------------------------------------------------------------- what each element is linked from

  /** What delivers the raw, the encoded and the packed video of a network output. */
  function RawEnd(cfg: Config): Role {
    if cfg.frameRate then VideoRateCaps else if cfg.aspectRatio then AspectRatio else VideoTeeQueue
  }

  function EncodedEnd(cfg: Config): Role {
    if cfg.streamFormat then StreamFormatCaps else if cfg.profile then ProfileCaps else VideoCodec
  }

  function PackedEnd(cfg: Config, rtp: bool): Role {
    if cfg.h264 then VideoParser else if rtp then VideoPay else EncodedEnd(cfg)
  }

  function PackedAudioEnd(cfg: Config, rtp: bool): Role {
    if rtp then AudioPay else if cfg.mp3 then AudioParse else AudioCodec
  }

  /** Within one input. */
  predicate InputJoined(cfg: Config, from: Role, to: Role) {
    match to
    case Decodebin => from == Source
    case MuxScale => cfg.video && from == VideoQueue
    case MuxScaleCaps => cfg.video && from == MuxScale
    case VideoBox => cfg.video && from == MuxScaleCaps
    case Level => cfg.audio && from == AudioQueue
    case _ => false
  }

  /** Behind the mixers. */
  predicate SharedJoined(cfg: Config, from: Role, to: Role) {
    match to
    case Cairo => cfg.video && from == VideoMixer
    case VideoConvert => cfg.video && from == Cairo
    case Deinterlace => cfg.video && cfg.deinterlace && from == VideoConvert
    case VideoTee => cfg.video && from == if cfg.deinterlace then Deinterlace else VideoConvert
    case AudioConvert => cfg.audio && from == AudioMixer
    case AudioConvertCaps => cfg.audio && cfg.channels && from == AudioConvert
    case Volume => cfg.audio && cfg.volume && from == if cfg.channels then AudioConvertCaps else AudioConvert
    case AudioTee =>
      cfg.audio && from == if cfg.volume then Volume else if cfg.channels then AudioConvertCaps else AudioConvert
    case _ => false
  }

  predicate VideoJoined(cfg: Config, rtp: bool, from: Role, to: Role) {
    match to
    case AspectRatio => cfg.aspectRatio && from == VideoTeeQueue
    case VideoRate => cfg.frameRate && from == if cfg.aspectRatio then AspectRatio else VideoTeeQueue
    case VideoRateCaps => cfg.frameRate && from == VideoRate
    case VideoCodec => from == RawEnd(cfg)
    case ProfileCaps => cfg.profile && from == VideoCodec
    case StreamFormatCaps => cfg.streamFormat && from == if cfg.profile then ProfileCaps else VideoCodec
    case VideoPay => rtp && from == EncodedEnd(cfg)
    case VideoParser => cfg.h264 && from == if rtp then VideoPay else EncodedEnd(cfg)
    case Muxer => from == PackedEnd(cfg, rtp)
    case _ => false
  }

  predicate AudioJoined(cfg: Config, rtp: bool, from: Role, to: Role) {
    match to
    case AudioResample => cfg.mp3 && from == AudioTeeQueue
    case AudioCodec => from == if cfg.mp3 then AudioResample else AudioTeeQueue
    case AudioParse => cfg.mp3 && from == AudioCodec
    case AudioPay => rtp && from == if cfg.mp3 then AudioParse else AudioCodec
    case Muxer => from == PackedAudioEnd(cfg, rtp)
    case _ => false
  }

  /** Within one output. */
  predicate OutputJoined(cfg: Config, kind: OutputKind, from: Role, to: Role) {
    match kind
    case Device =>
      || (cfg.video && from == VideoTeeQueue && to == VideoSink)
      || (cfg.audio && from == AudioTeeQueue && to == AudioSink)
    case Network(rtp) =>
      || (cfg.video && VideoJoined(cfg, rtp, from, to))
      || (cfg.audio && AudioJoined(cfg, rtp, from, to))
      || (from == Muxer && to == Sink)
  }

  /** From each input to the mixers, and from the tees to each output. */
  predicate IntoMixer(cfg: Config, a: Element, b: Element) {
    || (cfg.video && a.role == VideoBox && b == Element(VideoMixer, 0))
    || (cfg.audio && a.role == Level && b == Element(AudioMixer, 0))
  }

  predicate OutOfTee(cfg: Config, a: Element, b: Element) {
    || (cfg.video && a == Element(VideoTee, 0) && b.role == VideoTeeQueue)
    || (cfg.audio && a == Element(AudioTee, 0) && b.role == AudioTeeQueue)
  }

  predicate Joined(cfg: Config, a: Element, b: Element) {
    || (a.id < cfg.inputs && ((a.id == b.id && InputJoined(cfg, a.role, b.role)) || IntoMixer(cfg, a, b)))
    || (a.id == 0 == b.id && SharedJoined(cfg, a.role, b.role))
    || (b.id < |cfg.outputs|
        && ((a.id == b.id && OutputJoined(cfg, cfg.outputs[b.id], a.role, b.role)) || OutOfTee(cfg, a, b)))
  }

  function Last(line: seq<Element>): Element
    requires line != []
  {
    line[|line| - 1]
  }

  /** A line that grows by an element is linked to it from its end. */
  lemma Longer(line: seq<Element>, condition: bool, e: Element, a: Element, b: Element)
    requires line != []
    ensures var longer := line + When(condition, e);
            && longer != []
            && ((a, b) in Chain(longer) <==> (a, b) in Chain(line) || (condition && a == Last(line) && b == e))
            && Last(longer) == if condition then e else Last(line)
  {
    var longer := line + When(condition, e);
    if condition {
      assert longer[..|longer| - 1] == line;
    } else {
      assert longer == line;
    }
  }

  lemma Alone(e: Element, a: Element, b: Element)
    ensures (a, b) !in Chain([e]) && Last([e]) == e
  {
  }

  lemma Always(e: Element)
    ensures When(true, e) == [e]
  {
  }

  lemma Regroup(a: seq<Element>, b: seq<Element>, c: seq<Element>, d: seq<Element>, e: seq<Element>)
    ensures a + (b + c) == a + b + c
    ensures a + (b + c + d) == a + b + c + d
    ensures a + (b + c + d + e) == a + b + c + d + e
  {
  }

  lemma InputJoins(cfg: Config, i: nat, a: Element, b: Element)
    ensures (a, b) in InputPart(cfg, i).links
            <==> a.id == i && ((a.id == b.id && InputJoined(cfg, a.role, b.role)) || IntoMixer(cfg, a, b))
  {
    VideoBranchJoins(i, a, b);
    AudioBranchJoins(i, a, b);
    hide Chain, VideoBranch, AudioBranch;
  }

  lemma VideoBranchJoins(i: nat, a: Element, b: Element)
    ensures (a, b) in Chain(VideoBranch(i) + [Element(VideoMixer, 0)])
            <==> a.id == i && match a.role
                              case VideoQueue => b == Element(MuxScale, i)
                              case MuxScale => b == Element(MuxScaleCaps, i)
                              case MuxScaleCaps => b == Element(VideoBox, i)
                              case VideoBox => b == Element(VideoMixer, 0)
                              case _ => false
  {
    hide Chain, When, Last;
    var q, s, c, x, m := Element(VideoQueue, i), Element(MuxScale, i), Element(MuxScaleCaps, i), Element(VideoBox, i),
                         Element(VideoMixer, 0);
    Alone(q, a, b);
    Longer([q], true, s, a, b);
    Always(s);
    Longer([q] + [s], true, c, a, b);
    Always(c);
    Longer([q] + [s] + [c], true, x, a, b);
    Always(x);
    Longer([q] + [s] + [c] + [x], true, m, a, b);
    Always(m);
    assert VideoBranch(i) + [m] == [q] + [s] + [c] + [x] + [m];
  }

  lemma AudioBranchJoins(i: nat, a: Element, b: Element)
    ensures (a, b) in Chain(AudioBranch(i) + [Element(AudioMixer, 0)])
            <==> (a == Element(AudioQueue, i) && b == Element(Level, i))
                 || (a == Element(Level, i) && b == Element(AudioMixer, 0))
  {
    hide Chain, When, Last;
    var q, l, m := Element(AudioQueue, i), Element(Level, i), Element(AudioMixer, 0);
    Alone(q, a, b);
    Longer([q], true, l, a, b);
    Always(l);
    Longer([q] + [l], true, m, a, b);
    Always(m);
    assert AudioBranch(i) + [m] == [q] + [l] + [m];
  }

  lemma {:induction false} InputsJoin(cfg: Config, n: nat, a: Element, b: Element)
    ensures (a, b) in InputParts(cfg, n).links
            <==> a.id < n && ((a.id == b.id && InputJoined(cfg, a.role, b.role)) || IntoMixer(cfg, a, b))
  {
    hide InputPart, InputJoined, IntoMixer;
    if n > 0 {
      InputsJoin(cfg, n - 1, a, b);
      InputJoins(cfg, n - 1, a, b);
    }
  }

  lemma VideoTrunkJoins(cfg: Config, a: Element, b: Element)
    requires cfg.video
    ensures (a, b) in Chain([Element(VideoMixer, 0)] + VideoTrunk(cfg))
            <==> a.id == 0 == b.id && TrackOf(b.role).Video? && SharedJoined(cfg, a.role, b.role)
  {
    hide Chain, When, Last;
    var m, c, v, d, t := Element(VideoMixer, 0), Element(Cairo, 0), Element(VideoConvert, 0), Element(Deinterlace, 0),
                         Element(VideoTee, 0);
    Alone(m, a, b);
    Longer([m], true, c, a, b);
    Always(c);
    Longer([m] + [c], true, v, a, b);
    Always(v);
    var line := [m] + [c] + [v];
    Longer(line, cfg.deinterlace, d, a, b);
    Longer(line + When(cfg.deinterlace, d), true, t, a, b);
    Always(t);
    assert [m] + VideoTrunk(cfg) == line + When(cfg.deinterlace, d) + [t];
  }

  lemma AudioTrunkJoins(cfg: Config, a: Element, b: Element)
    requires cfg.audio
    ensures (a, b) in Chain([Element(AudioMixer, 0)] + AudioTrunk(cfg))
            <==> a.id == 0 == b.id && TrackOf(b.role).Audio? && SharedJoined(cfg, a.role, b.role)
  {
    hide Chain, When, Last;
    var m, c, f, v, t := Element(AudioMixer, 0), Element(AudioConvert, 0), Element(AudioConvertCaps, 0), Element(Volume, 0),
                         Element(AudioTee, 0);
    Alone(m, a, b);
    Longer([m], true, c, a, b);
    Always(c);
    var line := [m] + [c];
    Longer(line, cfg.channels, f, a, b);
    Longer(line + When(cfg.channels, f), cfg.volume, v, a, b);
    Longer(line + When(cfg.channels, f) + When(cfg.volume, v), true, t, a, b);
    Always(t);
    Regroup([m], [c], When(cfg.channels, f), When(cfg.volume, v), [t]);
  }

  lemma SharedTracks(cfg: Config, from: Role, to: Role)
    ensures SharedJoined(cfg, from, to) ==> (TrackOf(to).Video? && cfg.video) || (TrackOf(to).Audio? && cfg.audio)
  {
  }

  lemma SharedJoin(cfg: Config, a: Element, b: Element)
    ensures (a, b) in Trunks(cfg).links <==> a.id == 0 == b.id && SharedJoined(cfg, a.role, b.role)
  {
    hide Chain, VideoTrunk, AudioTrunk, SharedJoined, TrackOf;
    SharedTracks(cfg, a.role, b.role);
    if cfg.video {
      VideoTrunkJoins(cfg, a, b);
    }
    if cfg.audio {
      AudioTrunkJoins(cfg, a, b);
    }
  }

  lemma DeviceJoins(cfg: Config, o: nat, a: Element, b: Element)
    ensures (a, b) in DevicePart(cfg, o).links
            <==> b.id == o && ((a.id == b.id && OutputJoined(cfg, Device, a.role, b.role)) || OutOfTee(cfg, a, b))
  {
    hide Chain, When, Last;
    var vt, vq, vs := Element(VideoTee, 0), Element(VideoTeeQueue, o), Element(VideoSink, o);
    var at, aq, asink := Element(AudioTee, 0), Element(AudioTeeQueue, o), Element(AudioSink, o);
    ThreeInALine(vt, vq, vs, a, b);
    ThreeInALine(at, aq, asink, a, b);
    assert [vt] + DeviceVideo(o) == [vt, vq, vs] && [at] + DeviceAudio(o) == [at, aq, asink];
  }

  lemma ThreeInALine(x: Element, y: Element, z: Element, a: Element, b: Element)
    ensures (a, b) in Chain([x, y, z]) <==> (a == x && b == y) || (a == y && b == z)
  {
    hide Chain, When, Last;
    Alone(x, a, b);
    Longer([x], true, y, a, b);
    Always(y);
    Longer([x] + [y], true, z, a, b);
    Always(z);
    assert [x, y, z] == [x] + [y] + [z];
  }

  lemma ShapingJoins(cfg: Config, o: nat, a: Element, b: Element)
    ensures var line := [Element(VideoTee, 0)] + VideoShaping(cfg, o);
            && Last(line) == Element(RawEnd(cfg), o)
            && ((a, b) in Chain(line)
                <==> (a == Element(VideoTee, 0) && b == Element(VideoTeeQueue, o))
                     || (a.id == o == b.id && VideoJoined(cfg, false, a.role, b.role)
                         && (b.role.AspectRatio? || b.role.VideoRate? || b.role.VideoRateCaps?)))
  {
    hide Chain, When, Last;
    var t, q, r := Element(VideoTee, 0), Element(VideoTeeQueue, o), Element(AspectRatio, o);
    var f, c := Element(VideoRate, o), Element(VideoRateCaps, o);
    Alone(t, a, b);
    Longer([t], true, q, a, b);
    Always(q);
    var line := [t] + [q];
    Longer(line, cfg.aspectRatio, r, a, b);
    line := line + When(cfg.aspectRatio, r);
    Longer(line, cfg.frameRate, f, a, b);
    line := line + When(cfg.frameRate, f);
    Longer(line, cfg.frameRate, c, a, b);
    Regroup([t], [q], When(cfg.aspectRatio, r), When(cfg.frameRate, f), When(cfg.frameRate, c));
  }

  lemma EncodingJoins(cfg: Config, o: nat, before: seq<Element>, a: Element, b: Element)
    requires before != [] && Last(before) == Element(RawEnd(cfg), o)
    ensures var line := before + VideoEncoding(cfg, o);
            && line != [] && Last(line) == Element(EncodedEnd(cfg), o)
            && ((a, b) in Chain(line)
                <==> (a, b) in Chain(before)
                     || (a.id == o == b.id && VideoJoined(cfg, false, a.role, b.role)
                         && (b.role.VideoCodec? || b.role.ProfileCaps? || b.role.StreamFormatCaps?)))
  {
    hide Chain, When, Last, RawEnd;
    var e, p, f := Element(VideoCodec, o), Element(ProfileCaps, o), Element(StreamFormatCaps, o);
    Longer(before, true, e, a, b);
    Always(e);
    var line := before + [e];
    Longer(line, cfg.profile, p, a, b);
    Longer(line + When(cfg.profile, p), cfg.streamFormat, f, a, b);
    Regroup(before, [e], When(cfg.profile, p), When(cfg.streamFormat, f), []);
  }

  lemma PackingJoins(cfg: Config, o: nat, rtp: bool, before: seq<Element>, a: Element, b: Element)
    requires before != [] && Last(before) == Element(EncodedEnd(cfg), o)
    ensures var line := before + VideoPacking(cfg, o, rtp);
            && line != [] && Last(line) == Element(PackedEnd(cfg, rtp), o)
            && ((a, b) in Chain(line)
                <==> (a, b) in Chain(before)
                     || (a.id == o == b.id && VideoJoined(cfg, rtp, a.role, b.role)
                         && (b.role.VideoPay? || b.role.VideoParser?)))
  {
    hide Chain, When, Last, RawEnd, EncodedEnd;
    var p, h := Element(VideoPay, o), Element(VideoParser, o);
    Longer(before, rtp, p, a, b);
    Longer(before + When(rtp, p), cfg.h264, h, a, b);
    Regroup(before, When(rtp, p), When(cfg.h264, h), [], []);
  }

  lemma VideoLineJoins(cfg: Config, o: nat, rtp: bool, a: Element, b: Element)
    ensures (a, b) in Chain([Element(VideoTee, 0)] + NetworkVideo(cfg, o, rtp) + [Element(Muxer, o)])
            <==> (a == Element(VideoTee, 0) && b == Element(VideoTeeQueue, o))
                 || (a.id == o == b.id && VideoJoined(cfg, rtp, a.role, b.role))
  {
    hide Chain, When, Last, RawEnd, EncodedEnd, PackedEnd, VideoShaping, VideoEncoding, VideoPacking;
    var t, m := [Element(VideoTee, 0)], Element(Muxer, o);
    ShapingJoins(cfg, o, a, b);
    EncodingJoins(cfg, o, t + VideoShaping(cfg, o), a, b);
    var line := t + VideoShaping(cfg, o) + VideoEncoding(cfg, o);
    PackingJoins(cfg, o, rtp, line, a, b);
    Longer(line + VideoPacking(cfg, o, rtp), true, m, a, b);
    Always(m);
    Regroup(t, VideoShaping(cfg, o), VideoEncoding(cfg, o), VideoPacking(cfg, o, rtp), []);
  }

  /** Up to the encoder. */
  lemma AudioEncoderJoins(cfg: Config, o: nat, a: Element, b: Element)
    ensures var line := [Element(AudioTee, 0)] + [Element(AudioTeeQueue, o)] + When(cfg.mp3, Element(AudioResample, o))
                        + [Element(AudioCodec, o)];
            && Last(line) == Element(AudioCodec, o)
            && ((a, b) in Chain(line)
                <==> (a == Element(AudioTee, 0) && b == Element(AudioTeeQueue, o))
                     || (a.id == o == b.id && AudioJoined(cfg, false, a.role, b.role)
                         && (b.role.AudioResample? || b.role.AudioCodec?)))
  {
    hide Chain, When, Last;
    var t, q, r := Element(AudioTee, 0), Element(AudioTeeQueue, o), Element(AudioResample, o);
    var c := Element(AudioCodec, o);
    Alone(t, a, b);
    Longer([t], true, q, a, b);
    Always(q);
    Longer([t] + [q], cfg.mp3, r, a, b);
    Longer([t] + [q] + When(cfg.mp3, r), true, c, a, b);
    Always(c);
  }

  /** From the encoder on. */
  lemma AudioPackingJoins(cfg: Config, o: nat, rtp: bool, before: seq<Element>, a: Element, b: Element)
    requires before != [] && Last(before) == Element(AudioCodec, o)
    ensures (a, b) in Chain(before + When(cfg.mp3, Element(AudioParse, o)) + When(rtp, Element(AudioPay, o))
                            + [Element(Muxer, o)])
            <==> (a, b) in Chain(before)
                 || (a.id == o == b.id && AudioJoined(cfg, rtp, a.role, b.role)
                     && (b.role.AudioParse? || b.role.AudioPay? || b.role.Muxer?))
  {
    hide Chain, When, Last;
    var p, y, m := Element(AudioParse, o), Element(AudioPay, o), Element(Muxer, o);
    Longer(before, cfg.mp3, p, a, b);
    var line := before + When(cfg.mp3, p);
    Longer(line, rtp, y, a, b);
    Longer(line + When(rtp, y), true, m, a, b);
    Always(m);
  }

  lemma AudioLineJoins(cfg: Config, o: nat, rtp: bool, a: Element, b: Element)
    ensures (a, b) in Chain([Element(AudioTee, 0)] + NetworkAudio(cfg, o, rtp) + [Element(Muxer, o)])
            <==> (a == Element(AudioTee, 0) && b == Element(AudioTeeQueue, o))
                 || (a.id == o == b.id && AudioJoined(cfg, rtp, a.role, b.role))
  {
    hide Chain, When, Last;
    var t, q, r := [Element(AudioTee, 0)], [Element(AudioTeeQueue, o)], When(cfg.mp3, Element(AudioResample, o));
    var c, p, y := [Element(AudioCodec, o)], When(cfg.mp3, Element(AudioParse, o)), When(rtp, Element(AudioPay, o));
    AudioEncoderJoins(cfg, o, a, b);
    AudioPackingJoins(cfg, o, rtp, t + q + r + c, a, b);
    Regroup(t, q, r, c, p);
    Regroup(t, q + r + c + p, y, [], []);
  }

  lemma NetworkJoins(cfg: Config, o: nat, rtp: bool, a: Element, b: Element)
    ensures (a, b) in NetworkPart(cfg, o, rtp).links
            <==> b.id == o && ((a.id == b.id && OutputJoined(cfg, Network(rtp), a.role, b.role)) || OutOfTee(cfg, a, b))
  {
    hide Chain, NetworkVideo, NetworkAudio, NetworkAudioAdded, VideoJoined, AudioJoined;
    VideoLineJoins(cfg, o, rtp, a, b);
    AudioLineJoins(cfg, o, rtp, a, b);
  }

  lemma {:induction false} OutputsJoin(cfg: Config, n: nat, a: Element, b: Element)
    requires n <= |cfg.outputs|
    ensures (a, b) in OutputParts(cfg, n).links
            <==> b.id < n && ((a.id == b.id && OutputJoined(cfg, cfg.outputs[b.id], a.role, b.role)) || OutOfTee(cfg, a, b))
  {
    hide DevicePart, NetworkPart, OutputJoined, OutOfTee;
    if n > 0 {
      OutputsJoin(cfg, n - 1, a, b);
      match cfg.outputs[n - 1]
      case Device => DeviceJoins(cfg, n - 1, a, b);
      case Network(rtp) => NetworkJoins(cfg, n - 1, rtp, a, b);
    }
  }

  /** For every configuration the pipeline has exactly these links. */
  lemma LinksIff(cfg: Config, a: Element, b: Element)
    ensures (a, b) in Pipeline(cfg).links <==> Joined(cfg, a, b)
  {
    hide InputParts, Trunks, OutputParts, InputJoined, SharedJoined, OutputJoined, IntoMixer, OutOfTee;
    InputsJoin(cfg, cfg.inputs, a, b);
    SharedJoin(cfg, a, b);
    OutputsJoin(cfg, |cfg.outputs|, a, b);
  }

  // ----------------------------------------------------------------- what every route passes

  /** How far along the line of a network output the elements of its video, or of its audio, are. */
  function Along(role: Role): nat {
    match role
    case VideoTeeQueue | AudioTeeQueue => 0
    case AspectRatio | AudioResample => 1
    case VideoRate | AudioCodec => 2
    case VideoRateCaps | AudioParse => 3
    case VideoCodec | AudioPay => 4
    case ProfileCaps => 5
    case StreamFormatCaps => 6
    case VideoPay => 7
    case VideoParser => 8
    case _ => 9
  }

  /** In another output, or on the track of `x` before the outputs or earlier on the line of `x`. */
  predicate Upstream(x: Element, e: Element) {
    if Stage(e.role) == 3 && e.id != x.id then true
    else TrackOf(e.role) == TrackOf(x.role) && (Stage(e.role) < 3 || Along(e.role) < Along(x.role))
  }

  /** An element between the tee and the muxer of a network output. */
  predicate OnLine(cfg: Config, x: Element) {
    && x.id < |cfg.outputs| && cfg.outputs[x.id].Network?
    && Along(x.role) < 9 && OutputBuilt(cfg, cfg.outputs[x.id], x.role)
  }

  /** Further on the line of `x`. */
  predicate Behind(x: Element, e: Element) {
    e.id == x.id && TrackOf(e.role) == TrackOf(x.role) && Along(x.role) < Along(e.role) < 9
  }

  lemma VideoStep(cfg: Config, rtp: bool, x: Role, from: Role, to: Role)
    requires VideoJoined(cfg, rtp, from, to) && cfg.video && OutputBuilt(cfg, Network(rtp), x)
    requires TrackOf(x).Video? && TrackOf(from).Video? && Along(from) < Along(x) < 9
    ensures to == x || (TrackOf(to).Video? && Along(to) < Along(x))
  {
  }

  lemma AudioStep(cfg: Config, rtp: bool, x: Role, from: Role, to: Role)
    requires AudioJoined(cfg, rtp, from, to) && cfg.audio && OutputBuilt(cfg, Network(rtp), x)
    requires TrackOf(x).Audio? && TrackOf(from).Audio? && Along(from) < Along(x) < 9
    ensures to == x || (TrackOf(to).Audio? && Along(to) < Along(x))
  {
  }

  /** No link skips an element of the line. */
  lemma LinkStaysUpstream(cfg: Config, x: Element, a: Element, b: Element)
    requires OnLine(cfg, x) && Joined(cfg, a, b) && Upstream(x, a)
    ensures b == x || Upstream(x, b)
  {
    if b.id < |cfg.outputs| && a.id == b.id && OutputJoined(cfg, cfg.outputs[b.id], a.role, b.role) {
      OutputLinkStaysUpstream(cfg, x, a, b);
    } else {
      hide OutputJoined, OutputBuilt;
      EarlierLinkStaysUpstream(cfg, x, a, b);
    }
  }

  lemma OutputLinkStaysUpstream(cfg: Config, x: Element, a: Element, b: Element)
    requires OnLine(cfg, x) && Upstream(x, a)
    requires b.id < |cfg.outputs| && a.id == b.id && OutputJoined(cfg, cfg.outputs[b.id], a.role, b.role)
    ensures b == x || Upstream(x, b)
  {
    hide VideoJoined, AudioJoined, OutputBuilt, Along;
    OutputRolesAreLast(cfg, cfg.outputs[b.id], a.role, b.role);
    LineTracks(cfg, cfg.outputs[x.id].rtp, x.role, a.role, b.role);
    if a.id == x.id {
      var rtp := cfg.outputs[x.id].rtp;
      if cfg.video && VideoJoined(cfg, rtp, a.role, b.role) {
        if TrackOf(x.role).Video? {
          VideoStep(cfg, rtp, x.role, a.role, b.role);
        }
      }
      if cfg.audio && AudioJoined(cfg, rtp, a.role, b.role) {
        if TrackOf(x.role).Audio? {
          AudioStep(cfg, rtp, x.role, a.role, b.role);
        }
      }
    }
  }

  lemma VideoRanks(cfg: Config, rtp: bool, from: Role, to: Role)
    requires VideoJoined(cfg, rtp, from, to)
    ensures 19 <= Rank(from) < 29 && 18 <= Rank(to) < 29
  {
  }

  lemma AudioRanks(cfg: Config, rtp: bool, from: Role, to: Role)
    requires AudioJoined(cfg, rtp, from, to)
    ensures 29 <= Rank(from) < 35 && 18 <= Rank(to) < 35
  {
  }

  lemma ByRank(role: Role)
    ensures 18 <= Rank(role) ==> Stage(role) == 3
    ensures 19 <= Rank(role) < 29 ==> TrackOf(role).Video?
    ensures 29 <= Rank(role) < 35 ==> TrackOf(role).Audio?
  {
    hide Rank;
  }

  lemma OutputRolesAreLast(cfg: Config, kind: OutputKind, from: Role, to: Role)
    requires OutputJoined(cfg, kind, from, to)
    ensures Stage(from) == 3 == Stage(to)
  {
    hide VideoJoined, AudioJoined, Stage;
    ByRank(from);
    ByRank(to);
    Ends();
    if kind.Network? {
      if VideoJoined(cfg, kind.rtp, from, to) {
        VideoRanks(cfg, kind.rtp, from, to);
      }
      if AudioJoined(cfg, kind.rtp, from, to) {
        AudioRanks(cfg, kind.rtp, from, to);
      }
    }
  }

  lemma LineRanks(role: Role)
    requires Along(role) < 9
    ensures 19 <= Rank(role) < 35
  {
  }

  lemma LineTracks(cfg: Config, rtp: bool, x: Role, from: Role, to: Role)
    requires Along(x) < 9
    ensures TrackOf(x).Video? || TrackOf(x).Audio?
    ensures VideoJoined(cfg, rtp, from, to) ==> TrackOf(from).Video?
    ensures AudioJoined(cfg, rtp, from, to) ==> TrackOf(from).Audio?
    ensures TrackOf(Muxer).Both? && TrackOf(Sink).Both?
  {
    hide VideoJoined, AudioJoined, Along, TrackOf, Rank, Stage;
    LineRanks(x);
    ByRank(x);
    ByRank(from);
    if VideoJoined(cfg, rtp, from, to) {
      VideoRanks(cfg, rtp, from, to);
    }
    if AudioJoined(cfg, rtp, from, to) {
      AudioRanks(cfg, rtp, from, to);
    }
    Ends();
  }

  lemma EarlierLinkStaysUpstream(cfg: Config, x: Element, a: Element, b: Element)
    requires Along(x.role) < 9 && Upstream(x, a)
    requires InputJoined(cfg, a.role, b.role) || IntoMixer(cfg, a, b) || SharedJoined(cfg, a.role, b.role)
             || OutOfTee(cfg, a, b)
    ensures b == x || Upstream(x, b)
  {
    if OutOfTee(cfg, a, b) {
      hide InputJoined, IntoMixer, SharedJoined;
    } else {
      hide OutOfTee, Along;
      EarlierTracks(cfg, a, b);
      LineRanks(x.role);
      hide InputJoined, IntoMixer, SharedJoined, Rank, Stage, TrackOf;
    }
  }

  lemma EarlierTracks(cfg: Config, a: Element, b: Element)
    requires InputJoined(cfg, a.role, b.role) || IntoMixer(cfg, a, b) || SharedJoined(cfg, a.role, b.role)
    ensures Stage(a.role) < 3 && Stage(b.role) < 3
    ensures TrackOf(b.role) == TrackOf(a.role)
  {
  }

  lemma {:induction false} RouteStaysUpstream(cfg: Config, path: seq<Element>, x: Element, k: nat)
    requires OnLine(cfg, x) && path != [] && Upstream(x, path[0]) && k < |path|
    requires forall j :: 0 < j < |path| ==> (path[j - 1], path[j]) in Pipeline(cfg).links
    ensures x in path[..k + 1] || Upstream(x, path[k])
  {
    hide Pipeline, Joined, OnLine, Upstream;
    if k > 0 {
      RouteStaysUpstream(cfg, path, x, k - 1);
      assert path[..k + 1] == path[..k] + [path[k]];
      if x !in path[..k] {
        LinksIff(cfg, path[k - 1], path[k]);
        LinkStaysUpstream(cfg, x, path[k - 1], path[k]);
      }
    }
  }

  /**
    No video (audio) reaches a network output without passing its encoder, its payloader for udp, its parser
    for H.264, and all else that is configured: every route from an input's queue to the output's sink passes
    each element of the line, and the elements of the line in this order.
  */
  lemma EveryRoutePasses(cfg: Config, path: seq<Element>, i: nat, x: Element)
    requires OnLine(cfg, x)
    requires IsRoute(Pipeline(cfg).links, path,
                     Element(if TrackOf(x.role).Video? then VideoQueue else AudioQueue, i), Element(Sink, x.id))
    ensures x in path
    ensures forall k :: 0 <= k < |path| && Behind(x, path[k]) ==> x in path[..k]
  {
    hide Pipeline, OnLine, Upstream, Behind, TrackOf;
    QueueIsUpstream(cfg, x, i);
    RouteStaysUpstream(cfg, path, x, |path| - 1);
    assert path[..|path| - 1 + 1] == path;
    forall k | 0 <= k < |path| && Behind(x, path[k])
      ensures x in path[..k]
    {
      RouteStaysUpstream(cfg, path, x, k);
      BehindIsNotUpstream(x, path[k]);
      assert path[..k + 1] == path[..k] + [path[k]];
    }
  }

  lemma BehindIsNotUpstream(x: Element, e: Element)
    requires Behind(x, e)
    ensures !Upstream(x, e) && e != x
  {
    hide Along, Rank;
    LineRanks(e.role);
  }

  lemma QueueIsUpstream(cfg: Config, x: Element, i: nat)
    requires OnLine(cfg, x)
    ensures Upstream(x, Element(if TrackOf(x.role).Video? then VideoQueue else AudioQueue, i))
    ensures !Upstream(x, Element(Sink, x.id))
  {
    LineTracks(cfg, true, x.role, x.role, x.role);
  }
}
