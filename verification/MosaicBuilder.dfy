/** The mosaic builder and stream in the form they have: elements added and linked step by step. */
module MosaicBuilder {
  import opened Wrappers
  import opened Decimal
  import opened Names
  import opened Elements
  import opened Geometry
  import opened Mosaic
  import opened MosaicRoutes

  lemma ChainAppend(line: seq<Element>, next: Element)
    requires line != []
    ensures Chain(line + [next]) == Chain(line) + {(line[|line| - 1], next)}
  {
    assert (line + [next])[..|line|] == line;
  }

  lemma ChainOfOne(e: Element)
    ensures Chain([e]) == {}
  {
  }

  /** Two lines joined by a link. */
  lemma {:induction false} ChainConcat(a: seq<Element>, b: seq<Element>)
    requires a != [] && b != []
    ensures Chain(a + b) == Chain(a) + {(a[|a| - 1], b[0])} + Chain(b)
    decreases |b|
  {
    var n := |b| - 1;
    hide Chain;
    if n == 0 {
      ChainAppend(a, b[0]);
      ChainOfOne(b[0]);
      assert a + b == a + [b[0]] && b == [b[0]];
    } else {
      ChainConcat(a, b[..n]);
      ChainAppend(a + b[..n], b[n]);
      ChainAppend(b[..n], b[n]);
      LastJoins(a, b);
    }
  }

  lemma LastJoins(a: seq<Element>, b: seq<Element>)
    requires |b| > 1
    ensures (a + b[..|b| - 1]) + [b[|b| - 1]] == a + b && b[..|b| - 1] + [b[|b| - 1]] == b
  {
  }

  class MosaicStreamBuilder {
    const config: Config
    const screen: (nat, nat)
    var elements: seq<Element>
    var links: set<Link>
    /** The image rectangles handed to the stream. */
    var tiles: seq<Rect>

    ghost function Built(): Part
      reads this
    {
      Part(elements, links)
    }

    constructor (config: Config, screen: (nat, nat))
      ensures this.config == config && this.screen == screen && Built() == NO_PART && tiles == []
    {
      this.config, this.screen := config, screen;
      elements, links, tiles := [], {}, [];
    }

    method ElementAdd(e: Element)
      modifies this`elements
      ensures elements == old(elements) + [e]
    {
      elements := elements + [e];
    }

    method ElementLink(from: Element, to: Element)
      modifies this`links
      ensures links == old(links) + {(from, to)}
    {
      links := links + {(from, to)};
    }

    /** Links the last element of a line to the next one. */
    method LinkNext(last: Element, next: Element, ghost line: seq<Element>, ghost base: set<Link>)
      requires line != [] && last == line[|line| - 1] && links == base + Chain(line)
      modifies this`links
      ensures links == base + Chain(line + [next])
    {
      ChainAppend(line, next);
      ElementLink(last, next);
    }

    method BuildVideoBranch(i: nat)
      modifies this`elements, this`links
      ensures Built() == old(Built()).Then(Part(VideoBranch(i), Chain(VideoBranch(i) + [Element(VideoMixer, 0)])))
    {
      hide Chain;
      ghost var base := links;
      var queue, scale := Element(VideoQueue, i), Element(MuxScale, i);
      var caps, box := Element(MuxScaleCaps, i), Element(VideoBox, i);
      ElementAdd(queue);
      ElementAdd(scale);
      ElementAdd(caps);
      ChainOfOne(queue);
      LinkNext(queue, scale, [queue], base);
      LinkNext(scale, caps, [queue] + [scale], base);
      ElementAdd(box);
      LinkNext(caps, box, [queue] + [scale] + [caps], base);
      LinkNext(box, Element(VideoMixer, 0), [queue] + [scale] + [caps] + [box], base);
      assert [queue] + [scale] + [caps] + [box] == VideoBranch(i);
      assert old(elements) + [queue] + [scale] + [caps] + [box] == old(elements) + VideoBranch(i);
    }

    method BuildAudioBranch(i: nat)
      modifies this`elements, this`links
      ensures Built() == old(Built()).Then(Part(AudioBranch(i), Chain(AudioBranch(i) + [Element(AudioMixer, 0)])))
    {
      hide Chain;
      ghost var base := links;
      var queue, level := Element(AudioQueue, i), Element(Level, i);
      ElementAdd(queue);
      ElementAdd(level);
      ChainOfOne(queue);
      LinkNext(queue, level, [queue], base);
      LinkNext(level, Element(AudioMixer, 0), [queue] + [level], base);
      assert [queue] + [level] == AudioBranch(i);
      assert old(elements) + [queue] + [level] == old(elements) + AudioBranch(i);
    }

    method BuildInput(i: nat)
      modifies this`elements, this`links
      ensures Built() == old(Built()).Then(InputPart(config, i))
    {
      hide Chain, VideoBranch, AudioBranch;
      var src, decodebin := Element(Source, i), Element(Decodebin, i);
      ElementAdd(src);
      ElementAdd(decodebin);
      ElementLink(src, decodebin);
      assert elements == old(elements) + [src, decodebin];
      if config.video {
        BuildVideoBranch(i);
      }
      if config.audio {
        BuildAudioBranch(i);
      }
      ghost var v := if config.video then VideoBranch(i) else [];
      ghost var a := if config.audio then AudioBranch(i) else [];
      Associate(old(elements), [src, decodebin], v, a);
      assert Built() == old(Built()).Then(InputPart(config, i));
    }

    /** One row of the grid: the inputs from `first` on. */
    method BuildRow(rows: nat, columns: nat, r: nat, first: nat)
      requires rows > 0 && columns > 0 && first == r * columns == |tiles|
      modifies this
      ensures elements == old(elements) + RowPart(config, first, columns).elements
      ensures links == old(links) + RowPart(config, first, columns).links
      ensures |tiles| == first + columns && tiles[..first] == old(tiles)
      ensures config.video ==> forall k :: first <= k < first + columns ==> tiles[k] == TileOf(screen, rows, columns, k)
    {
      hide InputPart, Tile, TileOf;
      ghost var start := Built();
      assert start.Then(NO_PART) == start;
      var c := 0;
      while c < columns
        invariant c <= columns && |tiles| == first + c && tiles[..first] == old(tiles)
        invariant Built() == start.Then(RowPart(config, first, c))
        invariant config.video ==> forall k :: first <= k < first + c ==> tiles[k] == TileOf(screen, rows, columns, k)
      {
        BuildInput(first + c);
        ThenAssociates(start, RowPart(config, first, c), InputPart(config, first + c));
        var image := Rect(0, 0, 0, 0);
        if config.video {
          image := Tile(screen, rows, columns, r, c);
          TileAtIndex(screen, rows, columns, r, c);
        }
        tiles := tiles + [image];
        c := c + 1;
      }
    }

    /** The loops over the grid; leaving the inner one at the last input is leaving it at its end. */
    method BuildInputs(rows: nat, columns: nat)
      requires rows > 0 && columns > 0 && rows * columns == config.inputs && tiles == []
      modifies this
      ensures Built() == old(Built()).Then(InputParts(config, config.inputs))
      ensures |tiles| == config.inputs
      ensures config.video ==> forall k :: 0 <= k < |tiles| ==> tiles[k] == TileOf(screen, rows, columns, k)
    {
      hide RowPart, InputParts, TileOf;
      ghost var start := Built();
      NoInputs(config, start);
      var r, i := 0, 0;
      while r < rows
        invariant r <= rows && i == r * columns == |tiles|
        invariant Built() == start.Then(InputParts(config, i))
        invariant config.video ==> forall k :: 0 <= k < i ==> tiles[k] == TileOf(screen, rows, columns, k)
      {
        ghost var before, row := InputParts(config, i), RowPart(config, i, columns);
        ghost var drawn := tiles;
        BuildRow(rows, columns, r, i);
        assert Built() == start.Then(before).Then(row);
        RowsAreInputs(config, i, columns);
        ThenAssociates(start, before, row);
        assert forall k :: 0 <= k < i ==> tiles[k] == drawn[k];
        NextRow(r + 1, columns);
        i := i + columns;
        r := r + 1;
      }
    }

    method BuildVideoTrunk()
      modifies this`elements, this`links
      ensures Built() == old(Built()).Then(Part(VideoTrunk(config), Chain([Element(VideoMixer, 0)] + VideoTrunk(config))))
    {
      hide Chain;
      ghost var base := links;
      var last := Element(VideoMixer, 0);
      ghost var line := [last];
      ChainOfOne(last);
      var cairo, convert, tee := Element(Cairo, 0), Element(VideoConvert, 0), Element(VideoTee, 0);
      ElementAdd(cairo);
      LinkNext(last, cairo, line, base);
      line := line + [cairo];
      ElementAdd(convert);
      var end := convert;
      ghost var middle := [convert];
      var deinterlace := Element(Deinterlace, 0);
      ghost var front := links;
      ChainOfOne(convert);
      if config.deinterlace {
        ElementAdd(deinterlace);
        LinkNext(convert, deinterlace, [convert], front);
        end := deinterlace;
        middle := middle + [deinterlace];
      }
      assert links == base + Chain(line) + Chain(middle);
      ElementLink(cairo, convert);
      ChainConcat(line, middle);
      line := line + middle;
      ElementAdd(tee);
      LinkNext(end, tee, line, base);
      assert [Element(VideoMixer, 0)] + VideoTrunk(config) == line + [tee];
      assert elements == old(elements) + VideoTrunk(config);
    }

    method BuildAudioTrunk()
      modifies this`elements, this`links
      ensures Built() == old(Built()).Then(Part(AudioTrunk(config), Chain([Element(AudioMixer, 0)] + AudioTrunk(config))))
    {
      hide Chain;
      ghost var base := links;
      var mixer, convert, tee := Element(AudioMixer, 0), Element(AudioConvert, 0), Element(AudioTee, 0);
      ElementAdd(convert);
      var last := convert;
      ghost var middle := [convert];
      ChainOfOne(convert);
      ChainOfOne(mixer);
      if config.channels {
        var caps := Element(AudioConvertCaps, 0);
        ElementAdd(caps);
        LinkNext(convert, caps, middle, base);
        last := caps;
        middle := middle + [caps];
      }
      if config.volume {
        var volume := Element(Volume, 0);
        ElementAdd(volume);
        LinkNext(last, volume, middle, base);
        last := volume;
        middle := middle + [volume];
      }
      ElementLink(mixer, convert);
      ChainConcat([mixer], middle);
      ElementAdd(tee);
      LinkNext(last, tee, [mixer] + middle, base);
      assert [mixer] + AudioTrunk(config) == [mixer] + middle + [tee];
      assert elements == old(elements) + AudioTrunk(config);
    }

    method BuildDeviceOutput(o: nat)
      modifies this`elements, this`links
      ensures Built() == old(Built()).Then(DevicePart(config, o))
    {
      hide Chain;
      ghost var v, a := NO_PART, NO_PART;
      if config.video {
        var tee, queue, sink := Element(VideoTee, 0), Element(VideoTeeQueue, o), Element(VideoSink, o);
        ghost var base := links;
        ElementAdd(queue);
        ChainOfOne(tee);
        LinkNext(tee, queue, [tee], base);
        ElementAdd(sink);
        LinkNext(queue, sink, [tee] + [queue], base);
        assert [tee] + [queue] + [sink] == [tee] + DeviceVideo(o);
        v := Part(DeviceVideo(o), Chain([tee] + DeviceVideo(o)));
        assert Built() == old(Built()).Then(v);
      } else {
        assert Built() == old(Built()).Then(v);
      }
      if config.audio {
        var tee, queue, sink := Element(AudioTee, 0), Element(AudioTeeQueue, o), Element(AudioSink, o);
        ghost var base := links;
        ghost var before := elements;
        ElementAdd(queue);
        ChainOfOne(tee);
        LinkNext(tee, queue, [tee], base);
        ElementAdd(sink);
        LinkNext(queue, sink, [tee] + [queue], base);
        assert [tee] + [queue] + [sink] == [tee] + DeviceAudio(o);
        assert elements == before + DeviceAudio(o);
        a := Part(DeviceAudio(o), Chain([tee] + DeviceAudio(o)));
      }
      ThenAssociates(old(Built()), v, a);
    }

    /** The queue behind the tee, the aspect ratio and the frame rate; returns the end of that line. */
    method BuildVideoShaping(o: nat) returns (last: Element)
      modifies this`elements, this`links
      ensures elements == old(elements) + VideoShaping(config, o)
      ensures links == old(links) + Chain([Element(VideoTee, 0)] + VideoShaping(config, o))
      ensures last == VideoShaping(config, o)[|VideoShaping(config, o)| - 1]
    {
      hide Chain;
      ghost var base := links;
      var tee, queue := Element(VideoTee, 0), Element(VideoTeeQueue, o);
      ghost var line := [tee];
      ElementAdd(queue);
      ChainOfOne(tee);
      LinkNext(tee, queue, line, base);
      line, last := line + [queue], queue;
      if config.aspectRatio {
        var ratio := Element(AspectRatio, o);
        ElementAdd(ratio);
        LinkNext(last, ratio, line, base);
        line, last := line + [ratio], ratio;
      }
      if config.frameRate {
        var rate, caps := Element(VideoRate, o), Element(VideoRateCaps, o);
        ElementAdd(rate);
        ElementAdd(caps);
        LinkNext(last, rate, line, base);
        LinkNext(rate, caps, line + [rate], base);
        line, last := line + [rate] + [caps], caps;
      }
      assert line == [tee] + VideoShaping(config, o);
      assert elements == old(elements) + VideoShaping(config, o);
    }

    /** The encoder and the caps filters its string parameters ask for; returns the end of that line. */
    method BuildVideoEncoder(o: nat) returns (first: Element, last: Element)
      modifies this`elements, this`links
      ensures elements == old(elements) + VideoEncoding(config, o)
      ensures links == old(links) + Chain(VideoEncoding(config, o))
      ensures first == VideoEncoding(config, o)[0] && last == VideoEncoding(config, o)[|VideoEncoding(config, o)| - 1]
    {
      hide Chain;
      ghost var base := links;
      first := Element(VideoCodec, o);
      ElementAdd(first);
      ghost var line := [first];
      last := first;
      ChainOfOne(first);
      if config.profile {
        var caps := Element(ProfileCaps, o);
        ElementAdd(caps);
        LinkNext(last, caps, line, base);
        line, last := line + [caps], caps;
      }
      if config.streamFormat {
        var caps := Element(StreamFormatCaps, o);
        ElementAdd(caps);
        LinkNext(last, caps, line, base);
        line, last := line + [caps], caps;
      }
      assert line == VideoEncoding(config, o);
      assert elements == old(elements) + VideoEncoding(config, o);
    }

    /** The payloader and the parser, and the link to the muxer; `line` leads to `last`. */
    method BuildVideoPacking(o: nat, rtp: bool, last: Element, ghost line: seq<Element>, ghost base: set<Link>)
      requires line != [] && last == line[|line| - 1] && links == base + Chain(line)
      modifies this`elements, this`links
      ensures elements == old(elements) + VideoPacking(config, o, rtp)
      ensures links == base + Chain(line + VideoPacking(config, o, rtp) + [Element(Muxer, o)])
    {
      hide Chain;
      var next := last;
      ghost var l := line;
      if rtp {
        var pay := Element(VideoPay, o);
        ElementAdd(pay);
        LinkNext(next, pay, l, base);
        next, l := pay, l + [pay];
      }
      if config.h264 {
        var parser := Element(VideoParser, o);
        ElementAdd(parser);
        LinkNext(next, parser, l, base);
        next, l := parser, l + [parser];
      }
      LinkNext(next, Element(Muxer, o), l, base);
      assert l == line + VideoPacking(config, o, rtp);
      assert elements == old(elements) + VideoPacking(config, o, rtp);
    }

    method BuildNetworkVideo(o: nat, rtp: bool)
      requires config.video
      modifies this`elements, this`links
      ensures Built() == old(Built()).Then(NetworkVideoPart(config, o, rtp))
    {
      hide Chain, VideoShaping, VideoEncoding, VideoPacking;
      ghost var base := links;
      var last := BuildVideoShaping(o);
      ghost var shaping := [Element(VideoTee, 0)] + VideoShaping(config, o);
      var first, end := BuildVideoEncoder(o);
      ghost var encoding := VideoEncoding(config, o);
      LinesAreSome(config, o);
      ElementLink(last, first);
      ChainConcat(shaping, encoding);
      assert links == base + Chain(shaping + encoding);
      BuildVideoPacking(o, rtp, end, shaping + encoding, base);
      ghost var tee := [Element(VideoTee, 0)];
      ghost var packing := VideoPacking(config, o, rtp);
      LineSplits(tee, VideoShaping(config, o), encoding, packing, [Element(Muxer, o)]);
      Associate(old(elements), VideoShaping(config, o), encoding, packing);
    }

    /** The audio encoder behind its queue, with the resampler and the parser an MP3 encoder needs. */
    method BuildAudioEncoder(o: nat) returns (last: Element, ghost line: seq<Element>)
      modifies this`elements, this`links
      ensures line == [Element(AudioTee, 0)] + NetworkAudio(config, o, false) && last == line[|line| - 1]
      ensures elements == old(elements) + NetworkAudioAdded(config, o, false)
      ensures links == old(links) + Chain(line)
    {
      hide Chain;
      ghost var base := links;
      var tee, queue, codec := Element(AudioTee, 0), Element(AudioTeeQueue, o), Element(AudioCodec, o);
      line := [tee];
      ElementAdd(queue);
      ChainOfOne(tee);
      LinkNext(tee, queue, line, base);
      line := line + [queue];
      ElementAdd(codec);
      if config.mp3 {
        var resample, parse := Element(AudioResample, o), Element(AudioParse, o);
        ElementAdd(resample);
        ElementAdd(parse);
        LinkNext(queue, resample, line, base);
        line := line + [resample];
        LinkNext(resample, codec, line, base);
        line := line + [codec];
        LinkNext(codec, parse, line, base);
        line, last := line + [parse], parse;
      } else {
        LinkNext(queue, codec, line, base);
        line, last := line + [codec], codec;
      }
    }

    method BuildNetworkAudio(o: nat, rtp: bool)
      requires config.audio
      modifies this`elements, this`links
      ensures Built() == old(Built()).Then(NetworkAudioPart(config, o, rtp))
    {
      hide Chain;
      ghost var base := links;
      var next, line := BuildAudioEncoder(o);
      if rtp {
        var pay := Element(AudioPay, o);
        ElementAdd(pay);
        LinkNext(next, pay, line, base);
        line, next := line + [pay], pay;
      }
      LinkNext(next, Element(Muxer, o), line, base);
      assert line == [Element(AudioTee, 0)] + NetworkAudio(config, o, rtp);
      assert elements == old(elements) + NetworkAudioAdded(config, o, rtp);
    }

    method BuildNetworkOutput(o: nat, rtp: bool)
      modifies this`elements, this`links
      ensures Built() == old(Built()).Then(NetworkPart(config, o, rtp))
    {
      hide Chain, NetworkVideo, NetworkAudio, NetworkAudioAdded;
      ghost var start := Built();
      var mux, sink := Element(Muxer, o), Element(Sink, o);
      ghost var m := Part([mux], {});
      ElementAdd(mux);
      assert Built() == start.Then(m);
      if config.video {
        BuildNetworkVideo(o, rtp);
      }
      ghost var v, a := NetworkVideoPart(config, o, rtp), NetworkAudioPart(config, o, rtp);
      assert Built() == start.Then(m).Then(v);
      if config.audio {
        BuildNetworkAudio(o, rtp);
      }
      assert Built() == start.Then(m).Then(v).Then(a);
      ElementAdd(sink);
      ElementLink(mux, sink);
      ghost var s := Part([sink], {(mux, sink)});
      assert Built() == start.Then(m).Then(v).Then(a).Then(s);
      FoldParts(start, m, v, a, s);
    }

    method BuildOutput()
      modifies this`elements, this`links
      ensures Built() == old(Built()).Then(OutputParts(config, |config.outputs|))
    {
      hide DevicePart, NetworkPart;
      ghost var start := Built();
      assert start.Then(NO_PART) == start;
      var o := 0;
      while o < |config.outputs|
        invariant o <= |config.outputs|
        invariant Built() == start.Then(OutputParts(config, o))
      {
        match config.outputs[o] {
          case Device => BuildDeviceOutput(o);
          case Network(rtp) => BuildNetworkOutput(o, rtp);
        }
        ThenAssociates(start, OutputParts(config, o), OutputPart(config, o));
        o := o + 1;
      }
    }

    /** Refuses other numbers of inputs; otherwise builds the whole pipeline and one tile per input. */
    method InitPipeline() returns (ok: bool)
      requires Built() == NO_PART && tiles == []
      modifies this
      ensures ok <==> config.inputs in {1, 2, 4, 9, 16}
      ensures ok ==> Built() == Pipeline(config) && |tiles| == config.inputs
      ensures !ok ==> Built() == NO_PART && tiles == []
      ensures ok && config.video ==>
                var (rows, columns) := Grid(config.inputs).value;
                forall k :: 0 <= k < |tiles| ==> tiles[k] == TileOf(screen, rows, columns, k)
    {
      hide InputParts, OutputParts, VideoTrunk, AudioTrunk, Chain, TileOf;
      var grid := Grid(config.inputs);
      if grid.None? {
        return false;
      }
      var (rows, columns) := grid.value;
      ElementAdd(Element(VideoMixer, 0));
      ElementAdd(Element(AudioMixer, 0));
      assert Built() == Mixers();
      BuildInputs(rows, columns);
      ghost var upTo := Mixers().Then(InputParts(config, config.inputs));
      ghost var v, a := NO_PART, NO_PART;
      assert upTo.Then(NO_PART) == upTo;
      if config.video {
        BuildVideoTrunk();
        v := Part(VideoTrunk(config), Chain([Element(VideoMixer, 0)] + VideoTrunk(config)));
      }
      assert Built() == upTo.Then(v) && upTo.Then(v).Then(NO_PART) == upTo.Then(v);
      if config.audio {
        BuildAudioTrunk();
        a := Part(AudioTrunk(config), Chain([Element(AudioMixer, 0)] + AudioTrunk(config)));
      }
      ThenAssociates(upTo, v, a);
      BuildOutput();
      ok := true;
    }
  }

  // ----------------------------------------------------------------- the stream's handler

  class MosaicStream {
    const config: Config
    const elements: seq<Element>
    /** Audio channels seen so far, per input. */
    var channels: seq<nat>
    /** The decoder pad each queue's sink pad is linked to. */
    var feeds: Feeds
    var videoInited: bool
    var audioInited: bool

    constructor (config: Config, elements: seq<Element>)
      ensures this.config == config && this.elements == elements && !videoInited && !audioInited && feeds == map[]
      ensures |channels| == config.inputs && forall k :: 0 <= k < |channels| ==> channels[k] == 0
    {
      this.config, this.elements := config, elements;
      channels := seq(config.inputs, _ => 0);
      feeds, videoInited, audioInited := map[], false, false;
    }

    method GetElementByName(name: string) returns (found: Option<Element>)
      ensures found == FindElement(elements, name)
    {
      var i := 0;
      while i < |elements|
        invariant i <= |elements|
        invariant FindElement(elements, name) == FindElement(elements[i..], name)
      {
        if Name(elements[i]) == name {
          return Some(elements[i]);
        }
        assert elements[i..][1..] == elements[i + 1..];
        i := i + 1;
      }
      return None;
    }

    /**
      `count` is the channel count of the pad's caps; `stale` what the id variable holds before it is set;
      `sinkValid` and `linkOk` what the queue's pad and the linking answer.
    */
    method HandleDecodeBinPadAdded(decodebin: string, pad: nat, padType: string, count: Option<nat>, stale: nat,
                                   sinkValid: bool, linkOk: bool)
      returns (dest: Option<Element>)
      requires !videoInited && !audioInited
      modifies this`channels, this`feeds
      ensures feeds == Linked(old(feeds), Destination(elements, config, decodebin, padType, stale),
                              decodebin, pad, sinkValid, linkOk)
      ensures dest == Destination(elements, config, decodebin, padType, stale)
      ensures var id := IdOf(decodebin, stale);
              dest == if id.None? then None
                      else if "video" <= padType && config.video then
                        FindElement(elements, Name(Element(VideoQueue, id.value)))
                      else if "audio" <= padType && config.audio then
                        FindElement(elements, Name(Element(AudioQueue, id.value)))
                      else None
      ensures |channels| == |old(channels)|
      ensures var id := IdOf(decodebin, stale);
              forall k :: 0 <= k < |channels| ==>
                channels[k] == old(channels)[k]
                               + (if id == Some(k) && "audio" <= padType && config.audio && count.Some?
                                  then count.value else 0)
    {
      hide FindElement, NumberOfName;
      PrefixesExclude(padType);
      dest := None;
      var matched := GetElementId(decodebin);
      if matched.NoMatch? {
        return;
      }
      var id := if matched.Assigned? then matched.id else stale;
      if "video" <= padType {
        if config.video && !videoInited {
          dest := GetElementByName(Name(Element(VideoQueue, id)));
        }
      } else if "audio" <= padType {
        if config.audio && !audioInited {
          dest := GetElementByName(Name(Element(AudioQueue, id)));
          if count.Some? {
            AddChannels(id, count.value);
          }
        }
      }
      if dest.None? {
        return;
      }
      if !sinkValid {
        return;
      }
      if dest.value !in feeds {
        if linkOk {
          feeds := feeds[dest.value := (decodebin, pad)];
        }
      }
    }

    method AddChannels(id: nat, count: nat)
      modifies this`channels
      ensures |channels| == |old(channels)|
      ensures forall k :: 0 <= k < |channels| ==> channels[k] == old(channels)[k] + (if k == id then count else 0)
    {
      for n := 0 to count
        invariant |channels| == |old(channels)|
        invariant forall k :: 0 <= k < |channels| ==> channels[k] == old(channels)[k] + (if k == id then n else 0)
      {
        if |channels| > id {
          channels := channels[id := channels[id] + 1];
        }
      }
    }
  }

  lemma LinesAreSome(cfg: Config, o: nat)
    ensures VideoShaping(cfg, o) != [] && VideoEncoding(cfg, o) != []
  {
  }

  lemma LineSplits(a: seq<Element>, b: seq<Element>, c: seq<Element>, d: seq<Element>, e: seq<Element>)
    ensures (a + b) + c + d + e == a + (b + c + d) + e
  {
  }

  lemma FoldParts(start: Part, m: Part, v: Part, a: Part, s: Part)
    ensures start.Then(m).Then(v).Then(a).Then(s) == start.Then(m.Then(v).Then(a).Then(s))
  {
    ThenAssociates(start, m, v);
    ThenAssociates(start, m.Then(v), a);
    ThenAssociates(start, m.Then(v).Then(a), s);
  }

  lemma Associate(a: seq<Element>, b: seq<Element>, c: seq<Element>, d: seq<Element>)
    ensures a + b + c + d == a + (b + c + d)
  {
  }

  /** The parts of `count` inputs from `first` on. */
  function RowPart(cfg: Config, first: nat, count: nat): Part {
    if count == 0 then NO_PART else RowPart(cfg, first, count - 1).Then(InputPart(cfg, first + count - 1))
  }

  lemma {:induction false} RowsAreInputs(cfg: Config, first: nat, count: nat)
    ensures InputParts(cfg, first).Then(RowPart(cfg, first, count)) == InputParts(cfg, first + count)
  {
    hide InputPart;
    if count == 0 {
      assert InputParts(cfg, first).Then(NO_PART) == InputParts(cfg, first);
    } else {
      RowsAreInputs(cfg, first, count - 1);
      ThenAssociates(InputParts(cfg, first), RowPart(cfg, first, count - 1), InputPart(cfg, first + count - 1));
    }
  }

  lemma NoInputs(cfg: Config, start: Part)
    ensures start.Then(InputParts(cfg, 0)) == start
  {
    assert start.elements + [] == start.elements && start.links + {} == start.links;
  }

  lemma ThenAssociates(a: Part, b: Part, c: Part)
    ensures a.Then(b).Then(c) == a.Then(b.Then(c))
  {
    assert a.elements + b.elements + c.elements == a.elements + (b.elements + c.elements);
  }

  lemma NextRow(r: nat, columns: nat)
    requires r > 0
    ensures (r - 1) * columns + columns == r * columns
  {
  }
}
