/** The elements of a mosaic pipeline: what they are called, and how they are found by name. */
module Elements {
  import opened Wrappers
  import opened Decimal
  import opened Names

  datatype Role =
    | VideoMixer | AudioMixer
    | Source | Decodebin | VideoQueue | MuxScale | MuxScaleCaps | VideoBox | AudioQueue | Level
    | Cairo | VideoConvert | Deinterlace | VideoTee | AudioConvert | AudioConvertCaps | Volume | AudioTee
    | Muxer | VideoTeeQueue | VideoSink | AspectRatio | VideoRate | VideoRateCaps | VideoCodec | ProfileCaps
    | StreamFormatCaps | VideoPay | VideoParser | AudioTeeQueue | AudioSink | AudioCodec | AudioResample
    | AudioParse | AudioPay | Sink

  /** `id` is the index of the input or output the element is built for, 0 for the shared ones. */
  datatype Element = Element(role: Role, id: nat)

  function Stem(role: Role): string {
    match role
    case VideoMixer => "videomixer_"
    case AudioMixer => "interlive_"
    case Source => "src_"
    case Decodebin => "decodebin_"
    case VideoQueue => "udb_conn_video_"
    case MuxScale => "mux_videoscale_"
    case MuxScaleCaps => "mux_videoscale_capsfilter_"
    case VideoBox => "videobox_"
    case AudioQueue => "udb_conn_audio_"
    case Level => "level_"
    case Cairo => "cairo_"
    case VideoConvert => "video_convert_"
    case Deinterlace => "deinterlace_"
    case VideoTee => "video_tee_"
    case AudioConvert => "audio_convert_"
    case AudioConvertCaps => "audio_convert_capsfilter_"
    case Volume => "volume_"
    case AudioTee => "audio_tee_"
    case Muxer => "muxer_"
    case VideoTeeQueue => "video_tee_queue_"
    case VideoSink => "video_sink_"
    case AspectRatio => "aspect_ratio_"
    case VideoRate => "videorate_"
    case VideoRateCaps => "videorate_capsfilter_"
    case VideoCodec => "video_codec_"
    case ProfileCaps => "x264enc_capsfilter_profile_"
    case StreamFormatCaps => "x264enc_capsfilter_stream_format_"
    case VideoPay => "video_pay_"
    case VideoParser => "video_parser_"
    case AudioTeeQueue => "audio_tee_queue_"
    case AudioSink => "audio_sink_"
    case AudioCodec => "audio_codec_"
    case AudioResample => "audioresample_"
    case AudioParse => "mpegaudioparse_"
    case AudioPay => "audio_pay_"
    case Sink => "sink_"
  }

  function Name(e: Element): string {
    Stem(e.role) + Print(e.id)
  }

  lemma DecodebinStem()
    ensures IsStem(Stem(Decodebin))
  {
  }

  /** The order in which the builder adds the elements: shared, per input, shared, per output. */
  function Rank(role: Role): nat {
    match role
    case VideoMixer => 0
    case AudioMixer => 1
    case Source => 2
    case Decodebin => 3
    case VideoQueue => 4
    case MuxScale => 5
    case MuxScaleCaps => 6
    case VideoBox => 7
    case AudioQueue => 8
    case Level => 9
    case Cairo => 10
    case VideoConvert => 11
    case Deinterlace => 12
    case VideoTee => 13
    case AudioConvert => 14
    case AudioConvertCaps => 15
    case Volume => 16
    case AudioTee => 17
    case Muxer => 18
    case VideoTeeQueue => 19
    case VideoSink => 20
    case AspectRatio => 21
    case VideoRate => 22
    case VideoRateCaps => 23
    case VideoCodec => 24
    case ProfileCaps => 25
    case StreamFormatCaps => 26
    case VideoPay => 27
    case VideoParser => 28
    case AudioTeeQueue => 29
    case AudioSink => 30
    case AudioCodec => 31
    case AudioResample => 32
    case AudioParse => 33
    case AudioPay => 34
    case Sink => 35
  }

  /** The stems by their first letter. */
  function First(role: Role): char {
    match role
    case AudioConvert | AudioConvertCaps | AudioTee | AspectRatio | AudioTeeQueue
       | AudioSink | AudioCodec | AudioResample | AudioPay => 'a'
    case Cairo => 'c'
    case Decodebin | Deinterlace => 'd'
    case AudioMixer => 'i'
    case Level => 'l'
    case MuxScale | MuxScaleCaps | Muxer | AudioParse => 'm'
    case Source | Sink => 's'
    case VideoQueue | AudioQueue => 'u'
    case VideoMixer | VideoBox | VideoConvert | VideoTee | Volume | VideoTeeQueue | VideoSink
       | VideoRate | VideoRateCaps | VideoCodec | VideoPay | VideoParser => 'v'
    case ProfileCaps | StreamFormatCaps => 'x'
  }

  /** The stems by their length. */
  function Length(role: Role): nat {
    match role
    case Source => 4
    case Sink => 5
    case Level | Cairo | Muxer => 6
    case Volume => 7
    case VideoBox => 9
    case AudioMixer | Decodebin | VideoTee | AudioTee | VideoRate | VideoPay | AudioPay => 10
    case VideoMixer | VideoSink | AudioSink => 11
    case Deinterlace | VideoCodec | AudioCodec => 12
    case AspectRatio | VideoParser => 13
    case VideoConvert | AudioConvert | AudioResample => 14
    case VideoQueue | MuxScale | AudioQueue | AudioParse => 15
    case VideoTeeQueue | AudioTeeQueue => 16
    case VideoRateCaps => 21
    case AudioConvertCaps => 25
    case MuxScaleCaps => 26
    case ProfileCaps => 27
    case StreamFormatCaps => 33
  }

  /** The third character from the end, of the stems that share both with another. */
  function Third(role: Role): char {
    match role
    case VideoPay | AudioPay => 'a'
    case VideoMixer | VideoQueue | VideoTee | AudioTee => 'e'
    case AudioQueue => 'i'
    case MuxScale | AudioResample => 'l'
    case VideoSink => 'n'
    case AudioConvert => 'r'
    case AudioParse => 's'
    case VideoRate => 't'
    case _ => '_'
  }

  /** A stem has the letters and the length of those tables, and ends in an underscore. */
  predicate Shaped(role: Role) {
    var s := Stem(role);
    && |s| == Length(role) && |s| > 3 && s[0] == First(role) && s[|s| - 1] == '_'
    && (Third(role) != '_' ==> s[|s| - 3] == Third(role))
  }

  lemma InputStemsAreShaped(role: Role)
    requires Rank(role) < 10
    ensures Shaped(role)
  {
  }

  lemma SharedStemsAreShaped(role: Role)
    requires 10 <= Rank(role) < 18
    ensures Shaped(role)
  {
  }

  lemma VideoOutputStemsAreShaped(role: Role)
    requires 18 <= Rank(role) < 24
    ensures Shaped(role)
  {
  }

  lemma VideoEncoderStemsAreShaped(role: Role)
    requires 24 <= Rank(role) < 29
    ensures Shaped(role)
  {
  }

  lemma AudioOutputStemsAreShaped(role: Role)
    requires Rank(role) >= 29
    ensures Shaped(role)
  {
  }

  lemma StemsAreShaped(role: Role)
    ensures Shaped(role)
  {
    hide *;
    if Rank(role) < 10 {
      InputStemsAreShaped(role);
    } else if Rank(role) < 18 {
      SharedStemsAreShaped(role);
    } else if Rank(role) < 24 {
      VideoOutputStemsAreShaped(role);
    } else if Rank(role) < 29 {
      VideoEncoderStemsAreShaped(role);
    } else {
      AudioOutputStemsAreShaped(role);
    }
  }

  /** Same letters and length, as far as the tables tell. */
  predicate SameLetters(a: Role, b: Role) {
    && First(a) == First(b) && Length(a) == Length(b)
    && (Third(a) != '_' && Third(b) != '_' ==> Third(a) == Third(b))
  }

  lemma VideoLettersDiffer(a: Role, b: Role)
    requires SameLetters(a, b) && First(a) == 'v'
    ensures a == b
  {
  }

  lemma AudioLettersDiffer(a: Role, b: Role)
    requires SameLetters(a, b) && First(a) == 'a'
    ensures a == b
  {
  }

  lemma OtherLettersDiffer(a: Role, b: Role)
    requires SameLetters(a, b) && First(a) != 'v' && First(a) != 'a'
    ensures a == b
  {
  }

  /** No two roles share a stem. */
  lemma StemsDiffer(a: Role, b: Role)
    requires Stem(a) == Stem(b)
    ensures a == b
  {
    hide Stem, First, Length, Third;
    StemsAreShaped(a);
    StemsAreShaped(b);
    if First(a) == 'v' {
      VideoLettersDiffer(a, b);
    } else if First(a) == 'a' {
      AudioLettersDiffer(a, b);
    } else {
      OtherLettersDiffer(a, b);
    }
  }

  lemma NamesDiffer(a: Element, b: Element)
    requires Name(a) == Name(b)
    ensures a == b
  {
    hide Stem, First, Length, Third;
    StemsAreShaped(a.role);
    StemsAreShaped(b.role);
    GeneratedNamesDiffer(Stem(a.role), a.id, Stem(b.role), b.id);
    StemsDiffer(a.role, b.role);
  }
}
