/**
  The HLS playlist file of a recording: the text the writer emits and what the reader makes of
  any text.  A file position is represented by the text that is left to read.
*/
module M3u8Format {
  import opened Wrappers
  import opened Decimal
  import opened Chunks

  /** Size of the line buffer, with its terminating zero. */
  const MAX_LINE: nat := 255

  const HEADER := "#EXTM3U"
  const VERSION := "#EXT-X-VERSION:"
  const ALLOW_CACHE := "#EXT-X-ALLOW-CACHE:"
  const MEDIA_SEQUENCE := "#EXT-X-MEDIA-SEQUENCE:"
  const TARGET_DURATION := "#EXT-X-TARGETDURATION:"
  const CHUNK_HEADER := "#EXTINF:"
  const FOOTER := "#EXT-X-ENDLIST"
  const CHUNK_EXT := ".ts"

  // ----------------------------------------------------------------- writing

  const NANOS_PER_CENTI: nat := 10_000_000

  /** A duration in hundredths of a second, rounded to the nearest. */
  function Centis(nanos: nat): nat {
    (nanos + NANOS_PER_CENTI / 2) / NANOS_PER_CENTI
  }

  /** Two decimals, as in `%.2f`. */
  function Fixed2(centis: nat): string {
    Print(centis / 100) + ("." + Pad(Print(centis % 100), 2))
  }

  function Nl(line: string, tail: string): string {
    line + ("\n" + tail)
  }

  function DurationLine(duration: nat): string {
    CHUNK_HEADER + (Fixed2(Centis(duration)) + ",")
  }

  function WithLine(c: ChunkInfo, tail: string): string {
    Nl(DurationLine(c.duration), Nl(c.path, tail))
  }

  function Body(chunks: seq<ChunkInfo>): string {
    if chunks == [] then FOOTER else WithLine(chunks[0], Body(chunks[1..]))
  }

  /** The lines of the chunks, then `tail`. */
  function Lines(chunks: seq<ChunkInfo>, tail: string): string {
    if chunks == [] then tail else WithLine(chunks[0], Lines(chunks[1..], tail))
  }

  function WithHeader(first: nat, target: nat, tail: string): string {
    Nl(HEADER,
       Nl(MEDIA_SEQUENCE + Print(first),
          Nl(ALLOW_CACHE + "YES",
             Nl(VERSION + "3",
                Nl(TARGET_DURATION + Print(target), tail)))))
  }

  function Text(first: nat, target: nat, chunks: seq<ChunkInfo>): string {
    WithHeader(first, target, Body(chunks))
  }

  // ----------------------------------------------------------------- lines

  predicate IsSpace(c: char) {
    c == ' ' || '\t' <= c <= '\r'
  }

  predicate Blank(s: string) {
    forall i :: 0 <= i < |s| ==> IsSpace(s[i])
  }

  /** How much `fgets` takes: through the next newline, at most `limit` characters. */
  function RawLength(rest: string, limit: nat): (n: nat)
    ensures n <= |rest| && n <= limit
    ensures rest != "" && limit > 0 ==> n > 0
  {
    if rest == "" || limit == 0 then 0
    else if rest[0] == '\n' then 1
    else 1 + RawLength(rest[1..], limit - 1)
  }

  /** The characters before the first zero character. */
  function CString(s: string): (r: string)
    ensures r <= s
  {
    if s == "" || s[0] == '\0' then "" else [s[0]] + CString(s[1..])
  }

  /** A line and the text left after it. */
  datatype Line = Eof | Line(text: string, rest: string)

  function NonEmptyLine(rest: string): (l: Line)
    ensures l.Line? ==> |l.rest| < |rest| && |l.text| <= |rest| - |l.rest| && !Blank(l.text)
    decreases |rest|
  {
    if rest == "" then Eof
    else
      var n := RawLength(rest, MAX_LINE - 1);
      var t := CString(rest[..n]);
      if Blank(t) then NonEmptyLine(rest[n..]) else Line(t, rest[n..])
  }

  function Trim(s: string): (r: string)
    ensures r <= s
    ensures !Blank(s) ==> r != ""
  {
    if s != "" && IsSpace(s[|s| - 1]) then Trim(s[..|s| - 1]) else s
  }

  // ----------------------------------------------------------------- line grammars

  /** What follows `prefix`, when something does. */
  function After(line: string, prefix: string): Option<string> {
    if prefix <= line && |prefix| < |line| then Some(line[|prefix|..]) else None
  }

  function NumberAfter(line: string, prefix: string): (r: Option<string>)
    ensures r.Some? ==> AllDigits(r.value)
  {
    var a := After(line, prefix);
    if a.Some? && AllDigits(a.value) then a else None
  }

  predicate AllCapitals(s: string) {
    forall i :: 0 <= i < |s| ==> 'A' <= s[i] <= 'Z'
  }

  function CapitalsAfter(line: string, prefix: string): Option<string> {
    var a := After(line, prefix);
    if a.Some? && AllCapitals(a.value) then a else None
  }

  /** Position of the first dot, or the length of the text. */
  function FirstDot(s: string): (k: nat)
    ensures k <= |s|
  {
    if s == "" || s[0] == '.' then 0 else 1 + FirstDot(s[1..])
  }

  /** Seconds with an optional fraction, as whole nanoseconds rounded down. */
  function Nanos(s: string): Option<nat> {
    var d := FirstDot(s);
    var whole, fraction := s[..d], if d < |s| then s[d + 1..] else "";
    if whole + fraction != "" && AllDigits(whole + fraction)
    then Some(Value(whole + fraction) * SECOND / Pow10(|fraction|))
    else None
  }

  /** `#EXTINF:<seconds>,` */
  function ParseDuration(line: string): Option<nat> {
    var a := After(line, CHUNK_HEADER);
    if a.Some? && a.value[|a.value| - 1] == ',' then Nanos(a.value[..|a.value| - 1]) else None
  }

  predicate IsWord(c: char) {
    IsDigit(c) || 'A' <= c <= 'Z' || 'a' <= c <= 'z' || c == '_'
  }

  predicate AllWord(s: string) {
    forall i :: 0 <= i < |s| ==> IsWord(s[i])
  }

  /** A chunk path without its extension, when the line has the shape of one. */
  function Stem(line: string): Option<string> {
    var n := |line| - |CHUNK_EXT|;
    if n >= 0 && line[n..] == CHUNK_EXT && AllWord(line[..n]) then Some(line[..n]) else None
  }

  function ParseIndex(line: string): Option<nat> {
    var stem := Stem(line);
    if stem.Some? then Parse(TrailingDigits(stem.value), UINT64_MAX) else None
  }

  // ----------------------------------------------------------------- reading

  datatype Fields = Fields(version: int, allowCache: bool, mediaSequence: int, targetDuration: int,
                           chunks: seq<ChunkInfo>)

  const CLEARED := Fields(-1, false, -1, -1, [])

  /** A chunk from its two lines, when both have the expected form. */
  function ChunkOf(headerLine: string, chunkLine: string): Option<ChunkInfo> {
    var duration, index := ParseDuration(headerLine), ParseIndex(chunkLine);
    if duration.Some? && index.Some? then Some(ChunkInfo(chunkLine, duration.value, index.value)) else None
  }

  function ParseChunks(rest: string, f: Fields): (bool, Fields)
    decreases |rest|
  {
    match NonEmptyLine(rest)
    case Eof => (f.chunks != [], f)
    case Line(headerLine, rest1) =>
      if Trim(headerLine) == FOOTER then (true, f)
      else match NonEmptyLine(rest1)
           case Eof => (false, f)
           case Line(chunkLine, rest2) =>
             match ChunkOf(Trim(headerLine), Trim(chunkLine))
             case None => (false, f)
             case Some(chunk) => ParseChunks(rest2, f.(chunks := f.chunks + [chunk]))
  }

  /** Where reading goes on after the rejected `line`: a seek to a negative offset has no effect. */
  function Rewound(text: string, rest: string, line: string): string
    requires |rest| <= |text|
  {
    var target := |text| - |rest| - |line| - 1;
    if target >= 0 then text[target..] else rest
  }

  /** What a header line does: set a field, fail, or turn out not to be a header line. */
  datatype HeaderStep = Next(fields: Fields) | Fail | Reject

  function HeaderLine(line: string, f: Fields): HeaderStep {
    var version, cache := NumberAfter(line, VERSION), CapitalsAfter(line, ALLOW_CACHE);
    var sequence, target := NumberAfter(line, MEDIA_SEQUENCE), NumberAfter(line, TARGET_DURATION);
    if line == HEADER then Next(f)
    else if version.Some? then
      var n := Parse(version.value, INT_MAX);
      if n.None? then Fail else Next(f.(version := n.value))
    else if cache.Some? then
      if cache.value == "YES" then Next(f.(allowCache := true))
      else if cache.value == "NO" then Next(f.(allowCache := false))
      else Fail
    else if sequence.Some? then
      var n := Parse(sequence.value, INT_MAX);
      if n.None? then Fail else Next(f.(mediaSequence := n.value))
    else if target.Some? then
      var n := Parse(target.value, INT_MAX);
      if n.None? then Fail else Next(f.(targetDuration := n.value))
    else Reject
  }

  function ParseHeader(text: string, rest: string, f: Fields): (bool, Fields)
    requires |rest| <= |text|
    decreases |rest|
  {
    match NonEmptyLine(rest)
    case Eof => (false, f)
    case Line(raw, next) =>
      match HeaderLine(Trim(raw), f)
      case Next(g) => ParseHeader(text, next, g)
      case Fail => (false, f)
      case Reject => ParseChunks(Rewound(text, next, Trim(raw)), f)
  }

  function ParseText(text: string): (bool, Fields) {
    ParseHeader(text, text, CLEARED)
  }
}
