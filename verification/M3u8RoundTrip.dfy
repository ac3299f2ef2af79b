/** Reading back what was written. */
module M3u8RoundTrip {
  import opened Wrappers
  import opened Decimal
  import opened Chunks
  import opened M3u8Format

  // ----------------------------------------------------------------- lines

  /** A line without line breaks or zero characters that does not end in white space. */
  predicate Clean(l: string) {
    l != "" && '\n' !in l && '\0' !in l && !IsSpace(l[|l| - 1])
  }

  lemma {:induction false} RawLengthOfLine(l: string, tail: string, limit: nat)
    requires '\n' !in l
    ensures RawLength(Nl(l, tail), limit) == if |l| < limit then |l| + 1 else limit
  {
    if l != "" && limit > 0 {
      RawLengthOfLine(l[1..], tail, limit - 1);
      assert Nl(l, tail)[1..] == Nl(l[1..], tail);
    }
  }

  lemma {:induction false} RawLengthOfLast(l: string, limit: nat)
    requires '\n' !in l && |l| <= limit
    ensures RawLength(l, limit) == |l|
  {
    if l != "" {
      RawLengthOfLast(l[1..], limit - 1);
    }
  }

  lemma {:induction false} CStringWhole(s: string)
    requires '\0' !in s
    ensures CString(s) == s
  {
    if s != "" {
      CStringWhole(s[1..]);
    }
  }

  lemma CleanIsNotBlank(l: string)
    requires Clean(l)
    ensures !Blank(l) && !Blank(l + "\n") && Trim(l) == l && Trim(l + "\n") == l
  {
    assert !IsSpace((l + "\n")[|l| - 1]);
    assert (l + "\n")[..|l|] == l;
  }

  lemma ReadLine(l: string, tail: string)
    requires Clean(l) && |l| < MAX_LINE - 1
    ensures NonEmptyLine(Nl(l, tail)) == Line(l + "\n", tail)
    ensures Trim(l + "\n") == l
  {
    RawLengthOfLine(l, tail, MAX_LINE - 1);
    assert Nl(l, tail)[..|l| + 1] == l + "\n";
    assert Nl(l, tail)[|l| + 1..] == tail;
    CStringWhole(l + "\n");
    CleanIsNotBlank(l);
  }

  /** A line that does not fit the buffer with its newline is cut at 254 characters. */
  lemma ReadCutLine(l: string, tail: string)
    requires '\n' !in l && '\0' !in l && |l| >= MAX_LINE - 1 && Clean(l[..MAX_LINE - 1])
    ensures NonEmptyLine(Nl(l, tail)) == Line(l[..MAX_LINE - 1], Nl(l[MAX_LINE - 1..], tail))
    ensures Trim(l[..MAX_LINE - 1]) == l[..MAX_LINE - 1]
  {
    RawLengthOfLine(l, tail, MAX_LINE - 1);
    assert Nl(l, tail)[..MAX_LINE - 1] == l[..MAX_LINE - 1];
    assert Nl(l, tail)[MAX_LINE - 1..] == Nl(l[MAX_LINE - 1..], tail);
    CStringWhole(l[..MAX_LINE - 1]);
    CleanIsNotBlank(l[..MAX_LINE - 1]);
  }

  lemma ReadLast(l: string)
    requires Clean(l) && |l| <= MAX_LINE - 1
    ensures NonEmptyLine(l) == Line(l, "")
    ensures Trim(l) == l
  {
    RawLengthOfLast(l, MAX_LINE - 1);
    assert l[..|l|] == l;
    CStringWhole(l);
    CleanIsNotBlank(l);
  }

  lemma SkipNewline(tail: string)
    ensures NonEmptyLine("\n" + tail) == NonEmptyLine(tail)
  {
    var s := "\n" + tail;
    assert RawLength(s, MAX_LINE - 1) == 1;
    assert s[..1] == "\n" && s[1..] == tail;
    assert CString("\n") == "\n";
  }

  // ----------------------------------------------------------------- the hand-off from header to body

  predicate EndsWith(text: string, rest: string) {
    |rest| <= |text| && text[|text| - |rest|..] == rest
  }

  /**
    When a header line is rejected, the chunk parser starts by reading that very line, and what
    follows it is what followed it before: the rejected line ends in one newline, or it is the last
    line of the file, without a newline, and a newline stands before it.
  */
  lemma HandOff(text: string, rest: string, line: string)
    requires EndsWith(text, rest) && NonEmptyLine(rest).Line? && Trim(NonEmptyLine(rest).text) == line
    requires var next := NonEmptyLine(rest).rest;
             || rest == Nl(line, next)
             || (rest == line && next == "" && |text| > |line| && text[|text| - |line| - 1] == '\n')
    ensures var next := NonEmptyLine(rest).rest;
            && NonEmptyLine(Rewound(text, next, line)) == NonEmptyLine(rest)
            && forall f :: ParseChunks(Rewound(text, next, line), f) == ParseChunks(rest, f)
  {
    hide NonEmptyLine, Trim;
    var next := NonEmptyLine(rest).rest;
    var again := Rewound(text, next, line);
    if rest == Nl(line, next) {
      assert again == rest;
    } else {
      assert again == "\n" + rest;
      SkipNewline(rest);
    }
  }

  // ----------------------------------------------------------------- durations

  lemma {:induction false} FirstDotAfter(a: string, b: string)
    requires '.' !in a
    ensures var s := a + ("." + b); FirstDot(s) == |a| && s[..|a|] == a && s[|a| + 1..] == b
  {
    var s := a + ("." + b);
    if a != "" {
      FirstDotAfter(a[1..], b);
      assert s[1..] == a[1..] + ("." + b);
    }
  }

  lemma TwoDigits(n: nat)
    requires n < 100
    ensures |Pad(Print(n), 2)| == 2 && Value(Pad(Print(n), 2)) == n
  {
    assert Pow10(2) == 100;
    PrintLength(n, 2);
    ValuePad(Print(n), 2);
    ValueOfPrint(n);
  }

  lemma CentisToNanos(centis: nat)
    ensures centis * SECOND / 100 == centis * NANOS_PER_CENTI
  {
    assert centis * SECOND == (centis * NANOS_PER_CENTI) * 100;
  }

  lemma NanosOfFixed2(centis: nat)
    ensures Nanos(Fixed2(centis)) == Some(centis * NANOS_PER_CENTI)
    ensures |Fixed2(centis)| == |Print(centis / 100)| + 3
  {
    hide Print, Pad, Value, FirstDot;
    var a, b := Print(centis / 100), Pad(Print(centis % 100), 2);
    TwoDigits(centis % 100);
    FirstDotAfter(a, b);
    ValueConcat(a, b);
    ValueOfPrint(centis / 100);
    assert Pow10(2) == 100;
    assert Value(a + b) == centis;
    CentisToNanos(centis);
  }

  lemma DurationLineIsClean(duration: nat)
    requires duration <= UINT64_MAX
    ensures Clean(DurationLine(duration)) && |DurationLine(duration)| < 40
    ensures CHUNK_HEADER <= DurationLine(duration)
    ensures ParseDuration(DurationLine(duration)) == Some(Centis(duration) * NANOS_PER_CENTI)
  {
    var n := Centis(duration);
    var l := DurationLine(duration);
    NanosOfFixed2(n);
    Print64Length(n / 100);
    assert l[|CHUNK_HEADER|..] == Fixed2(n) + ",";
    assert (Fixed2(n) + ",")[..|Fixed2(n)|] == Fixed2(n);
    FixedIsPrintable(n);
  }

  lemma FixedIsPrintable(n: nat)
    ensures '\n' !in Fixed2(n) && '\0' !in Fixed2(n)
  {
  }

  // ----------------------------------------------------------------- chunk lines

  /** The path has the shape the reader expects and ends in the decimal of the chunk's index. */
  predicate Named(c: ChunkInfo) {
    c.Fits64() && ParseIndex(c.path) == Some(c.index)
  }

  predicate FitsLine(c: ChunkInfo) {
    |c.path| <= 254
  }

  function Rounded(c: ChunkInfo): ChunkInfo {
    c.(duration := Centis(c.duration) * NANOS_PER_CENTI)
  }

  lemma PathCharacters(path: string, i: nat)
    requires Stem(path).Some? && i < |path|
    ensures IsWord(path[i]) || (i == |path| - 3 && path[i] == '.')
    ensures !IsSpace(path[i]) && path[i] != '\0'
  {
    var n := |path| - 3;
    if i < n {
      assert path[i] == path[..n][i];
    } else {
      assert path[i] == path[n..][i - n] == CHUNK_EXT[i - n];
    }
  }

  lemma PathIsClean(path: string)
    requires Stem(path).Some?
    ensures Clean(path)
    ensures |path| > MAX_LINE - 1 ==> Clean(path[..MAX_LINE - 1]) && Stem(path[..MAX_LINE - 1]).None?
    ensures |path| == MAX_LINE - 1 ==> path[..MAX_LINE - 1] == path
  {
    forall i | 0 <= i < |path|
      ensures !IsSpace(path[i]) && path[i] != '\0'
    {
      PathCharacters(path, i);
    }
    if |path| > MAX_LINE - 1 {
      var cut := path[..MAX_LINE - 1];
      var k := |cut| - 3;
      PathCharacters(path, k);
      assert cut[k..][0] == path[k];
    }
  }

  lemma FooterIsNotAChunkHeader(l: string)
    requires CHUNK_HEADER <= l
    ensures l != FOOTER
  {
    assert l[4] == CHUNK_HEADER[4] == 'I';
    assert FOOTER[4] == '-';
  }

  lemma WrittenChunk(c: ChunkInfo)
    requires Named(c)
    ensures Clean(DurationLine(c.duration)) && |DurationLine(c.duration)| < 40
    ensures DurationLine(c.duration) != FOOTER
    ensures ChunkOf(DurationLine(c.duration), c.path) == Some(Rounded(c))
    ensures |c.path| > MAX_LINE - 1 ==> ChunkOf(DurationLine(c.duration), c.path[..MAX_LINE - 1]).None?
  {
    DurationLineIsClean(c.duration);
    FooterIsNotAChunkHeader(DurationLine(c.duration));
    PathIsClean(c.path);
  }

  /** What the path line is read as, and that what follows it is read next. */
  lemma ReadPath(path: string, tail: string) returns (raw: string, rest: string)
    requires Stem(path).Some?
    ensures NonEmptyLine(Nl(path, tail)) == Line(raw, rest)
    ensures Trim(raw) == if |path| <= MAX_LINE - 1 then path else path[..MAX_LINE - 1]
    ensures |path| <= MAX_LINE - 1 ==> NonEmptyLine(rest) == NonEmptyLine(tail)
  {
    PathIsClean(path);
    if |path| < MAX_LINE - 1 {
      ReadLine(path, tail);
      raw, rest := path + "\n", tail;
    } else {
      ReadCutLine(path, tail);
      raw, rest := path[..MAX_LINE - 1], Nl(path[MAX_LINE - 1..], tail);
      if |path| == MAX_LINE - 1 {
        assert rest == "\n" + tail;
        SkipNewline(tail);
      }
    }
  }

  lemma SameLinesSameChunks(a: string, b: string, f: Fields)
    requires NonEmptyLine(a) == NonEmptyLine(b)
    ensures ParseChunks(a, f) == ParseChunks(b, f)
  {
  }

  /** One turn of the loop over pairs of lines. */
  lemma ChunkTurn(text: string, f: Fields)
    ensures var a := NonEmptyLine(text);
            ParseChunks(text, f)
            == if a.Eof? then (f.chunks != [], f)
               else if Trim(a.text) == FOOTER then (true, f)
               else
                 var b := NonEmptyLine(a.rest);
                 if b.Eof? then (false, f)
                 else
                   var c := ChunkOf(Trim(a.text), Trim(b.text));
                   if c.None? then (false, f) else ParseChunks(b.rest, f.(chunks := f.chunks + [c.value]))
  {
    hide NonEmptyLine, Trim, ChunkOf;
  }

  /** One written chunk is read back with its duration rounded, or stops the reader if its path is too long. */
  lemma ReadChunk(c: ChunkInfo, tail: string, f: Fields)
    requires Named(c)
    ensures ParseChunks(WithLine(c, tail), f)
            == if FitsLine(c) then ParseChunks(tail, f.(chunks := f.chunks + [Rounded(c)])) else (false, f)
  {
    hide NonEmptyLine, Trim, ChunkOf, ParseChunks, DurationLine, Stem;
    var h := DurationLine(c.duration);
    WrittenChunk(c);
    ReadLine(h, Nl(c.path, tail));
    var raw, rest := ReadPath(c.path, tail);
    ChunkTurn(WithLine(c, tail), f);
    if FitsLine(c) {
      SameLinesSameChunks(rest, tail, f.(chunks := f.chunks + [Rounded(c)]));
    }
  }

  function RoundedAll(chunks: seq<ChunkInfo>): (r: seq<ChunkInfo>)
    ensures |r| == |chunks|
    ensures forall i :: 0 <= i < |chunks| ==> r[i] == Rounded(chunks[i])
  {
    if chunks == [] then [] else [Rounded(chunks[0])] + RoundedAll(chunks[1..])
  }

  predicate AllNamed(chunks: seq<ChunkInfo>) {
    forall i :: 0 <= i < |chunks| ==> Named(chunks[i])
  }

  predicate AllFit64(chunks: seq<ChunkInfo>) {
    forall i :: 0 <= i < |chunks| ==> chunks[i].Fits64()
  }

  predicate AllFit(chunks: seq<ChunkInfo>) {
    forall i :: 0 <= i < |chunks| ==> FitsLine(chunks[i])
  }

  lemma ReadFooter(f: Fields)
    ensures Clean(FOOTER) && |FOOTER| == 14
    ensures NonEmptyLine(FOOTER) == Line(FOOTER, "") && Trim(FOOTER) == FOOTER
    ensures ParseChunks(FOOTER, f) == (true, f)
  {
    ReadLast(FOOTER);
  }

  /** The first chunk whose path does not fit a line, or the length of the list. */
  function FirstUnfit(chunks: seq<ChunkInfo>): (k: nat)
    ensures k <= |chunks|
    ensures k == |chunks| <==> AllFit(chunks)
  {
    if chunks == [] || !FitsLine(chunks[0]) then 0 else 1 + FirstUnfit(chunks[1..])
  }

  lemma RoundedSplits(c: ChunkInfo, others: seq<ChunkInfo>, before: seq<ChunkInfo>, k: nat)
    requires k <= |others|
    ensures before + [Rounded(c)] + RoundedAll(others[..k]) == before + RoundedAll(([c] + others)[..k + 1])
  {
    var all := ([c] + others)[..k + 1];
    assert all[1..] == others[..k];
  }

  /** The lines of named chunks are read in order, up to the first path that does not fit a line, and then what follows. */
  lemma {:induction false} ReadLines(chunks: seq<ChunkInfo>, tail: string, f: Fields)
    requires AllNamed(chunks)
    ensures var k := FirstUnfit(chunks);
            var g := f.(chunks := f.chunks + RoundedAll(chunks[..k]));
            ParseChunks(Lines(chunks, tail), f) == if k == |chunks| then ParseChunks(tail, g) else (false, g)
  {
    hide ParseChunks, WithLine, NonEmptyLine, Named, FitsLine;
    if chunks == [] {
      assert f.chunks + [] == f.chunks;
    } else {
      var c, others := chunks[0], chunks[1..];
      var g := f.(chunks := f.chunks + [Rounded(c)]);
      ReadChunk(c, Lines(others, tail), f);
      if FitsLine(c) {
        ReadLines(others, tail, g);
        RoundedSplits(c, others, f.chunks, FirstUnfit(others));
        assert [c] + others == chunks;
      } else {
        assert f.chunks + [] == f.chunks;
      }
    }
  }

  lemma {:induction false} LinesAreBody(chunks: seq<ChunkInfo>)
    ensures Lines(chunks, FOOTER) == Body(chunks)
  {
    hide WithLine;
    if chunks != [] {
      LinesAreBody(chunks[1..]);
    }
  }

  lemma ReadBody(chunks: seq<ChunkInfo>, f: Fields)
    requires AllNamed(chunks)
    ensures ParseChunks(Body(chunks), f)
            == (AllFit(chunks), f.(chunks := f.chunks + RoundedAll(chunks[..FirstUnfit(chunks)])))
  {
    hide ParseChunks, Lines, Body;
    LinesAreBody(chunks);
    ReadLines(chunks, FOOTER, f);
    ReadFooter(f.(chunks := f.chunks + RoundedAll(chunks)));
    assert chunks[..|chunks|] == chunks;
  }

  // ----------------------------------------------------------------- header lines

  lemma NotAfter(line: string, prefix: string, i: nat)
    requires i < |line| && i < |prefix| && line[i] != prefix[i]
    ensures After(line, prefix).None?
  {
  }

  lemma AfterPrefix(prefix: string, value: string)
    requires value != ""
    ensures After(prefix + value, prefix) == Some(value)
  {
  }

  lemma OverLine(text: string, l: string, tail: string, f: Fields)
    requires Clean(l) && |l| < MAX_LINE - 1 && |Nl(l, tail)| <= |text|
    ensures HeaderLine(l, f).Next? ==>
              ParseHeader(text, Nl(l, tail), f) == ParseHeader(text, tail, HeaderLine(l, f).fields)
    ensures HeaderLine(l, f).Fail? ==> ParseHeader(text, Nl(l, tail), f) == (false, f)
  {
    ReadLine(l, tail);
  }

  lemma TopLine(f: Fields)
    ensures Clean(HEADER) && HeaderLine(HEADER, f) == Next(f)
  {
  }

  lemma NumberLineIsClean(prefix: string, n: nat)
    requires n <= UINT64_MAX && |prefix| < 30 && '\n' !in prefix && '\0' !in prefix
    ensures Clean(prefix + Print(n)) && |prefix + Print(n)| < 60
    ensures NumberAfter(prefix + Print(n), prefix) == Some(Print(n))
  {
    Print64Length(n);
    AfterPrefix(prefix, Print(n));
    var l := prefix + Print(n);
    forall i | 0 <= i < |l|
      ensures l[i] != '\n' && l[i] != '\0'
    {
      assert l[i] in prefix || IsDigit(l[i]);
    }
  }

  lemma SequenceLine(first: nat, f: Fields)
    requires first <= UINT64_MAX
    ensures HeaderLine(MEDIA_SEQUENCE + Print(first), f)
            == if first <= INT_MAX then Next(f.(mediaSequence := first)) else Fail
  {
    SequenceFields(first);
    hide NumberAfter, CapitalsAfter, Print, Parse;
    ParsePrint(first, INT_MAX);
  }

  lemma SequenceFields(first: nat)
    requires first <= UINT64_MAX
    ensures var l := MEDIA_SEQUENCE + Print(first);
            && l != HEADER && NumberAfter(l, VERSION).None? && CapitalsAfter(l, ALLOW_CACHE).None?
            && NumberAfter(l, MEDIA_SEQUENCE) == Some(Print(first))
  {
    var l := MEDIA_SEQUENCE + Print(first);
    NumberLineIsClean(MEDIA_SEQUENCE, first);
    assert l[7] == MEDIA_SEQUENCE[7] == 'M';
    NotAfter(l, VERSION, 7);
    NotAfter(l, ALLOW_CACHE, 7);
  }

  lemma CacheLine(f: Fields)
    ensures Clean(ALLOW_CACHE + "YES") && |ALLOW_CACHE + "YES"| < 30
    ensures HeaderLine(ALLOW_CACHE + "YES", f) == Next(f.(allowCache := true))
  {
    var l := ALLOW_CACHE + "YES";
    assert l[7] == ALLOW_CACHE[7] == 'A';
    NotAfter(l, VERSION, 7);
    AfterPrefix(ALLOW_CACHE, "YES");
  }

  lemma VersionLine(f: Fields)
    ensures Clean(VERSION + "3") && |VERSION + "3"| < 30
    ensures HeaderLine(VERSION + "3", f) == Next(f.(version := 3))
  {
    assert "3" == Print(3);
    NumberLineIsClean(VERSION, 3);
    ParsePrint(3, INT_MAX);
  }

  /** Whether caching is allowed: YES, NO, or a failure for any other capitals. */
  lemma CacheLineIs(value: string, f: Fields)
    requires value != "" && AllCapitals(value)
    ensures HeaderLine("#EXT-X-ALLOW-CACHE:" + value, f)
            == if value == "YES" then Next(f.(allowCache := true))
               else if value == "NO" then Next(f.(allowCache := false)) else Fail
  {
    var l := "#EXT-X-ALLOW-CACHE:" + value;
    assert l[7] == 'A' && VERSION[7] == 'V';
    NotAfter(l, VERSION, 7);
    AfterPrefix("#EXT-X-ALLOW-CACHE:", value);
    hide AllCapitals;
  }

  /** The version is any number that fits an int. */
  lemma VersionLineIs(n: nat, f: Fields)
    requires n <= UINT64_MAX
    ensures HeaderLine("#EXT-X-VERSION:" + Print(n), f) == if n <= 0x7fff_ffff then Next(f.(version := n)) else Fail
  {
    NumberLineIsClean("#EXT-X-VERSION:", n);
    ParsePrint(n, INT_MAX);
    assert ("#EXT-X-VERSION:" + Print(n))[1] == 'E' && ("#EXT-X-VERSION:" + Print(n))[4] == '-';
    assert HEADER[4] == 'M';
    hide Print, Parse;
  }

  lemma TargetLine(target: nat, f: Fields)
    requires target <= UINT64_MAX
    ensures HeaderLine(TARGET_DURATION + Print(target), f)
            == if target <= INT_MAX then Next(f.(targetDuration := target)) else Fail
  {
    TargetFields(target);
    hide NumberAfter, CapitalsAfter, Print, Parse;
    ParsePrint(target, INT_MAX);
  }

  lemma TargetFields(target: nat)
    requires target <= UINT64_MAX
    ensures var l := TARGET_DURATION + Print(target);
            && l != HEADER && NumberAfter(l, VERSION).None? && CapitalsAfter(l, ALLOW_CACHE).None?
            && NumberAfter(l, MEDIA_SEQUENCE).None? && NumberAfter(l, TARGET_DURATION) == Some(Print(target))
  {
    var l := TARGET_DURATION + Print(target);
    NumberLineIsClean(TARGET_DURATION, target);
    assert l[7] == TARGET_DURATION[7] == 'T';
    NotAfter(l, VERSION, 7);
    NotAfter(l, ALLOW_CACHE, 7);
    NotAfter(l, MEDIA_SEQUENCE, 7);
  }

  /** A line that is not a header line starts the body. */
  lemma Rejected(l: string, i: nat, c: char)
    requires (i == 4 || i == 7) && i < |l| && l[i] == c
    requires i == 4 ==> c == 'I'
    requires i == 7 ==> c == 'E'
    ensures forall f :: HeaderLine(l, f) == Reject
  {
    NotAfter(l, VERSION, i);
    NotAfter(l, ALLOW_CACHE, i);
    NotAfter(l, MEDIA_SEQUENCE, i);
    NotAfter(l, TARGET_DURATION, i);
  }

  /** A body whose first line is no header line, and has its newline or is all there is. */
  ghost predicate StartsBody(body: string, l: string) {
    var next := NonEmptyLine(body);
    && Clean(l) && next.Line? && Trim(next.text) == l
    && (forall f :: HeaderLine(l, f) == Reject)
    && (body == Nl(l, next.rest) || (body == l && next.rest == ""))
  }

  lemma FirstBodyLine(chunks: seq<ChunkInfo>, tail: string) returns (l: string)
    requires AllFit64(chunks) && (chunks == [] ==> tail == FOOTER)
    ensures StartsBody(Lines(chunks, tail), l)
  {
    hide ParseChunks, NonEmptyLine, HeaderLine, DurationLine;
    if chunks == [] {
      l := FOOTER;
      ReadFooter(CLEARED);
      assert l[7] == 'E';
      Rejected(l, 7, 'E');
    } else {
      var c := chunks[0];
      l := DurationLine(c.duration);
      DurationLineIsClean(c.duration);
      ReadLine(l, Nl(c.path, Lines(chunks[1..], tail)));
      assert l[4] == CHUNK_HEADER[4] == 'I';
      Rejected(l, 4, 'I');
    }
  }

  /** The body, including an empty one whose footer has no newline, is handed over whole. */
  lemma BodyIsHandedOver(text: string, body: string, l: string, f: Fields)
    requires StartsBody(body, l)
    requires EndsWith(text, Nl("", body))
    ensures ParseHeader(text, body, f) == ParseChunks(body, f)
  {
    hide ParseChunks, NonEmptyLine, HeaderLine, Rewound;
    EndsWithNl(text, "", body);
    assert text[|text| - |body| - 1..][0] == '\n';
    HandOff(text, body, l);
  }

  lemma SuffixOfSuffix(text: string, a: string, b: string)
    requires EndsWith(text, a) && EndsWith(a, b)
    ensures EndsWith(text, b)
  {
    assert text[|text| - |b|..] == text[|text| - |a|..][|a| - |b|..];
  }

  lemma EndsWithNl(text: string, l: string, tail: string)
    requires EndsWith(text, Nl(l, tail))
    ensures EndsWith(text, tail) && EndsWith(text, Nl("", tail))
  {
    var s := Nl(l, tail);
    assert s[|s| - |tail|..] == tail;
    SuffixOfSuffix(text, s, tail);
    assert s[|s| - |Nl("", tail)|..] == Nl("", tail);
    SuffixOfSuffix(text, s, Nl("", tail));
  }

  lemma LastHeaderLine(text: string, target: nat, body: string, l: string, f: Fields)
    requires target <= UINT64_MAX && StartsBody(body, l)
    requires EndsWith(text, Nl(TARGET_DURATION + Print(target), body))
    ensures ParseHeader(text, Nl(TARGET_DURATION + Print(target), body), f)
            == if target <= INT_MAX then ParseChunks(body, f.(targetDuration := target)) else (false, f)
  {
    hide ParseChunks, ParseHeader, NonEmptyLine, HeaderLine, StartsBody;
    var last := TARGET_DURATION + Print(target);
    NumberLineIsClean(TARGET_DURATION, target);
    TargetLine(target, f);
    OverLine(text, last, body, f);
    if target <= INT_MAX {
      EndsWithNl(text, last, body);
      BodyIsHandedOver(text, body, l, f.(targetDuration := target));
    }
  }

  lemma HeaderIsInFront(first: nat, target: nat, tail: string)
    ensures EndsWith(WithHeader(first, target, tail), Nl(TARGET_DURATION + Print(target), tail))
  {
    var t4 := Nl(TARGET_DURATION + Print(target), tail);
    var t3 := Nl(VERSION + "3", t4);
    var t2 := Nl(ALLOW_CACHE + "YES", t3);
    var t1 := Nl(MEDIA_SEQUENCE + Print(first), t2);
    var text := Nl(HEADER, t1);
    EndsWithNl(text, HEADER, t1);
    EndsWithNl(text, MEDIA_SEQUENCE + Print(first), t2);
    EndsWithNl(text, ALLOW_CACHE + "YES", t3);
    EndsWithNl(text, VERSION + "3", t4);
  }

  /** The header up to its last line is read, or the reader fails in it. */
  lemma HeaderIsSkipped(first: nat, target: nat, tail: string)
    requires first <= UINT64_MAX
    ensures var text, last := WithHeader(first, target, tail), Nl(TARGET_DURATION + Print(target), tail);
            && EndsWith(text, last)
            && (first <= INT_MAX ==> ParseText(text) == ParseHeader(text, last, Fields(3, true, first, -1, [])))
            && (first > INT_MAX ==> ParseText(text) == (false, CLEARED))
  {
    hide ParseHeader, NonEmptyLine, HeaderLine;
    var text := WithHeader(first, target, tail);
    var t4 := Nl(TARGET_DURATION + Print(target), tail);
    var t3 := Nl(VERSION + "3", t4);
    var t2 := Nl(ALLOW_CACHE + "YES", t3);
    var t1 := Nl(MEDIA_SEQUENCE + Print(first), t2);
    assert text == Nl(HEADER, t1);
    HeaderIsInFront(first, target, tail);
    TopLine(CLEARED);
    OverLine(text, HEADER, t1, CLEARED);
    SequenceLine(first, CLEARED);
    NumberLineIsClean(MEDIA_SEQUENCE, first);
    OverLine(text, MEDIA_SEQUENCE + Print(first), t2, CLEARED);
    if first <= INT_MAX {
      var f1 := CLEARED.(mediaSequence := first);
      CacheLine(f1);
      OverLine(text, ALLOW_CACHE + "YES", t3, f1);
      var f2 := f1.(allowCache := true);
      VersionLine(f2);
      OverLine(text, VERSION + "3", t4, f2);
    }
  }

  /** The whole header is read, or the reader fails in it, before any chunk is looked at. */
  lemma HeaderIsRead(first: nat, target: nat, chunks: seq<ChunkInfo>, tail: string)
    requires first <= UINT64_MAX && target <= UINT64_MAX && AllFit64(chunks) && (chunks == [] ==> tail == FOOTER)
    ensures var text, body := WithHeader(first, target, Lines(chunks, tail)), Lines(chunks, tail);
            if first <= INT_MAX && target <= INT_MAX
            then ParseText(text) == ParseChunks(body, Fields(3, true, first, target, []))
            else !ParseText(text).0 && ParseText(text).1.chunks == []
  {
    hide ParseChunks, ParseText, ParseHeader, StartsBody, Lines, WithHeader;
    var body := Lines(chunks, tail);
    var l := FirstBodyLine(chunks, tail);
    HeaderIsSkipped(first, target, body);
    if first <= INT_MAX {
      LastHeaderLine(WithHeader(first, target, body), target, body, l, Fields(3, true, first, -1, []));
    }
  }

  /** A header without a chunk or a footer behind it is not a playlist. */
  lemma HeaderAlone(first: nat, target: nat)
    requires first <= UINT64_MAX && target <= UINT64_MAX
    ensures !ParseText(WithHeader(first, target, "")).0 && ParseText(WithHeader(first, target, "")).1.chunks == []
  {
    hide ParseText, ParseHeader, HeaderLine, WithHeader, Print;
    var text, last := WithHeader(first, target, ""), TARGET_DURATION + Print(target);
    HeaderIsSkipped(first, target, "");
    if first <= INT_MAX {
      var f := Fields(3, true, first, -1, []);
      NumberLineIsClean(TARGET_DURATION, target);
      TargetLine(target, f);
      OverLine(text, last, "", f);
      if target <= INT_MAX {
        NothingIsEnd(text, f.(targetDuration := target));
      }
    }
  }

  lemma NothingIsEnd(text: string, f: Fields)
    ensures ParseHeader(text, "", f) == (false, f) && ParseChunks("", f) == (f.chunks != [], f)
  {
  }

  /**
    A playlist that was cut off behind a line, so that its footer is missing: the chunks are read all the
    same, and reading succeeds.
  */
  lemma CutPlaylistIsReadBack(first: nat, target: nat, chunks: seq<ChunkInfo>)
    requires first <= UINT64_MAX && target <= UINT64_MAX && AllNamed(chunks) && chunks != []
    ensures var (ok, f) := ParseText(WithHeader(first, target, Lines(chunks, "")));
            && (ok <==> first <= INT_MAX && target <= INT_MAX && AllFit(chunks))
            && (ok ==> f == Fields(3, true, first, target, RoundedAll(chunks)))
  {
    hide ParseChunks, ParseText, Lines, WithHeader;
    HeaderIsRead(first, target, chunks, "");
    ReadLines(chunks, "", Fields(3, true, first, target, []));
    NothingIsEnd("", Fields(3, true, first, target, RoundedAll(chunks)));
    assert [] + RoundedAll(chunks) == RoundedAll(chunks) && chunks[..|chunks|] == chunks;
  }

  /**
    Chunks named by their index: reading the written playlist succeeds exactly when the two header numbers
    fit `int` and every path fits a line buffer, and then everything comes back, durations rounded to 10 ms.
  */
  lemma WrittenPlaylistIsReadBack(first: nat, target: nat, chunks: seq<ChunkInfo>)
    requires first <= UINT64_MAX && target <= UINT64_MAX && AllNamed(chunks)
    ensures var (ok, f) := ParseText(Text(first, target, chunks));
            && (ok <==> first <= INT_MAX && target <= INT_MAX && AllFit(chunks))
            && (ok ==> f == Fields(3, true, first, target, RoundedAll(chunks)))
            && (first <= INT_MAX && target <= INT_MAX ==> f.chunks == RoundedAll(chunks[..FirstUnfit(chunks)]))
  {
    hide ParseChunks, ParseText, Body, Lines, WithHeader;
    LinesAreBody(chunks);
    HeaderIsRead(first, target, chunks, FOOTER);
    ReadBody(chunks, Fields(3, true, first, target, []));
    assert [] + RoundedAll(chunks[..FirstUnfit(chunks)]) == RoundedAll(chunks[..FirstUnfit(chunks)]);
    assert chunks[..|chunks|] == chunks;
  }

  // ----------------------------------------------------------------- any clean paths

  predicate AllCleanAndFit(chunks: seq<ChunkInfo>) {
    forall i :: 0 <= i < |chunks| ==> Clean(chunks[i].path) && FitsLine(chunks[i])
  }

  /** The path has the shape of a chunk name, with an index of 64 bits. */
  predicate Indexed(c: ChunkInfo) {
    ParseIndex(c.path).Some?
  }

  predicate AllIndexed(chunks: seq<ChunkInfo>) {
    forall i :: 0 <= i < |chunks| ==> Indexed(chunks[i])
  }

  /** What a chunk is read as: its index is the one in its path. */
  function AsRead(c: ChunkInfo): ChunkInfo {
    Rounded(c).(index := if Indexed(c) then ParseIndex(c.path).value else c.index)
  }

  function AsReadAll(chunks: seq<ChunkInfo>): (r: seq<ChunkInfo>)
    ensures |r| == |chunks|
    ensures forall i :: 0 <= i < |chunks| ==> r[i] == AsRead(chunks[i])
  {
    if chunks == [] then [] else [AsRead(chunks[0])] + AsReadAll(chunks[1..])
  }

  lemma ReadCleanPath(path: string, tail: string) returns (raw: string, rest: string)
    requires Clean(path) && |path| <= MAX_LINE - 1
    ensures NonEmptyLine(Nl(path, tail)) == Line(raw, rest)
    ensures Trim(raw) == path && NonEmptyLine(rest) == NonEmptyLine(tail)
  {
    if |path| < MAX_LINE - 1 {
      ReadLine(path, tail);
      raw, rest := path + "\n", tail;
    } else {
      assert path[..MAX_LINE - 1] == path;
      ReadCutLine(path, tail);
      raw, rest := path, Nl(path[MAX_LINE - 1..], tail);
      assert rest == "\n" + tail;
      SkipNewline(tail);
    }
  }

  lemma WrittenClean(c: ChunkInfo)
    requires c.Fits64()
    ensures Clean(DurationLine(c.duration)) && |DurationLine(c.duration)| < 40
    ensures DurationLine(c.duration) != FOOTER
    ensures ChunkOf(DurationLine(c.duration), c.path) == if Indexed(c) then Some(AsRead(c)) else None
  {
    DurationLineIsClean(c.duration);
    FooterIsNotAChunkHeader(DurationLine(c.duration));
  }

  lemma ReadCleanChunk(c: ChunkInfo, tail: string, f: Fields)
    requires c.Fits64() && Clean(c.path) && FitsLine(c)
    ensures ParseChunks(WithLine(c, tail), f)
            == if Indexed(c) then ParseChunks(tail, f.(chunks := f.chunks + [AsRead(c)])) else (false, f)
  {
    hide NonEmptyLine, Trim, ChunkOf, ParseChunks, DurationLine, Indexed, AsRead;
    var h := DurationLine(c.duration);
    WrittenClean(c);
    ReadLine(h, Nl(c.path, tail));
    var raw, rest := ReadCleanPath(c.path, tail);
    ChunkTurn(WithLine(c, tail), f);
    if Indexed(c) {
      SameLinesSameChunks(rest, tail, f.(chunks := f.chunks + [AsRead(c)]));
    }
  }

  lemma {:induction false} ReadCleanBody(chunks: seq<ChunkInfo>, f: Fields)
    requires AllFit64(chunks) && AllCleanAndFit(chunks)
    ensures AllIndexed(chunks) ==>
              ParseChunks(Body(chunks), f) == (true, f.(chunks := f.chunks + AsReadAll(chunks)))
    ensures !AllIndexed(chunks) ==> !ParseChunks(Body(chunks), f).0
  {
    hide ParseChunks, WithLine, NonEmptyLine, Clean, FitsLine, Indexed, AsRead;
    if chunks == [] {
      ReadFooter(f);
      assert f.chunks + [] == f.chunks;
    } else {
      var c, others := chunks[0], chunks[1..];
      var g := f.(chunks := f.chunks + [AsRead(c)]);
      ReadCleanChunk(c, Body(others), f);
      ReadCleanBody(others, g);
      assert g.chunks + AsReadAll(others) == f.chunks + ([AsRead(c)] + AsReadAll(others));
      assert AllIndexed(chunks) <==> Indexed(c) && AllIndexed(others);
    }
  }

  /**
    Any clean paths that fit a line buffer: reading succeeds exactly when the two header numbers fit `int`
    and every path ends in an index of 64 bits, and it gives the chunks back, rounded, exactly when each
    path ends in its own chunk's index.
  */
  lemma CleanPlaylistIsReadBackIff(first: nat, target: nat, chunks: seq<ChunkInfo>)
    requires first <= UINT64_MAX && target <= UINT64_MAX && AllFit64(chunks) && AllCleanAndFit(chunks)
    ensures var (ok, f) := ParseText(Text(first, target, chunks));
            && (ok <==> first <= INT_MAX && target <= INT_MAX && AllIndexed(chunks))
            && (ok ==> f == Fields(3, true, first, target, AsReadAll(chunks)))
            && (ok && f.chunks == RoundedAll(chunks) <==> first <= INT_MAX && target <= INT_MAX && AllNamed(chunks))
  {
    hide ParseChunks, ParseText, Body, Lines, WithHeader, Clean, FitsLine;
    LinesAreBody(chunks);
    HeaderIsRead(first, target, chunks, FOOTER);
    ReadCleanBody(chunks, Fields(3, true, first, target, []));
    assert [] + AsReadAll(chunks) == AsReadAll(chunks);
    ReadAsNamedIff(chunks);
  }

  lemma ReadAsNamedIff(chunks: seq<ChunkInfo>)
    requires AllFit64(chunks)
    ensures AllIndexed(chunks) && AsReadAll(chunks) == RoundedAll(chunks) <==> AllNamed(chunks)
  {
    hide ParseIndex, AsReadAll, RoundedAll;
    if AllIndexed(chunks) && AsReadAll(chunks) == RoundedAll(chunks) {
      forall i | 0 <= i < |chunks|
        ensures Named(chunks[i])
      {
        assert AsRead(chunks[i]) == AsReadAll(chunks)[i] == Rounded(chunks[i]);
      }
    }
  }

  lemma RoundingError(c: ChunkInfo)
    ensures -5_000_000 <= Rounded(c).duration as int - c.duration as int <= 5_000_000
    ensures Rounded(Rounded(c)) == Rounded(c)
  {
  }

  lemma {:induction false} RoundedBody(chunks: seq<ChunkInfo>)
    ensures Body(RoundedAll(chunks)) == Body(chunks)
  {
    if chunks != [] {
      RoundingError(chunks[0]);
      RoundedBody(chunks[1..]);
      assert RoundedAll(chunks)[1..] == RoundedAll(chunks[1..]);
    }
  }

  /** Writing what was read gives the same file, and rounding never moves a duration by more than 5 ms. */
  lemma SecondRoundChangesNothing(first: nat, target: nat, chunks: seq<ChunkInfo>)
    requires first <= INT_MAX && target <= INT_MAX && AllNamed(chunks) && AllFit(chunks)
    ensures var (ok, f) := ParseText(Text(first, target, chunks));
            && ok && f.mediaSequence >= 0 && f.targetDuration >= 0
            && Text(f.mediaSequence, f.targetDuration, f.chunks) == Text(first, target, chunks)
            && |f.chunks| == |chunks|
            && forall i :: 0 <= i < |chunks| ==>
                 && f.chunks[i].path == chunks[i].path && f.chunks[i].index == chunks[i].index
                 && -5_000_000 <= f.chunks[i].duration as int - chunks[i].duration as int <= 5_000_000
  {
    WrittenPlaylistIsReadBack(first, target, chunks);
    RoundedBody(chunks);
    forall i | 0 <= i < |chunks|
      ensures -5_000_000 <= Rounded(chunks[i]).duration as int - chunks[i].duration as int <= 5_000_000
    {
      RoundingError(chunks[i]);
    }
  }

  // ----------------------------------------------------------------- any lines

  /** A chunk's line is words and digits, the longest run of digits at the end being its index. */
  ghost predicate IsChunkLine(line: string, word: string, digits: string) {
    && line == word + digits + ".ts"
    && (forall c :: c in word ==> '0' <= c <= '9' || 'A' <= c <= 'Z' || 'a' <= c <= 'z' || c == '_')
    && (word == "" || !IsDigit(word[|word| - 1]))
    && digits != "" && AllDigits(digits)
  }

  ghost predicate HasIndex(line: string, word: string, digits: string, index: nat) {
    IsChunkLine(line, word, digits) && Value(digits) == index
  }

  lemma IndexOfChunkLine(line: string, word: string, digits: string, index: nat)
    requires HasIndex(line, word, digits, index)
    ensures ParseIndex(line) == if index <= UINT64_MAX then Some(index) else None
  {
    hide TrailingDigits, Value;
    var n := |line| - 3;
    assert line[n..] == CHUNK_EXT && line[..n] == word + digits;
    forall i | 0 <= i < n
      ensures M3u8Format.IsWord((word + digits)[i])
    {
      if i < |word| {
        assert word[i] in word;
      }
    }
    TrailingDigitsAfter(word, digits);
  }

  /** An index is read exactly from such a line, when it has 64 bits. */
  lemma ReaderIndexIff(line: string, index: nat)
    ensures ParseIndex(line) == Some(index)
            <==> index <= UINT64_MAX
                 && exists word, digits :: HasIndex(line, word, digits, index)
  {
    hide HasIndex, ParseIndex;
    if ParseIndex(line) == Some(index) {
      var word, digits := SplitChunkLine(line);
    }
    if index <= UINT64_MAX {
      if word, digits :| HasIndex(line, word, digits, index) {
        IndexOfChunkLine(line, word, digits, index);
      }
    }
  }

  lemma SplitChunkLine(line: string) returns (word: string, digits: string)
    requires ParseIndex(line).Some?
    ensures HasIndex(line, word, digits, ParseIndex(line).value) && ParseIndex(line).value <= UINT64_MAX
  {
    var stem := Stem(line).value;
    hide Value, TrailingDigits;
    digits := TrailingDigits(stem);
    word := stem[..|stem| - |digits|];
    assert line == stem + ".ts" && stem == word + digits;
    RunIsLongest(stem);
    WordsStayWords(stem, |word|);
    assert word != "" ==> word[|word| - 1] == stem[|word| - 1];
  }

  lemma WordsStayWords(stem: string, k: nat)
    requires AllWord(stem) && k <= |stem|
    ensures forall c :: c in stem[..k] ==> '0' <= c <= '9' || 'A' <= c <= 'Z' || 'a' <= c <= 'z' || c == '_'
  {
    forall c | c in stem[..k]
      ensures '0' <= c <= '9' || 'A' <= c <= 'Z' || 'a' <= c <= 'z' || c == '_'
    {
      var i :| 0 <= i < k && stem[..k][i] == c;
      assert M3u8Format.IsWord(stem[i]);
    }
  }

  lemma {:induction false} RunIsLongest(s: string)
    ensures var k := |s| - |TrailingDigits(s)|; k == 0 || !IsDigit(s[k - 1])
    decreases |s|
  {
    if s != "" && IsDigit(s[|s| - 1]) {
      RunIsLongest(s[..|s| - 1]);
    }
  }

  /** A duration line: digits, which a dot may divide. */
  ghost predicate IsDurationLine(line: string, whole: string, fraction: string) {
    && (line == "#EXTINF:" + (whole + ("." + (fraction + ","))) || (fraction == "" && line == "#EXTINF:" + (whole + ",")))
    && whole + fraction != "" && AllDigits(whole + fraction)
  }

  ghost predicate Lasts(line: string, whole: string, fraction: string, nanos: nat) {
    IsDurationLine(line, whole, fraction) && nanos == Value(whole + fraction) * 1_000_000_000 / Pow10(|fraction|)
  }

  lemma DurationOfLine(line: string, whole: string, fraction: string, nanos: nat)
    requires Lasts(line, whole, fraction, nanos)
    ensures ParseDuration(line) == Some(nanos)
  {
    hide Value, Pow10, FirstDot, Nanos;
    NanosOf(whole, fraction);
    var number := if line == "#EXTINF:" + (whole + ("." + (fraction + ","))) then whole + ("." + fraction) else whole;
    assert line == CHUNK_HEADER + (number + ",");
    assert line[8..] == number + "," && (number + ",")[..|number|] == number;
  }

  lemma NanosOf(whole: string, fraction: string)
    requires whole + fraction != "" && AllDigits(whole + fraction)
    ensures Nanos(whole + ("." + fraction)) == Some(Value(whole + fraction) * 1_000_000_000 / Pow10(|fraction|))
    ensures fraction == "" ==> Nanos(whole) == Some(Value(whole + fraction) * 1_000_000_000 / Pow10(0))
  {
    hide Value, Pow10, FirstDot;
    NoDotInDigits(whole, fraction);
    FirstDotAfter(whole, fraction);
    NoDot(whole);
    assert whole[..|whole|] == whole;
  }

  lemma NoDotInDigits(a: string, b: string)
    requires AllDigits(a + b)
    ensures '.' !in a
  {
    forall i | 0 <= i < |a|
      ensures a[i] != '.'
    {
      assert (a + b)[i] == a[i];
    }
  }

  lemma {:induction false} NoDot(s: string)
    requires '.' !in s
    ensures FirstDot(s) == |s|
  {
    if s != "" {
      NoDot(s[1..]);
    }
  }

  lemma {:induction false} DotIsThere(s: string)
    ensures FirstDot(s) < |s| ==> s[FirstDot(s)] == '.'
  {
    if s != "" && s[0] != '.' {
      DotIsThere(s[1..]);
    }
  }

  /** A duration is read exactly from such a line, as whole nanoseconds rounded down. */
  lemma DurationIff(line: string, nanos: nat)
    ensures ParseDuration(line) == Some(nanos)
            <==> exists whole, fraction :: Lasts(line, whole, fraction, nanos)
  {
    hide Lasts, ParseDuration;
    if ParseDuration(line) == Some(nanos) {
      var whole, fraction := SplitDuration(line);
    }
    if whole, fraction :| Lasts(line, whole, fraction, nanos) {
      DurationOfLine(line, whole, fraction, nanos);
    }
  }

  lemma SplitDuration(line: string) returns (whole: string, fraction: string)
    requires ParseDuration(line).Some?
    ensures Lasts(line, whole, fraction, ParseDuration(line).value)
  {
    var a := line[8..];
    var s := a[..|a| - 1];
    assert line == "#EXTINF:" + (s + ",");
    hide Value, Pow10, FirstDot;
    var d := FirstDot(s);
    DotIsThere(s);
    whole, fraction := s[..d], if d < |s| then s[d + 1..] else "";
    if d < |s| {
      assert s == whole + ("." + fraction);
      assert s + "," == whole + ("." + (fraction + ","));
    } else {
      assert s == whole;
    }
  }

  /** Two lines that are no chunk, or a line that stands alone, end reading without success. */
  lemma OtherLinesFail(first: string, second: string, tail: string, f: Fields)
    requires Clean(first) && |first| < 254 && first != "#EXT-X-ENDLIST"
    requires Clean(second) && |second| < 254
    ensures ParseChunks(Nl(first, Nl(second, tail)), f)
            == if ParseDuration(first).Some? && ParseIndex(second).Some?
               then ParseChunks(tail, f.(chunks := f.chunks + [ChunkInfo(second, ParseDuration(first).value,
                                                                          ParseIndex(second).value)]))
               else (false, f)
    ensures ParseChunks(Nl(first, ""), f) == (false, f)
  {
    hide NonEmptyLine, Trim, ParseChunks, ParseDuration, ParseIndex;
    ReadLine(first, Nl(second, tail));
    ReadLine(second, tail);
    ReadLine(first, "");
    NoLine();
    ChunkTurn(Nl(first, Nl(second, tail)), f);
    ChunkTurn(Nl(first, ""), f);
  }

  lemma NoLine()
    ensures NonEmptyLine("") == Eof
  {
  }

  // ----------------------------------------------------------------- the text itself

  lemma HeaderText(first: nat, target: nat, tail: string)
    ensures WithHeader(first, target, tail)
            == "#EXTM3U" + ("\n" + ("#EXT-X-MEDIA-SEQUENCE:" + Print(first)
               + ("\n" + ("#EXT-X-ALLOW-CACHE:YES" + ("\n" + ("#EXT-X-VERSION:3"
               + ("\n" + ("#EXT-X-TARGETDURATION:" + Print(target) + ("\n" + tail)))))))))
  {
    hide Print;
    assert ALLOW_CACHE + "YES" == "#EXT-X-ALLOW-CACHE:YES";
    assert VERSION + "3" == "#EXT-X-VERSION:3";
  }

  /** Seconds with two digits of the nearest hundredth, and the path. */
  lemma LineText(c: ChunkInfo, tail: string)
    ensures var n := (c.duration + 5_000_000) / 10_000_000;
            WithLine(c, tail)
            == "#EXTINF:" + ((Print(n / 100) + ("." + [Digit(n / 10 % 10), Digit(n % 10)])) + ",")
               + ("\n" + (c.path + ("\n" + tail)))
  {
    hide Print, Pad;
    TwoDigitsAre((c.duration + 5_000_000) / 10_000_000);
  }

  lemma TwoDigitsAre(n: nat)
    ensures Pad(Print(n % 100), 2) == [Digit(n / 10 % 10), Digit(n % 10)]
  {
    var m := n % 100;
    DigitsOf(n);
    if m < 10 {
      assert Print(m) == [Digit(m)];
      assert "0" + [Digit(m)] == [Digit(0), Digit(m)];
      assert Pad([Digit(m)], 2) == Pad("0" + [Digit(m)], 2);
    } else {
      TensAreDigit(m);
    }
  }

  lemma DigitsOf(n: nat)
    ensures n % 100 / 10 == n / 10 % 10 && n % 100 % 10 == n % 10
  {
    var q, m := n / 100, n % 100;
    var t, u := m / 10, m % 10;
    assert n == 10 * (10 * q + t) + u;
    assert n / 10 == 10 * q + t && n % 10 == u;
  }

  lemma TensAreDigit(m: nat)
    requires 10 <= m < 100
    ensures Print(m) == [Digit(m / 10), Digit(m % 10)] && Pad(Print(m), 2) == Print(m)
  {
    assert Print(m / 10) == [Digit(m / 10)];
  }
}
