/** The stateful playlist writer and reader. */
module M3u8Files {
  import opened Wrappers
  import opened Decimal
  import opened Chunks
  import opened M3u8Format

  lemma FiveLines(a: string, b: string, c: string, d: string, e: string)
    ensures a + "\n" + b + "\n" + c + "\n" + d + "\n" + e + "\n" == Nl(a, Nl(b, Nl(c, Nl(d, Nl(e, "")))))
  {
  }

  class M3u8Writer {
    /** The file written so far. */
    var file: string

    constructor ()
      ensures file == ""
    {
      file := "";
    }

    method WriteHeader(firstIndex: nat, targetDuration: nat)
      modifies this
      ensures file == old(file) + WithHeader(firstIndex, targetDuration, "")
    {
      var sequence, target := MEDIA_SEQUENCE + Print(firstIndex), TARGET_DURATION + Print(targetDuration);
      var cache, version := ALLOW_CACHE + "YES", VERSION + "3";
      file := file + (HEADER + "\n" + sequence + "\n" + cache + "\n" + version + "\n" + target + "\n");
      FiveLines(HEADER, sequence, cache, version, target);
    }

    method WriteLine(chunk: ChunkInfo)
      modifies this
      ensures file == old(file) + WithLine(chunk, "")
    {
      hide Fixed2, Centis;
      file := file
        + "#EXTINF:" + Fixed2(Centis(chunk.duration)) + ",\n"
        + chunk.path + "\n";
    }

    method WriteFooter()
      modifies this
      ensures file == old(file) + FOOTER
    {
      file := file + FOOTER;
    }
  }

  lemma HeaderThen(first: nat, target: nat, tail: string)
    ensures WithHeader(first, target, "") + tail == WithHeader(first, target, tail)
  {
    var t4 := NlThen(TARGET_DURATION + Print(target), "", tail);
    var t3 := NlThen(VERSION + "3", Nl(TARGET_DURATION + Print(target), ""), tail);
    var t2 := NlThen(ALLOW_CACHE + "YES", Nl(VERSION + "3", Nl(TARGET_DURATION + Print(target), "")), tail);
    var r2 := Nl(ALLOW_CACHE + "YES", Nl(VERSION + "3", Nl(TARGET_DURATION + Print(target), "")));
    var t1 := NlThen(MEDIA_SEQUENCE + Print(first), r2, tail);
    var t0 := NlThen(HEADER, Nl(MEDIA_SEQUENCE + Print(first), r2), tail);
    assert "" + tail == tail;
  }

  lemma NlThen(l: string, a: string, tail: string) returns (r: string)
    ensures r == Nl(l, a) + tail == Nl(l, a + tail)
  {
    r := Nl(l, a + tail);
  }

  lemma LineThen(c: ChunkInfo, tail: string)
    ensures WithLine(c, "") + tail == WithLine(c, tail)
  {
    var a := NlThen(c.path, "", tail);
    var b := NlThen(DurationLine(c.duration), Nl(c.path, ""), tail);
    assert "" + tail == tail;
  }

  /** A file opened for reading. */
  class TextFile {
    const text: string
    var pos: nat

    constructor (text: string)
      ensures this.text == text && pos == 0
    {
      this.text := text;
      pos := 0;
    }

    ghost predicate Valid()
      reads this
    {
      pos <= |text|
    }

    function Rest(): string
      requires Valid()
      reads this
    {
      text[pos..]
    }

    /** `fgets` into the line buffer; `None` at the end of the file. */
    method Gets() returns (line: Option<string>)
      requires Valid()
      modifies this
      ensures Valid()
      ensures old(Rest()) == "" ==> line.None? && pos == old(pos)
      ensures old(Rest()) != "" ==>
                var n := RawLength(old(Rest()), MAX_LINE - 1);
                line == Some(CString(old(Rest())[..n])) && Rest() == old(Rest())[n..] && pos > old(pos)
    {
      if pos == |text| {
        return None;
      }
      var n := RawLength(text[pos..], MAX_LINE - 1);
      line := Some(CString(text[pos..][..n]));
      pos := pos + n;
    }

    /** `fseek` from the start: a negative target is refused and leaves the position alone. */
    method Seek(target: int)
      requires Valid() && target <= |text|
      modifies this
      ensures Valid() && Rest() == if target >= 0 then text[target..] else old(Rest())
    {
      if target >= 0 {
        pos := target;
      }
    }

    method GetNonEmptyLine() returns (line: Option<string>)
      requires Valid()
      modifies this
      ensures Valid()
      ensures var l := NonEmptyLine(old(Rest()));
              if l.Eof? then line.None? else line == Some(l.text) && Rest() == l.rest
    {
      while true
        invariant Valid() && NonEmptyLine(Rest()) == NonEmptyLine(old(Rest()))
        decreases |text| - pos
      {
        var t := Gets();
        if t.None? {
          return None;
        }
        if !Blank(t.value) {
          return t;
        }
      }
    }
  }

  method RemoveTrailingSpaces(str: string) returns (r: string)
    ensures r == Trim(str)
  {
    r := str;
    while r != "" && IsSpace(r[|r| - 1])
      invariant Trim(r) == Trim(str)
      decreases |r|
    {
      r := r[..|r| - 1];
    }
  }

  /** One turn of the header loop. */
  lemma HeaderTurn(text: string, rest: string, f: Fields)
    requires |rest| <= |text|
    ensures var l := NonEmptyLine(rest);
            ParseHeader(text, rest, f)
            == if l.Eof? then (false, f)
               else
                 var step := HeaderLine(Trim(l.text), f);
                 if step.Next? then ParseHeader(text, l.rest, step.fields)
                 else if step.Fail? then (false, f)
                 else ParseChunks(Rewound(text, l.rest, Trim(l.text)), f)
  {
    hide NonEmptyLine, Trim, HeaderLine, ParseChunks, Rewound;
  }

  lemma RewindTarget(text: string, pos: nat, line: string)
    requires pos <= |text|
    ensures Rewound(text, text[pos..], line)
            == if pos - |line| - 1 >= 0 then text[pos - |line| - 1..] else text[pos..]
  {
  }

  class M3u8Reader {
    var version: int
    var allowCache: bool
    var mediaSequence: int
    var targetDuration: int
    var chunks: seq<ChunkInfo>

    function Current(): Fields
      reads this
    {
      Fields(version, allowCache, mediaSequence, targetDuration, chunks)
    }

    constructor ()
      ensures Current() == CLEARED
    {
      version, allowCache, mediaSequence, targetDuration, chunks := -1, false, -1, -1, [];
    }

    method Clear()
      modifies this
      ensures Current() == CLEARED
    {
      version, allowCache, mediaSequence, targetDuration, chunks := -1, false, -1, -1, [];
    }

    /** `file` is null when it could not be opened. */
    method ParseFile(file: TextFile?) returns (ok: bool)
      requires file != null ==> file.Valid() && file.pos == 0
      modifies this, file
      ensures file == null ==> !ok && Current() == CLEARED
      ensures file != null ==> (ok, Current()) == ParseText(file.text)
    {
      Clear();
      if file == null {
        return false;
      }
      hide NonEmptyLine, ParseChunks, HeaderLine, ParseHeader, Trim, Rewound;
      ghost var text, rest, fields := file.text, file.Rest(), CLEARED;
      ghost var whole := ParseText(text);
      assert rest == text;
      while true
        invariant file.Valid() && rest == file.Rest() && fields == Current()
        invariant |rest| <= |text| && ParseHeader(text, rest, fields) == whole
        decreases |rest|
      {
        HeaderTurn(text, rest, fields);
        var line := file.GetNonEmptyLine();
        if line.None? {
          return false;
        }
        var trimmed := RemoveTrailingSpaces(line.value);
        var step := ParseHeaderLine(trimmed);
        if step.Fail? {
          return false;
        }
        if step.Reject? {
          ok := ParseFrom(file, trimmed);
          return;
        }
        rest, fields := file.Rest(), Current();
      }
    }

    /** Goes back to the rejected line and reads the chunks. */
    method ParseFrom(file: TextFile, line: string) returns (ok: bool)
      requires file.Valid()
      modifies this, file
      ensures (ok, Current()) == ParseChunks(Rewound(file.text, old(file.Rest()), line), old(Current()))
    {
      hide ParseChunks;
      RewindTarget(file.text, file.pos, line);
      file.Seek(file.pos - |line| - 1);
      ok := ParseChunkLines(file);
    }

    /** The chain of header line patterns: assigns the field a line sets. */
    method ParseHeaderLine(line: string) returns (step: HeaderStep)
      modifies this
      ensures step == HeaderLine(line, old(Current()))
      ensures Current() == if step.Next? then step.fields else old(Current())
    {
      var number := NumberAfter(line, VERSION);
      var word := CapitalsAfter(line, ALLOW_CACHE);
      if line == HEADER {
      } else if number.Some? {
        var n := Parse(number.value, INT_MAX);
        if n.None? {
          return Fail;
        }
        version := n.value;
      } else if word.Some? {
        if word.value == "YES" {
          allowCache := true;
        } else if word.value == "NO" {
          allowCache := false;
        } else {
          return Fail;
        }
      } else {
        number := NumberAfter(line, MEDIA_SEQUENCE);
        if number.Some? {
          var n := Parse(number.value, INT_MAX);
          if n.None? {
            return Fail;
          }
          mediaSequence := n.value;
        } else {
          number := NumberAfter(line, TARGET_DURATION);
          if number.None? {
            return Reject;
          }
          var n := Parse(number.value, INT_MAX);
          if n.None? {
            return Fail;
          }
          targetDuration := n.value;
        }
      }
      return Next(Current());
    }

    method ParseChunkLines(file: TextFile) returns (ok: bool)
      requires file.Valid()
      modifies this, file
      ensures (ok, Current()) == ParseChunks(old(file.Rest()), old(Current()))
    {
      hide NonEmptyLine, ChunkOf;
      while true
        invariant file.Valid()
        invariant ParseChunks(file.Rest(), Current()) == ParseChunks(old(file.Rest()), old(Current()))
        decreases |file.Rest()|
      {
        var headerLine := file.GetNonEmptyLine();
        if headerLine.None? {
          return chunks != [];
        }
        var header := RemoveTrailingSpaces(headerLine.value);
        if header == FOOTER {
          return true;
        }
        var chunkLine := file.GetNonEmptyLine();
        if chunkLine.None? {
          return false;
        }
        var path := RemoveTrailingSpaces(chunkLine.value);
        var chunk := ChunkOf(header, path);
        if chunk.None? {
          return false;
        }
        chunks := chunks + [chunk.value];
      }
    }
  }
}
