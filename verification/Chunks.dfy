/** A recorded chunk and its one-line text form `path:index:duration`. */
module Chunks {
  import opened Wrappers
  import opened Decimal

  const SECOND: nat := 1_000_000_000
  /** The invalid clock time, all bits set. */
  const CLOCK_TIME_NONE: nat := UINT64_MAX

  /** `duration` is in nanoseconds. */
  datatype ChunkInfo = ChunkInfo(path: string, duration: nat, index: nat) {
    predicate Fits64() {
      duration <= UINT64_MAX && index <= UINT64_MAX
    }
  }

  function ToText(c: ChunkInfo): string {
    c.path + ":" + Print(c.index) + ":" + Print(c.duration)
  }

  function OrZero(o: Option<nat>): nat {
    if o.Some? then o.value else 0
  }

  /** Fields that do not convert keep their default. */
  function Converted(path: string, index: string, duration: string): ChunkInfo {
    ChunkInfo(path, OrZero(Parse(duration, UINT64_MAX)), OrZero(Parse(index, UINT64_MAX)))
  }

  /** The rest of the character loop: `line` collected so far, `path` once the first colon was seen. */
  function Scan(line: string, rest: string, path: Option<string>): ChunkInfo
    decreases |rest|
  {
    if rest == "" then ChunkInfo(if path.Some? then path.value else "", 0, 0)
    else if rest[0] != ':' then Scan(line + [rest[0]], rest[1..], path)
    else match path
         case None => Scan("", rest[1..], Some(line))
         case Some(p) => Converted(p, line, rest[1..])
  }

  function FromText(s: string): Option<ChunkInfo> {
    if s == "" then None else Some(Scan("", s, None))
  }

  /** Character loop with an accumulator; stops at the second colon. */
  method ConvertFromString(from: string) returns (out: Option<ChunkInfo>)
    ensures out == FromText(from)
  {
    if from == "" {
      return None;
    }
    var path: Option<string> := None;
    var line := "";
    for i := 0 to |from|
      invariant Scan("", from, None) == Scan(line, from[i..], path)
    {
      var c := from[i];
      assert from[i..][1..] == from[i + 1..];
      if c == ':' {
        if path.None? {
          path := Some(line);
        } else {
          return Some(Converted(path.value, line, from[i + 1..]));
        }
        line := "";
      } else {
        line := line + [c];
      }
    }
    return Some(ChunkInfo(if path.Some? then path.value else "", 0, 0));
  }

  /** A stretch without colons is only collected. */
  lemma {:induction false} ScanOver(line: string, a: string, rest: string, path: Option<string>)
    requires ':' !in a
    ensures Scan(line, a + rest, path) == Scan(line + a, rest, path)
    decreases |a|
  {
    if a == "" {
      assert a + rest == rest && line + a == line;
    } else {
      assert (a + rest)[1..] == a[1..] + rest;
      assert (line + [a[0]]) + a[1..] == line + a;
      ScanOver(line + [a[0]], a[1..], rest, path);
    }
  }

  lemma {:induction false} PathStaysPut(line: string, rest: string, p: string)
    ensures Scan(line, rest, Some(p)).path == p
    decreases |rest|
  {
    if rest != "" && rest[0] != ':' {
      PathStaysPut(line + [rest[0]], rest[1..], p);
    }
  }

  lemma SplitAtColon(path: string) returns (a: string, b: string)
    requires ':' in path
    ensures path == a + ":" + b && ':' !in a
  {
    if path[0] == ':' {
      a, b := "", path[1..];
    } else {
      a, b := SplitAtColon(path[1..]);
      a := [path[0]] + a;
    }
  }

  lemma DigitsHaveNoColon(s: string)
    requires AllDigits(s)
    ensures ':' !in s
  {
  }

  /** Without colons in the first two parts, the three parts come back. */
  lemma ScanParts(path: string, index: string, duration: string)
    requires ':' !in path && ':' !in index
    ensures Scan("", path + (":" + (index + (":" + duration))), None) == Converted(path, index, duration)
  {
    var tail := ":" + duration;
    ScanOver("", path, ":" + (index + tail), None);
    assert "" + path == path;
    assert (":" + (index + tail))[1..] == index + tail;
    ScanOver("", index, tail, Some(path));
    assert "" + index == index;
    assert tail[1..] == duration;
  }

  /** A number of 64 bits, or 0. */
  function NumberOrZero(s: string): nat {
    if s != "" && AllDigits(s) && Value(s) <= 0xffff_ffff_ffff_ffff then Value(s) else 0
  }

  /**
    Any text: without a colon nothing is taken from it, with one colon only the path in front of it, with more
    the path, the index behind the first and the duration behind the second, where a bad number counts as 0.
  */
  lemma FromTextIs(path: string, index: string, duration: string)
    requires ':' !in path && ':' !in index
    ensures path != "" ==> FromText(path) == Some(ChunkInfo("", 0, 0))
    ensures FromText(path + (":" + index)) == Some(ChunkInfo(path, 0, 0))
    ensures FromText(path + (":" + (index + (":" + duration))))
            == Some(ChunkInfo(path, NumberOrZero(duration), NumberOrZero(index)))
    ensures FromText("") == None
  {
    ScanOver("", path, "", None);
    assert path + "" == path && "" + path == path;
    ScanOver("", path, ":" + index, None);
    assert (":" + index)[1..] == index;
    ScanOver("", index, "", Some(path));
    assert index + "" == index;
    ScanParts(path, index, duration);
  }

  /** Parsing what was printed gives the chunk back exactly when its path has no colon. */
  lemma TextRoundTripIff(c: ChunkInfo)
    requires c.Fits64()
    ensures FromText(ToText(c)) == Some(c) <==> ':' !in c.path
  {
    var tail := ":" + (Print(c.index) + (":" + Print(c.duration)));
    assert ToText(c) == c.path + tail;
    if ':' in c.path {
      var a, b := SplitAtColon(c.path);
      assert c.path + tail == a + (":" + (b + tail));
      ScanOver("", a, ":" + (b + tail), None);
      assert "" + a == a;
      assert (":" + (b + tail))[1..] == b + tail;
      PathStaysPut("", b + tail, a);
      assert |a| < |c.path|;
    } else {
      DigitsHaveNoColon(Print(c.index));
      ScanParts(c.path, Print(c.index), Print(c.duration));
      ParsePrint(c.index, UINT64_MAX);
      ParsePrint(c.duration, UINT64_MAX);
    }
  }
}
