/**
  Names that carry a number: pipeline elements (`stem_` and an index) and the chunk files of an HTTP
  output (`milliseconds_index.ts`), with the two functions that read the number back.
*/
module Names {
  import opened Wrappers
  import opened Decimal
  import opened M3u8Format

  // ----------------------------------------------------------------- element ids

  /** A name that matches but whose number is out of range leaves the caller's variable as it was. */
  datatype IdMatch = NoMatch | Unassigned | Assigned(id: nat)

  /** Non-empty words without underscores, each followed by one underscore. */
  predicate IsStem(s: string) {
    && s != ""
    && s[0] != '_'
    && s[|s| - 1] == '_'
    && forall i :: 0 < i < |s| && s[i] == '_' ==> s[i - 1] != '_'
  }

  /** `max` is the largest value of the id's type. */
  function NumberOfName(name: string, max: nat): IdMatch {
    var digits := TrailingDigits(name);
    if digits == "" || !IsStem(name[..|name| - |digits|]) then NoMatch
    else
      var n := Parse(digits, max);
      if n.None? then Unassigned else Assigned(n.value)
  }

  function GetElementId(name: string): IdMatch {
    NumberOfName(name, UINT64_MAX)
  }

  function GetPadId(name: string): IdMatch {
    NumberOfName(name, INT_MAX)
  }

  /** The words of the pattern's repeated group, each with its underscore. */
  function Join(words: seq<string>): string {
    if words == [] then "" else words[0] + "_" + Join(words[1..])
  }

  predicate IsWord(w: string) {
    w != "" && '_' !in w
  }

  /** The pattern `([^_]+_)+([0-9]+)` over the whole name. */
  ghost predicate Matches(name: string, words: seq<string>, digits: string) {
    && words != []
    && (forall i :: 0 <= i < |words| ==> IsWord(words[i]))
    && digits != "" && AllDigits(digits)
    && name == Join(words) + digits
  }

  lemma WordThenStem(w: string, rest: string)
    requires IsWord(w) && (rest == "" || IsStem(rest))
    ensures IsStem(w + "_" + rest)
  {
    var s := w + "_" + rest;
    assert forall i :: 0 <= i < |w| ==> s[i] == w[i] && w[i] in w;
    forall i | 0 < i < |s| && s[i] == '_'
      ensures s[i - 1] != '_'
    {
      if i == |w| {
        assert s[i - 1] == w[i - 1];
      } else if i > |w| {
        assert s[i] == rest[i - |w| - 1];
      }
    }
  }

  lemma {:induction false} JoinIsStem(words: seq<string>)
    requires words != [] && forall i :: 0 <= i < |words| ==> IsWord(words[i])
    ensures IsStem(Join(words))
    decreases |words|
  {
    if |words| > 1 {
      JoinIsStem(words[1..]);
    } else {
      assert Join(words[1..]) == "";
    }
    WordThenStem(words[0], Join(words[1..]));
  }

  function FirstUnderscore(s: string): (k: nat)
    requires s != "" && s[|s| - 1] == '_'
    ensures k < |s| && s[k] == '_' && '_' !in s[..k]
  {
    if s[0] == '_' then 0
    else
      var k := 1 + FirstUnderscore(s[1..]);
      assert s[..k] == [s[0]] + s[1..][..k - 1];
      k
  }

  lemma {:induction false} StemIsJoin(s: string) returns (words: seq<string>)
    requires IsStem(s)
    ensures words != [] && (forall i :: 0 <= i < |words| ==> IsWord(words[i])) && Join(words) == s
    decreases |s|
  {
    var k := FirstUnderscore(s);
    var rest := s[k + 1..];
    assert s == s[..k] + "_" + rest;
    if rest == "" {
      words := [s[..k]];
      assert Join(words[1..]) == "";
    } else {
      assert rest[0] == s[k + 1] && rest[|rest| - 1] == s[|s| - 1];
      forall i | 0 < i < |rest| && rest[i] == '_'
        ensures rest[i - 1] != '_'
      {
        assert rest[i] == s[k + 1 + i] && rest[i - 1] == s[k + i];
      }
      var more := StemIsJoin(rest);
      words := [s[..k]] + more;
      assert words[1..] == more;
    }
  }

  /** However a name matches the pattern, its number is the run of digits at its end. */
  lemma MatchIsUnique(name: string, words: seq<string>, digits: string, max: nat)
    requires Matches(name, words, digits)
    ensures NumberOfName(name, max) == if Value(digits) <= max then Assigned(Value(digits)) else Unassigned
  {
    hide IsStem, TrailingDigits, Join;
    JoinIsStem(words);
    StemEndsWithUnderscore(Join(words));
    TrailingDigitsAfter(Join(words), digits);
    assert name[..|name| - |digits|] == Join(words);
  }

  lemma StemEndsWithUnderscore(s: string)
    requires IsStem(s)
    ensures s != "" && !IsDigit(s[|s| - 1])
  {
  }

  /** A name has a number exactly when the pattern matches it. */
  lemma ElementIdIsPatternMatch(name: string, max: nat)
    ensures NumberOfName(name, max) != NoMatch <==> exists words, digits :: Matches(name, words, digits)
  {
    hide IsStem, Join;
    if NumberOfName(name, max) != NoMatch {
      var digits := TrailingDigits(name);
      var words := StemIsJoin(name[..|name| - |digits|]);
      assert name == name[..|name| - |digits|] + digits;
      assert Matches(name, words, digits);
    }
    if words, digits :| Matches(name, words, digits) {
      MatchIsUnique(name, words, digits, max);
    }
  }

  /** The id of a generated name is the number it was generated from. */
  lemma IdOfGeneratedName(stem: string, n: nat)
    requires IsStem(stem)
    ensures GetElementId(stem + Print(n)) == if n <= UINT64_MAX then Assigned(n) else Unassigned
    ensures GetPadId(stem + Print(n)) == if n <= INT_MAX then Assigned(n) else Unassigned
  {
    hide IsStem;
    var words := StemIsJoin(stem);
    ValueOfPrint(n);
    assert Matches(stem + Print(n), words, Print(n));
    MatchIsUnique(stem + Print(n), words, Print(n), UINT64_MAX);
    MatchIsUnique(stem + Print(n), words, Print(n), INT_MAX);
  }

  /** Two generated names are equal only when both their stems, which end in no digit, and their numbers are. */
  lemma GeneratedNamesDiffer(s: string, a: nat, t: string, b: nat)
    requires s != "" && !IsDigit(s[|s| - 1]) && t != "" && !IsDigit(t[|t| - 1])
    requires s + Print(a) == t + Print(b)
    ensures s == t && a == b
  {
    hide TrailingDigits;
    TrailingDigitsAfter(s, Print(a));
    TrailingDigitsAfter(t, Print(b));
    PrintInjective(a, b);
    assert s == (s + Print(a))[..|s|];
    assert t == (t + Print(b))[..|t|];
  }

  // ----------------------------------------------------------------- chunk files of an HTTP output

  const TEMPLATE_WIDTH: nat := 5

  /** What the template becomes for chunk `n`: the template's time, then the index padded to five digits. */
  function HttpChunkName(msec: nat, n: nat): string {
    Print(msec) + "_" + Pad(Print(n), TEMPLATE_WIDTH) + CHUNK_EXT
  }

  predicate IsLineEnd(c: char) {
    c == '\n' || c == '\r'
  }

  /** The dot of the extension is not escaped in the pattern, so any character but a line end may stand there. */
  function GetIndexFromHttpTsTemplate(name: string): Option<nat> {
    var n := |name| - 3;
    if n < 0 || name[n + 1..] != "ts" || IsLineEnd(name[n]) then None
    else
      var digits := TrailingDigits(name[..n]);
      var k := n - |digits|;
      if digits == "" || k < 2 || name[k - 1] != '_' || !AllDigits(name[..k - 1]) then None
      else Parse(digits, UINT64_MAX)
  }

  /** The pattern `[0-9]+_([0-9]+).ts` over the whole name. */
  ghost predicate MatchesChunk(name: string, time: string, digits: string, dot: char) {
    && time != "" && AllDigits(time)
    && digits != "" && AllDigits(digits)
    && !IsLineEnd(dot)
    && name == time + "_" + digits + [dot] + "ts"
  }

  lemma ChunkMatchGivesIndex(name: string, time: string, digits: string, dot: char)
    requires MatchesChunk(name, time, digits, dot)
    ensures GetIndexFromHttpTsTemplate(name) == if Value(digits) <= UINT64_MAX then Some(Value(digits)) else None
  {
    hide TrailingDigits;
    var head := time + "_";
    var n := |name| - 3;
    assert name[n + 1..] == "ts" && name[n] == dot;
    assert name[..n] == head + digits;
    TrailingDigitsAfter(head, digits);
    assert name[..|time|] == time && name[|time|] == '_';
  }

  /** An index is found exactly in the names the pattern matches with a number of 64 bits. */
  lemma ChunkIndexIff(name: string, index: nat)
    ensures GetIndexFromHttpTsTemplate(name) == Some(index)
            <==> index <= UINT64_MAX
                 && exists time, digits, dot :: MatchesChunk(name, time, digits, dot) && Value(digits) == index
  {
    if GetIndexFromHttpTsTemplate(name) == Some(index) {
      var n := |name| - 3;
      var digits := TrailingDigits(name[..n]);
      var k := n - |digits|;
      assert name[..n] == name[..k] + digits;
      assert name[..k] == name[..k - 1] + "_";
      assert name == name[..n] + [name[n]] + "ts";
      assert name == name[..k - 1] + "_" + digits + [name[n]] + "ts";
      assert MatchesChunk(name, name[..k - 1], digits, name[n]);
    }
    if index <= UINT64_MAX {
      if time, digits, dot :| MatchesChunk(name, time, digits, dot) && Value(digits) == index {
        ChunkMatchGivesIndex(name, time, digits, dot);
      }
    }
  }

  /** A generated chunk name: the time, and the index in at least five digits. */
  lemma HttpChunkNameIs(msec: nat, n: nat) returns (digits: string)
    ensures HttpChunkName(msec, n) == Print(msec) + "_" + digits + ".ts"
    ensures AllDigits(digits) && Value(digits) == n
    ensures |digits| == if |Print(n)| < 5 then 5 else |Print(n)|
  {
    digits := Pad(Print(n), TEMPLATE_WIDTH);
    ValueOfPrint(n);
    ValuePad(Print(n), TEMPLATE_WIDTH);
  }

  /** Reading the index of a generated chunk name gives it back, whatever its width. */
  lemma IndexOfGeneratedChunk(msec: nat, n: nat)
    requires n <= UINT64_MAX
    ensures GetIndexFromHttpTsTemplate(HttpChunkName(msec, n)) == Some(n)
  {
    var digits := Pad(Print(n), TEMPLATE_WIDTH);
    ValueOfPrint(n);
    ValuePad(Print(n), TEMPLATE_WIDTH);
    var name := HttpChunkName(msec, n);
    ExtensionSplits(Print(msec) + "_" + digits);
    assert MatchesChunk(name, Print(msec), digits, '.');
    ChunkMatchGivesIndex(name, Print(msec), digits, '.');
  }

  lemma ExtensionSplits(s: string)
    ensures s + CHUNK_EXT == s + ['.'] + "ts"
  {
  }

  /** The playlist reader finds the same index in the generated name. */
  lemma PlaylistReaderAgrees(msec: nat, n: nat)
    requires n <= UINT64_MAX
    ensures ParseIndex(HttpChunkName(msec, n)) == Some(n)
  {
    hide TrailingDigits, Pad, Print, Value;
    var digits := Pad(Print(n), TEMPLATE_WIDTH);
    var head := Print(msec) + "_";
    var line := HttpChunkName(msec, n);
    ValueOfPrint(n);
    ValuePad(Print(n), TEMPLATE_WIDTH);
    assert line[..|line| - 3] == head + digits && line[|line| - 3..] == CHUNK_EXT;
    TrailingDigitsAfter(head, digits);
  }
}
