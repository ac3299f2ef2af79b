/** Choosing the chunk to play, or the last one, among the chunk files of a recording directory. */
module ChunkSearch {
  import opened Wrappers
  import opened Decimal

  /** All bits set: no chunk. */
  const INVALID_INDEX: nat := UINT64_MAX

  /** A chunk file: the index in its name and its modification time in seconds. */
  datatype ChunkFile = ChunkFile(index: nat, time: int)

  // ----------------------------------------------------------------- sorting by index

  predicate Sorted(files: seq<ChunkFile>) {
    forall i, j :: 0 <= i < j < |files| ==> files[i].index <= files[j].index
  }

  predicate Before(a: ChunkFile, b: ChunkFile) {
    a.index < b.index
  }

  /** The directory listing in index order, as the library sort leaves it. */
  function SortFiles(files: seq<ChunkFile>): (r: seq<ChunkFile>)
    ensures Sorted(r) && multiset(r) == multiset(files)
  {
    if files == [] then []
    else
      var r := Insert(files[0], SortFiles(files[1..]));
      assert files == [files[0]] + files[1..];
      r
  }

  function Insert(f: ChunkFile, files: seq<ChunkFile>): (r: seq<ChunkFile>)
    requires Sorted(files)
    ensures Sorted(r) && multiset(r) == multiset{f} + multiset(files)
  {
    if files == [] || !Before(files[0], f) then [f] + files
    else
      var rest := Insert(f, files[1..]);
      InsertBehind(f, files, rest);
      [files[0]] + rest
  }

  lemma InsertBehind(f: ChunkFile, files: seq<ChunkFile>, rest: seq<ChunkFile>)
    requires Sorted(files) && files != [] && files[0].index < f.index
    requires Sorted(rest) && multiset(rest) == multiset{f} + multiset(files[1..])
    ensures var r := [files[0]] + rest; Sorted(r) && multiset(r) == multiset{f} + multiset(files)
  {
    assert files == [files[0]] + files[1..];
    StaysBelow(files[0], f, files[1..], rest);
  }

  lemma StaysBelow(low: ChunkFile, f: ChunkFile, files: seq<ChunkFile>, rest: seq<ChunkFile>)
    requires multiset(rest) == multiset{f} + multiset(files)
    requires low.index <= f.index && forall i :: 0 <= i < |files| ==> low.index <= files[i].index
    ensures forall i :: 0 <= i < |rest| ==> low.index <= rest[i].index
  {
    forall i | 0 <= i < |rest|
      ensures low.index <= rest[i].index
    {
      assert rest[i] in multiset(rest);
      assert rest[i] == f || rest[i] in multiset(files);
    }
  }

  lemma SortKeepsFiles(files: seq<ChunkFile>)
    ensures forall f :: f in SortFiles(files) <==> f in files
    ensures |SortFiles(files)| == |files|
  {
    var r := SortFiles(files);
    forall f
      ensures f in r <==> f in files
    {
      assert f in r <==> f in multiset(r);
      assert f in files <==> f in multiset(files);
    }
    assert |multiset(r)| == |r| && |multiset(files)| == |files|;
  }

  // ----------------------------------------------------------------- the chunk to play

  /** The scan accepts a file whose offset from the desired moment, shifted by one duration, is small. */
  function Offset(desired: int, duration: int, f: ChunkFile): int {
    desired - f.time + duration
  }

  predicate Accepted(desired: int, duration: int, f: ChunkFile) {
    -duration < Offset(desired, duration, f) < duration
  }

  /** The scan over the sorted files from `i` on. */
  function ScanFrom(files: seq<ChunkFile>, i: nat, previous: nat, desired: int, duration: int): Option<nat>
    requires i <= |files|
    decreases |files| - i
  {
    if i == |files| then None
    else if Accepted(desired, duration, files[i]) then
      if Offset(desired, duration, files[i]) > 0 && previous != INVALID_INDEX
      then Some(previous)
      else Some(files[i].index)
    else ScanFrom(files, i + 1, files[i].index, desired, duration)
  }

  /** `delay` is in minutes, everything else in seconds. */
  function ChunkToPlay(listing: seq<ChunkFile>, now: int, delay: int, duration: int): Option<nat> {
    ScanFrom(SortFiles(listing), 0, INVALID_INDEX, now - delay * 60, duration)
  }

  method FindChunkToPlay(listing: seq<ChunkFile>, now: int, delay: int, duration: int) returns (index: Option<nat>)
    ensures index == ChunkToPlay(listing, now, delay, duration)
  {
    var desired := now - delay * 60;
    if listing == [] {
      return None;
    }
    var files := SortFiles(listing);
    var previous := INVALID_INDEX;
    for i := 0 to |files|
      invariant ScanFrom(files, 0, INVALID_INDEX, desired, duration) == ScanFrom(files, i, previous, desired, duration)
    {
      var diff := (desired - files[i].time) + duration;
      if -duration < diff && diff < duration {
        if diff > 0 && previous != INVALID_INDEX {
          return Some(previous);
        } else {
          return Some(files[i].index);
        }
      }
      previous := files[i].index;
    }
    return None;
  }

  /** The window the search looks for: after the desired moment, by less than two durations. */
  predicate InWindow(desired: int, duration: int, t: int) {
    desired < t < desired + 2 * duration
  }

  lemma {:induction false} ScanFindsFirst(files: seq<ChunkFile>, i: nat, previous: nat, desired: int, duration: int)
    returns (k: nat)
    requires i <= |files|
    requires i > 0 ==> previous == files[i - 1].index
    requires i == 0 ==> previous == INVALID_INDEX
    ensures i <= k <= |files|
    ensures forall j :: i <= j < k ==> !InWindow(desired, duration, files[j].time)
    ensures k < |files| ==> InWindow(desired, duration, files[k].time)
    ensures ScanFrom(files, i, previous, desired, duration)
            == if k == |files| then None
               else if files[k].time < desired + duration && k > 0 && files[k - 1].index != INVALID_INDEX
               then Some(files[k - 1].index)
               else Some(files[k].index)
    decreases |files| - i
  {
    if i == |files| || Accepted(desired, duration, files[i]) {
      k := i;
    } else {
      k := ScanFindsFirst(files, i + 1, files[i].index, desired, duration);
    }
  }

  lemma PositionOf(files: seq<ChunkFile>, f: ChunkFile) returns (j: nat)
    requires f in files
    ensures j < |files| && files[j] == f
  {
    j :| 0 <= j < |files| && files[j] == f;
  }

  /** The search succeeds exactly when some chunk was last written within the window. */
  lemma SucceedsIff(listing: seq<ChunkFile>, now: int, delay: int, duration: int)
    ensures ChunkToPlay(listing, now, delay, duration).Some?
            <==> exists f :: f in listing && InWindow(now - delay * 60, duration, f.time)
  {
    var desired := now - delay * 60;
    var files := SortFiles(listing);
    SortKeepsFiles(listing);
    hide SortFiles, ScanFrom;
    var k := ScanFindsFirst(files, 0, INVALID_INDEX, desired, duration);
    if k < |files| {
      assert files[k] in listing;
    } else {
      forall f | f in listing
        ensures !InWindow(desired, duration, f.time)
      {
        var j := PositionOf(files, f);
      }
    }
  }

  /**
    Whatever the times: in index order the first chunk within the window is found, or the chunk before it when
    it lies less than one duration ahead of the desired moment.
  */
  lemma FoundInOrder(listing: seq<ChunkFile>, now: int, delay: int, duration: int)
    returns (files: seq<ChunkFile>, k: nat)
    requires ChunkToPlay(listing, now, delay, duration).Some?
    ensures multiset(files) == multiset(listing) && k < |files|
    ensures forall i, j :: 0 <= i < j < |files| ==> files[i].index <= files[j].index
    ensures var desired := now - delay * 60;
            && desired < files[k].time < desired + 2 * duration
            && (forall j :: 0 <= j < k ==> !(desired < files[j].time < desired + 2 * duration))
            && ChunkToPlay(listing, now, delay, duration)
               == if files[k].time < desired + duration && k > 0 && files[k - 1].index != UINT64_MAX
                  then Some(files[k - 1].index) else Some(files[k].index)
  {
    files := SortFiles(listing);
    hide SortFiles, ScanFrom;
    k := ScanFindsFirst(files, 0, INVALID_INDEX, now - delay * 60, duration);
  }

  /** Chunk times follow the index order. */
  predicate TimesFollowIndices(listing: seq<ChunkFile>) {
    forall f, g :: f in listing && g in listing && f.index <= g.index ==> f.time <= g.time
  }

  /** `p` is a chunk already finished at the desired moment, with the greatest index among those. */
  predicate IsPredecessor(listing: seq<ChunkFile>, desired: int, p: ChunkFile) {
    && p in listing && p.time <= desired
    && forall f :: f in listing && f.time <= desired ==> f.index <= p.index
  }

  /** `p` is a chunk still unfinished at the desired moment, earliest by time and by index. */
  predicate IsSuccessor(listing: seq<ChunkFile>, desired: int, p: ChunkFile) {
    && p in listing && p.time > desired
    && forall f :: f in listing && f.time > desired ==> p.time <= f.time && p.index <= f.index
  }

  /** In sorted order the files split at the first one after the desired moment. */
  lemma SplitsAt(listing: seq<ChunkFile>, desired: int, duration: int, k: nat)
    requires TimesFollowIndices(listing)
    requires var files := SortFiles(listing);
             && k < |files| && InWindow(desired, duration, files[k].time)
             && forall j :: 0 <= j < k ==> !InWindow(desired, duration, files[j].time)
    ensures IsSuccessor(listing, desired, SortFiles(listing)[k])
    ensures if k > 0 then IsPredecessor(listing, desired, SortFiles(listing)[k - 1])
            else forall f :: f in listing ==> f.time > desired
  {
    var files := SortFiles(listing);
    SortKeepsFiles(listing);
    hide SortFiles;
    assert files[k] in listing;
    forall f | f in listing
      ensures f.time > desired ==> files[k].time <= f.time && files[k].index <= f.index
      ensures f.time <= desired ==> k > 0 && f.index <= files[k - 1].index
    {
      var j := PositionOf(files, f);
      assert j < k ==> f.index <= files[k].index;
    }
    if k > 0 {
      assert files[k - 1] in listing;
      assert files[k - 1].index <= files[k].index;
    }
  }

  /**
    With times in index order the scan is a predecessor search: the earliest chunk after the desired
    moment decides, and gives way to its predecessor when it lies less than one duration ahead.
  */
  lemma RefinesPredecessorSearch(listing: seq<ChunkFile>, now: int, delay: int, duration: int)
    returns (next: ChunkFile)
    requires TimesFollowIndices(listing)
    requires ChunkToPlay(listing, now, delay, duration).Some?
    ensures IsSuccessor(listing, now - delay * 60, next)
    ensures next.time >= now - delay * 60 + duration ==>
              ChunkToPlay(listing, now, delay, duration) == Some(next.index)
    ensures next.time < now - delay * 60 + duration ==>
              forall p :: IsPredecessor(listing, now - delay * 60, p) ==>
                ChunkToPlay(listing, now, delay, duration)
                == Some(if p.index != INVALID_INDEX then p.index else next.index)
    ensures (forall f :: f in listing ==> f.time > now - delay * 60) ==>
              ChunkToPlay(listing, now, delay, duration) == Some(next.index)
  {
    var desired := now - delay * 60;
    var files := SortFiles(listing);
    var k := ScanFindsFirst(files, 0, INVALID_INDEX, desired, duration);
    SplitsAt(listing, desired, duration, k);
    next := files[k];
    if k > 0 {
      var q := files[k - 1];
      forall p | IsPredecessor(listing, desired, p)
        ensures p.index == q.index
      {
        assert p in listing && q in listing;
      }
    }
  }

  /** Unless every chunk is still unfinished at the desired moment, there is a predecessor. */
  lemma PredecessorExists(listing: seq<ChunkFile>, desired: int, f: ChunkFile) returns (p: ChunkFile)
    requires f in listing && f.time <= desired
    ensures IsPredecessor(listing, desired, p)
  {
    p := f;
    for i := 0 to |listing|
      invariant p in listing && p.time <= desired
      invariant forall j :: 0 <= j < i && listing[j].time <= desired ==> listing[j].index <= p.index
    {
      if listing[i].time <= desired && listing[i].index > p.index {
        p := listing[i];
      }
    }
  }

  // ----------------------------------------------------------------- the last chunk

  function LastChunk(listing: seq<ChunkFile>): Option<ChunkFile> {
    if listing == [] then None
    else
      SortKeepsFiles(listing);
      var files := SortFiles(listing);
      Some(files[|files| - 1])
  }

  /** The last chunk is one of the files, and no file has a greater index. */
  lemma LastChunkIsGreatest(listing: seq<ChunkFile>)
    ensures LastChunk(listing).None? <==> listing == []
    ensures LastChunk(listing).Some? ==>
              && LastChunk(listing).value in listing
              && forall f :: f in listing ==> f.index <= LastChunk(listing).value.index
  {
    SortKeepsFiles(listing);
    var files := SortFiles(listing);
    hide SortFiles;
    if files != [] {
      assert files[|files| - 1] in listing;
      forall f | f in listing
        ensures f.index <= files[|files| - 1].index
      {
        var j := PositionOf(files, f);
      }
    }
  }
}
