# iptv_cloud streaming core: a verified model

This project models the parts of iptv_cloud that carry logic of their own and proves what they are
for. Everything around them (GStreamer, libev, JSON, the file system, the network) is an environment
that answers in any way it can.

| file | component |
|---|---|
| `Playlist.dfy` | the playlist source: a list of files turned into buffers, once or for ever |
| `Recorder.dfy` | the time-shift recorder: which chunk name comes next, and what cleaning up leaves |
| `Catchup.dfy` | the catch-up recording: the chunk list, its durations, its playlist |
| `M3u8.dfy`, `M3u8RoundTrip.dfy`, `M3u8Files.dfy` | the m3u8 writer and reader as text functions, the round trip, and the classes over a file |
| `Chunks.dfy`, `ChunkSearch.dfy` | the one-line text of a chunk, and the search for the chunk to play |
| `Controller.dfy` | the run/restart loop with back-off against a concurrent stop or restart |
| `Watchdog.dfy`, `Probes.dfy` | byte accounting, the data watchdog, and the end-of-stream flags per probe |
| `Subscribers.dfy` | the subscribers' connection index and the device limit |
| `Children.dfy` | one child process per stream id, and the table of VOD links |
| `Names.dfy`, `Elements.dfy` | element names and chunk names that carry a number, and reading it back |
| `Geometry.dfy` | the mosaic's tiles and level bars |
| `Mosaic.dfy`, `MosaicRoutes.dfy`, `MosaicWiring.dfy`, `MosaicBuilder.dfy` | the mosaic pipeline: names, links, routes, and the builder that makes it |
| `Wrappers.dfy`, `Decimal.dfy`, `Arithmetic.dfy`, `Sequences.dfy` | options, decimal text, division and sequence facts |

Code that only computes is a function. An object whose methods change its fields is a class, and each
method's contract gives the new state as a function of the old one; the laws about whole runs are then
proved about that function. Runs are lists of steps or events in any order, and each step carries what
the environment answered: the clock, the allocation, the fork, the user table, the chunk that was found.

Sizes and indices wrap where the code's types do: `size_t` byte counters, 64-bit chunk indices,
`GstClockTime` differences, the unsigned arithmetic of the level bars.

## Results worth knowing

Where a promise does not hold of the code, the exact condition is proved next to it.

- Played once, a callback that has its buffer can signal end of stream with bytes still to come exactly
  when a file that cannot be opened comes before a file with bytes (`Playlist.EndsEarlyIff`); a callback
  without a buffer signals it anywhere (`Playlist.NoMemoryEndsAnywhere`). In a loop it can be signalled
  with a buffer at hand exactly when some file cannot be opened (`Playlist.LoopEndsIff`). The read loop
  ends exactly when the list is played once or some entry cannot be opened or has bytes
  (`Playlist.ReadLoopEndsIff`).
- A recorder never hands out the name of an existing file (`Recorder.RunNeverOverwrites`) while the
  invariant holds, and a name loses it exactly at the last 64-bit index (`Recorder.NamingKeepsInvIff`).
  Resuming is another matter: the braces at `timeshift_recorder_stream.cpp:83` list path, index, invalid
  time, but the constructor at `chunk_info.h:26` takes path, duration, index. The code is followed as it
  is: the recorder restarts with the invalid index whatever the search found, and it never overwrites a
  file exactly when the directory holds nothing but possibly chunk 0
  (`Recorder.RestartNeverOverwritesIff`). The strategy's own index, had it been used, would keep the
  invariant (`Recorder.StartIndexDominates`). For the same reason a resumed catch-up recording closes its
  last reloaded entry a second time (`Catchup.ReloadedSurviveIff`).
- For chunks whose paths end in their index, a written playlist is read back exactly when its two header
  numbers fit `int` and its paths fit one line buffer (`M3u8RoundTrip.WrittenPlaylistIsReadBack`). For any
  clean paths that fit, it is read back exactly when the numbers do and each path ends in its chunk's index
  (`M3u8RoundTrip.CleanPlaylistIsReadBackIff`).
- A playlist that lost its footer counts as good once it has a chunk, so after a failed write the chunks
  whose lines were written are found again (`Catchup.WrittenIsReadBack`).
- A chunk's one-line text is read back exactly when its path holds no colon (`Chunks.TextRoundTripIff`).
- After a stop at most the stream of the current iteration is still created
  (`Controller.StopBoundsCreates`, tight by `Controller.StopBoundIsTight`). Four bounds the steps the main
  thread still takes exactly when it was stopped outside the chunk search
  (`Controller.StopBoundsStepsIff`): that inner loop never looks at the stop flag, and only time-shift
  players get there (`Controller.StopAlwaysBoundsStepsIff`). A stop whose notification ends the wait for a
  chunk is heard at once (`Controller.NotifiedStopIsHeard`).
- That is a bound on steps, not the end of `Exec`: a stop that lands between the loop's check and the
  creation of the stream can find nobody to ask, and then the stream created after it runs unasked. This is
  reachable for every configuration (`Controller.LostStopIsReachable`). A stop leaves no stream running
  unasked exactly when its iteration has no stream to create any more (`Controller.StopIsHeardIff`).
- The warning about a SEGMENT inside a flushing seek can never be logged
  (`Probes.FlushingSeekIsNeverSeen`).
- A subscriber that activates again while active leaves a dangling entry behind when it closes, and only
  such a subscriber does (`Subscribers.StaleIff`).
- All level bars lie in their tile exactly when the right padding less its quarter fits the tile's width
  (`Geometry.BarsAreInTileIff`).
- The chunk-name pattern accepts any character but a line end where the dot of the extension stands,
  since that dot is not escaped (`Names.ChunkIndexIff`).

## Model

| member | source | states |
|---|---|---|
| Playlist.ReadLoopEndsIff | src/stream/streams/relay/playlist_relay_stream.cpp:74-90 | from any state, the read loop returns after finitely many turns if and only if the list is played once, or an entry is missing or has bytes |
| Playlist.UnproductiveNeverReturns | src/stream/streams/relay/playlist_relay_stream.cpp:74-90 | a loop over readable, empty files only is still reading after any number of turns |
| Playlist.AgainGetsCloser | src/stream/streams/relay/playlist_relay_stream.cpp:105-122 | the termination measure: a turn without data lowers the cyclic distance to the next entry that ends the loop, or closes an exhausted file |
| Playlist.RunDelivers | src/stream/streams/encoding/playlist_encoding_stream.cpp:58-132 | over any run: what was still to come at the start, extended by the laps the loop began, is what was pushed followed by what is still to come |
| Playlist.PlayedOnceConservesContent | src/stream/streams/relay/playlist_relay_stream.cpp:63-136 | played once, after any callbacks with any allocation failures: pushed bytes, unread rest and remaining files are all the files in order |
| Playlist.LoopPushesTheRepetition | src/stream/streams/relay/playlist_relay_stream.cpp:117-122 | in a loop, byte i pushed is byte i modulo the length of all files together |
| Playlist.BuffersAreFilePieces | src/stream/streams/relay/playlist_relay_stream.cpp:85-92 | every buffer of every run has 1 to 4096 bytes and is a piece of one file, ending the file when it is shorter than 4096 |
| Playlist.LoopNeverEnds | src/stream/streams/relay/playlist_relay_stream.cpp:105-136 | in a loop over readable files with bytes in one of them, end of stream is never sent while memory lasts |
| Playlist.LoopEndsIff | src/stream/streams/relay/playlist_relay_stream.cpp:75-83 | in a loop, whatever allocations fail: a callback that has its buffer can send end of stream, in some run, if and only if some entry cannot be opened |
| Playlist.EndsEarlyIff | src/stream/streams/relay/playlist_relay_stream.cpp:75-83 | played once, whatever allocations fail: a callback that has its buffer can signal end of stream before all content is out, in some run, if and only if an entry that cannot be opened precedes a file with bytes |
| Playlist.NoMemoryEndsAnywhere | src/stream/streams/relay/playlist_relay_stream.cpp:67-71 | a callback whose buffer cannot be allocated sends end of stream after any run and changes nothing else |
| Playlist.PlayedOnceDeliversEverything | src/stream/streams/relay/playlist_relay_stream.cpp:63-136 | played once over readable files, some number of callbacks, at most one more than the bytes, ends in end of stream with exactly the content pushed |
| Playlist.PlaylistStream.constructor | src/stream/streams/relay/playlist_relay_stream.cpp:32-33 | a new source has no open file and starts at the first entry |
| Playlist.PlaylistStream.OpenNextFile | src/stream/streams/relay/playlist_relay_stream.cpp:105-136 | opens the entry at the position, wrapping when looped, and moves on even past a file that cannot be opened |
| Playlist.PlaylistStream.ReadFile | src/stream/streams/relay/playlist_relay_stream.cpp:85-89 | takes at most 4096 of the remaining bytes and closes the file when there are none |
| Playlist.PlaylistStream.ReadTurns | src/stream/streams/relay/playlist_relay_stream.cpp:74-90 | on any list, also one on which the loop does not end, any number of turns of the read loop reach the state and the outcome of the specification |
| Playlist.PlaylistStream.HandleNeedData | src/stream/streams/relay/playlist_relay_stream.cpp:63-98 | the whole callback: sends exactly the event and reaches exactly the state of the specification, and asks to quit when the push fails |
| Recorder.FreshIff | src/stream/streams/timeshift/timeshift_recorder_stream.cpp:128-140 | the next name is new if and only if the current index and its successor are not both taken |
| Recorder.StepKeepsInv | src/stream/streams/timeshift/timeshift_recorder_stream.cpp:114-151 | naming, writing and cleaning up each keep "every chunk present has an index up to the current one", and say how the index moves |
| Recorder.RunNeverOverwrites | src/stream/streams/timeshift/timeshift_recorder_stream.cpp:114-151 | in every interleaving each name handed out does not exist, indices never decrease, and increase while the current file survives |
| Recorder.NamingKeepsInvIff | src/stream/streams/timeshift/timeshift_recorder_stream.cpp:128-151 | from any state with the invariant, naming the next chunk keeps it if and only if the current chunk is not both the last valid index and present |
| Recorder.WrapLosesInv | src/stream/streams/timeshift/timeshift_recorder_stream.cpp:134-137 | from every state where naming loses the invariant and chunks 0 and 1 are there, the second name handed out exists |
| Recorder.CleanupRemovesTheOld | src/utils/utils.cpp:84-126 | a clean-up removes exactly the chunks written before its bound, and keeps the times and names of the others |
| Recorder.PresentIff | src/stream/streams/timeshift/timeshift_recorder_stream.cpp:114-151 | after any run of names, writes and clean-ups, a chunk is there with a time if and only if it was written then (or was there at the start), has not been written since, and no later clean-up had a greater bound |
| Recorder.YoungChunkStays | src/stream/streams/timeshift/timeshift_recorder_stream.cpp:114-122 | a chunk at least as young as the bound of every clean-up outlives any run whose writes are no older |
| Recorder.OldChunkIsGone | src/stream/streams/timeshift/timeshift_recorder_stream.cpp:114-122 | after a clean-up anywhere in a run, a chunk older than its bound is there only if it was written after it |
| Recorder.StrategyGoesForward | src/stream/streams/timeshift/timeshift_recorder_stream.cpp:91-101 | the index a recording resumes at is never before the last one, and stays valid |
| Recorder.StrategySkips | src/stream/streams/timeshift/timeshift_recorder_stream.cpp:91-101 | a live recording skips exactly as many chunks as whole chunk durations have passed since the last one was written; a catch-up goes on with the next |
| Recorder.StartIndexDominates | src/stream/streams/timeshift/timeshift_recorder_stream.cpp:76-82 | the resumed index lies at or beyond every chunk of the directory, so it satisfies the recorder's invariant |
| Recorder.FirstNameOverwritesIff | src/stream/streams/timeshift/timeshift_recorder_stream.cpp:76-83 | with the members in the order the braces give them, the first name after a start exists if and only if chunks 0 and 1 do, and the invariant holds only for an empty directory |
| Recorder.RestartNeverOverwritesIff | src/stream/streams/timeshift/timeshift_recorder_stream.cpp:76-151 | after a start, no interleaving of names, writes and clean-ups, up to one name per valid index, ever hands out an existing name if and only if the directory holds no chunk other than chunk 0 |
| Recorder.NamesReachTaken | src/stream/streams/timeshift/timeshift_recorder_stream.cpp:128-151 | from a taken index, naming and writing in turn hands out the name of any higher taken index, or an earlier taken one |
| Recorder.TimeShiftRecorder.CalcNextIndex | src/stream/streams/timeshift/timeshift_recorder_stream.cpp:128-140 | the current index, 0 when invalid, moved on by one if its file exists |
| Recorder.TimeShiftRecorder.OnPathSet | src/stream/streams/timeshift/timeshift_recorder_stream.cpp:142-151 | stores that index and returns the path made from it, leaving path and duration alone |
| Recorder.TimeShiftRecorder.HandleMainTimerTick | src/stream/streams/timeshift/timeshift_recorder_stream.cpp:114-122 | at every full minute a chunk stays if and only if it was written within the life time; at other ticks, and of other chunks, nothing changes |
| Recorder.NamesAreDistinct | src/stream/streams/timeshift/timeshift_recorder_stream.cpp:149-149 | different indices have different file names |
| Catchup.RecordingKeepsList | src/stream/streams/timeshift/catchup_stream.cpp:109-129 | after any regular recording the list holds indices 0 to n in step with the recorder, closed durations being time differences and only the last entry open |
| Catchup.DurationsTelescope | src/stream/streams/timeshift/catchup_stream.cpp:117-121 | the closed durations add up to last time minus first time |
| Catchup.RecordingConservesTime | src/stream/streams/timeshift/catchup_stream.cpp:86-97 | writing the list changes only the open last entry, and its total is the time recorded plus one configured duration |
| Catchup.ResumedChunk | src/stream/streams/timeshift/catchup_stream.cpp:109-129 | over any recording, new or resumed, with any samples and directory: each chunk is named after its index and gets the 64-bit difference of the times if and only if the next sample and the last known time are valid, and otherwise stays open |
| Catchup.ReloadedListIsTheRecordedOne | src/stream/streams/timeshift/catchup_stream.cpp:42-44 | the playlist written at the end reads back as the recorded list, durations rounded to 10 ms |
| Catchup.WrittenListIsReadBack | src/stream/streams/timeshift/catchup_stream.cpp:77-98 | any list with paths made from its indices reads back, with the first chunk's index as sequence, if and only if that index fits int |
| Catchup.WrittenIsReadBack | src/stream/streams/timeshift/catchup_stream.cpp:81-101 | whichever write fails, a later start finds exactly the chunks whose lines were written, closed and rounded; the playlist counts as good from its first chunk on, also without the footer |
| Catchup.WrittenIsBeginning | src/stream/streams/timeshift/catchup_stream.cpp:81-101 | whichever write fails, the file holds a beginning of the playlist |
| Catchup.AllPatched | src/stream/streams/timeshift/catchup_stream.cpp:87-90 | when every line is reached, the patched list is the list with all open entries closed |
| Catchup.ReloadedSurviveIff | src/stream/streams/timeshift/catchup_stream.cpp:109-129 | over any resumed recording the reloaded entries survive if and only if there are none, the directory had no chunk, the first sample has no valid time, or its difference to the start index is the duration already there |
| Catchup.CatchupStream.constructor | src/stream/streams/timeshift/catchup_stream.cpp:32-45 | a new stream starts from the chunks of the playlist on disk, complete or not, or from none |
| Catchup.CatchupStream.OnPathSet | src/stream/streams/timeshift/catchup_stream.cpp:109-129 | closes the last entry by the time difference when both times are valid, appends an open entry and names the next chunk |
| Catchup.CatchupStream.WriteM3u8List | src/stream/streams/timeshift/catchup_stream.cpp:61-102 | wherever opening or a write fails: patches exactly the entries it reached in place, and writes exactly the header, lines and footer that succeeded |
| M3u8RoundTrip.HandOff | src/utils/m3u8_reader.cpp:128-131 | moving back by the trimmed line's length and one makes the body reader see the rejected line first: nothing lost, nothing read twice |
| M3u8RoundTrip.ReadChunk | src/utils/m3u8_reader.cpp:143-182 | one written chunk is read as that chunk, rounded, and reading goes on behind it, if its path fits a line; otherwise the read fails |
| M3u8RoundTrip.ReadBody | src/utils/m3u8_reader.cpp:138-183 | for chunks whose paths end in their index, the written lines and footer are read as the rounded chunks in order, up to the first path that does not fit a line, and successfully when all fit |
| M3u8RoundTrip.ReadCleanBody | src/utils/m3u8_reader.cpp:138-183 | for clean paths that fit a line, the body reads as chunks with the indices in their paths, exactly when every path has one |
| M3u8RoundTrip.ReadLines | src/utils/m3u8_reader.cpp:138-183 | the lines of such chunks in front of any text are read in order, up to the first path that does not fit a line, and then the text goes on being read |
| M3u8RoundTrip.OtherLinesFail | src/utils/m3u8_reader.cpp:143-182 | any two clean lines are read as a chunk if and only if the first is a duration line and the second a chunk line; otherwise, and for a line that stands alone, reading fails and keeps the chunks before |
| M3u8RoundTrip.DurationIff | src/utils/m3u8_reader.cpp:162-170 | a duration is read exactly from #EXTINF: digits, which one dot may divide, and a comma, as whole nanoseconds rounded down |
| M3u8RoundTrip.ReaderIndexIff | src/utils/m3u8_reader.cpp:163-178 | an index is read exactly from word characters and .ts behind them, as the longest run of digits at the end, when it has 64 bits |
| M3u8RoundTrip.CacheLineIs | src/utils/m3u8_reader.cpp:106-115 | a cache line of any capitals allows caching for YES, forbids it for NO and fails otherwise |
| M3u8RoundTrip.VersionLineIs | src/utils/m3u8_reader.cpp:100-105 | a version line sets any number that fits int, and fails otherwise |
| M3u8RoundTrip.BodyIsHandedOver | src/utils/m3u8_reader.cpp:128-131 | behind a written header the header loop hands the whole body to the chunk reader, also when the body is only the unterminated footer |
| M3u8RoundTrip.HeaderIsRead | src/utils/m3u8_reader.cpp:96-135 | the written header is read in full and the body handed over whole when both numbers fit int, and the read fails in the header otherwise |
| M3u8RoundTrip.HeaderAlone | src/utils/m3u8_reader.cpp:96-135 | a header with nothing behind it is not a playlist |
| M3u8RoundTrip.WrittenPlaylistIsReadBack | src/utils/m3u8_reader.cpp:82-183 | for chunks whose paths end in their index, reading header, lines and footer succeeds if and only if sequence and target duration fit int and all paths fit a line, and gives version 3, cache allowed, the same numbers, paths and indices, durations rounded |
| M3u8RoundTrip.CleanPlaylistIsReadBackIff | src/utils/m3u8_reader.cpp:82-183 | for any paths that fit a line and have no line break, zero character or white space at the end: reading succeeds if and only if both numbers fit int and every path has the shape of a chunk name with a 64-bit index, and gives the chunks back, rounded, if and only if each of these indices is the chunk's own |
| M3u8RoundTrip.CutPlaylistIsReadBack | src/utils/m3u8_reader.cpp:144-147 | a playlist whose footer is missing is read like a whole one once it has a chunk |
| M3u8RoundTrip.HeaderText | src/utils/m3u8_writer.cpp:28-35 | the five header lines letter by letter |
| M3u8RoundTrip.LineText | src/utils/m3u8_writer.cpp:37-41 | a chunk's two lines letter by letter: seconds with the two digits of the nearest hundredth, and the path |
| M3u8RoundTrip.RoundingError | src/utils/m3u8_writer.cpp:37-41 | a duration moves by at most 5 ms |
| M3u8RoundTrip.SecondRoundChangesNothing | src/utils/m3u8_writer.cpp:28-46 | writing what was read gives the same text; paths and indices are unchanged |
| M3u8Files.M3u8Writer.WriteHeader | src/utils/m3u8_writer.cpp:28-35 | appends the five header lines |
| M3u8Files.M3u8Writer.WriteLine | src/utils/m3u8_writer.cpp:37-41 | appends a chunk's duration and path lines |
| M3u8Files.M3u8Writer.WriteFooter | src/utils/m3u8_writer.cpp:43-46 | appends the footer without a newline |
| M3u8Files.HeaderThen | src/utils/m3u8_writer.cpp:28-35 | the appended header followed by any text is the playlist text with that tail |
| M3u8Files.TextFile.Gets | src/utils/m3u8_reader.cpp:42-46 | takes up to a newline or 254 characters and moves on; none at the end |
| M3u8Files.TextFile.Seek | src/utils/m3u8_reader.cpp:130-130 | moves to the target, or stays when it is negative |
| M3u8Files.TextFile.GetNonEmptyLine | src/utils/m3u8_reader.cpp:37-54 | returns the next line buffer that is not blank and leaves the file behind it |
| M3u8Files.RemoveTrailingSpaces | src/utils/m3u8_reader.cpp:56-63 | removes exactly the white space at the end |
| M3u8Files.M3u8Reader.ParseFile | src/utils/m3u8_reader.cpp:82-136 | result and fields are those of the text semantics, and all cleared when the file cannot be opened |
| M3u8Files.M3u8Reader.ParseFrom | src/utils/m3u8_reader.cpp:128-131 | the rewind followed by the chunk reader, a negative target leaving the position alone |
| M3u8Files.M3u8Reader.ParseHeaderLine | src/utils/m3u8_reader.cpp:98-132 | each kind of header line sets its own field, fails on a bad value, or is rejected to the body |
| M3u8Files.M3u8Reader.ParseChunkLines | src/utils/m3u8_reader.cpp:138-183 | the loop over pairs of lines computes the body semantics and keeps the chunks read before a failure |
| Chunks.TextRoundTripIff | src/utils/chunk_info.cpp:37-77 | parse after print is the identity if and only if the path has no colon |
| Chunks.FromTextIs | src/utils/chunk_info.cpp:41-77 | any text: nothing is taken from one without a colon, the path only from one with one colon, and path, index and duration from one with more, a bad number counting as 0 |
| Chunks.ConvertFromString | src/utils/chunk_info.cpp:41-77 | the character loop computes the text semantics: path up to the first colon, index up to the second, duration behind, unset where a number does not convert |
| ChunkSearch.FindChunkToPlay | src/stream/timeshift.cpp:62-103 | the loop over the sorted files computes the scan |
| ChunkSearch.SucceedsIff | src/stream/timeshift.cpp:87-98 | the search succeeds if and only if some file time lies strictly between the desired time and two durations later |
| ChunkSearch.FoundInOrder | src/stream/timeshift.cpp:78-100 | for any file times: in index order the first chunk of that window is found, or the chunk before it when it is less than one duration ahead and has a valid index |
| ChunkSearch.RefinesPredecessorSearch | src/stream/timeshift.cpp:78-100 | with times in index order: the earliest later chunk is chosen, or its predecessor, the greatest index not after the desired time, when it is less than one duration ahead |
| ChunkSearch.PredecessorExists | src/stream/timeshift.cpp:79-99 | if any chunk is not later than the desired time there is such a predecessor |
| ChunkSearch.LastChunkIsGreatest | src/stream/timeshift.cpp:105-132 | the last chunk found is one of the files and has the greatest index; there is none only in an empty directory |
| Controller.StepKeepsInv | src/stream/stream_controller.cpp:245-277 | every step of either thread keeps: the attempt counter is the failures since the last reset modulo the limit, waits are at most 60 s, and a stop is kept |
| Controller.RunKeepsInv | src/stream/stream_controller.cpp:201-278 | over every interleaving the counter stays below the limit, the invariant holds, and the stop flag never goes back |
| Controller.FrozenIff | src/stream/stream_controller.cpp:245-265 | a run's end freezes the stream if and only if it was a short failure and makes the failures since the last reset a multiple of the limit |
| Controller.ExitLeadsTo | src/stream/stream_controller.cpp:246-268 | a VOD ends Exec and keeps the counter; a success, or more than 600 s since the start, clears it and starts again; every other end waits |
| Controller.AttemptsCountFailures | src/stream/stream_controller.cpp:245-277 | in every run from the start the counter is the number of failures that no success, long run or notified back-off wait has cleared, modulo the limit |
| Controller.FailureWaits | src/stream/stream_controller.cpp:260-268 | in every run from the start a failure freezes the stream and waits 60 s if and only if that number is a multiple of the limit, and otherwise waits one unit of 60/max seconds for each failure since the last freeze |
| Controller.StatusChangesIff | src/stream/stream_controller.cpp:207-263 | only a search without a chunk (waiting) and the failure that reaches the limit (frozen) change the status |
| Controller.StopBoundsCreates | src/stream/stream_controller.cpp:201-232 | once stopped, at most the stream of the current iteration is created, none if the stop lands in a run, a back-off wait or at the loop head |
| Controller.StopBoundIsTight | src/stream/stream_controller.cpp:207-228 | from every state that bound is reached by some run |
| Controller.StopBoundsStepsIff | src/stream/stream_controller.cpp:201-278 | for every stopped state, four is a bound on the steps the main thread still takes in any run (and so is any larger n) if and only if it is not in the chunk search or its wait |
| Controller.StopCountsDown | src/stream/stream_controller.cpp:201-278 | once stopped outside the chunk search, steps taken plus steps left never exceed the steps left at the stop |
| Controller.StopMayBeMissed | src/stream/stream_controller.cpp:207-220 | from every stopped state in the chunk search or its wait, and for every n, some run of n main-thread steps is still there |
| Controller.NotifiedStopReturns | src/stream/stream_controller.cpp:213-225 | from every stopped chunk wait, a notification is followed by the loop check that ends Exec |
| Controller.NotifiedStopIsHeard | src/stream/stream_controller.cpp:213-225 | in every run from a stopped chunk wait whose first main-thread step is a notified end of the wait, the main thread takes at most two steps, no stream is created, and after two steps Exec has ended |
| Controller.RestartsCount | src/stream/stream_controller.cpp:213-216 | over any run the restarts counted are exactly the notified chunk waits |
| Controller.StoppedIff | src/stream/stream_controller.cpp:283-298 | over any run the stop flag is set if and only if a stop came; a restart never sets it |
| Controller.ReturnedIff | src/stream/stream_controller.cpp:201-248 | over every run from the start, Exec has ended if and only if the loop was checked after a stop, a stream could not be created, or a VOD ended |
| Controller.CreatesIff | src/stream/stream_controller.cpp:201-229 | in every run from the start a stream is about to be created if and only if the main thread's last step found a valid chunk, or, for other streams than time-shift players, was a loop check that went on |
| Controller.StoppedSearchIsReachable | src/stream/stream_controller.cpp:201-224 | a stop can land in the chunk search of a time-shift player, two steps after the start |
| Controller.StopAlwaysBoundsStepsIff | src/stream/stream_controller.cpp:201-278 | four bounds the steps after every reachable stop if and only if the stream is no time-shift player |
| Controller.StopIsHeardIff | src/stream/stream_controller.cpp:283-290 | between setting the flag and looking for the stream: in all runs that follow no stream is left running without a request to quit if and only if the iteration has no stream to create any more, and then the step bound holds too |
| Controller.StopIsLost | src/stream/stream_controller.cpp:228-235 | from every other such state some run creates the stream after the request found none, and leaves it running unasked |
| Controller.LostStopIsReachable | src/stream/stream_controller.cpp:201-228 | for every configuration some run from the start ends with the flag set, the stop over and a stream running that nobody asked to quit |
| Controller.QuitIff | src/stream/stream_controller.cpp:228-237 | in every run from the start a quit request is there if and only if the present stream was asked while it ran |
| Controller.CycleWait | src/stream/stream_controller.cpp:260-268 | the exact total of the decided waits of the failures left in a freeze cycle |
| Controller.FreezeCycle | src/stream/stream_controller.cpp:260-268 | the decided waits of a whole cycle add up to (60/max)·max·(max−1)/2 + 60 seconds, at most 30·(max−1) + 60 |
| Controller.RunWaits | src/stream/stream_controller.cpp:245-277 | over any uninterrupted stretch of any run of both threads, the completed back-off waits are the waits decided by its failures |
| Controller.FreezeCycleOfRun | src/stream/stream_controller.cpp:201-278 | a stretch of a run from a cleared counter through the allowed number of failures waits exactly that total |
| Controller.StreamController.CheckStopFlag | src/stream/stream_controller.cpp:201-204 | leaves the loop when stopped, otherwise goes to the chunk search or to creation |
| Controller.StreamController.SearchChunk | src/stream/stream_controller.cpp:207-226 | waits when nothing is found, restarts the iteration on the invalid index, otherwise creates |
| Controller.StreamController.WaitForChunk | src/stream/stream_controller.cpp:213-219 | a notification counts a restart and gives the iteration up, a time-out searches again |
| Controller.StreamController.CreateStream | src/stream/stream_controller.cpp:228-232 | runs the new stream, or leaves when there is none |
| Controller.StreamController.FinishRun | src/stream/stream_controller.cpp:234-274 | leaves after a VOD, resets after a success or a long run, otherwise counts the failure and waits |
| Controller.StreamController.FinishBackoff | src/stream/stream_controller.cpp:273-277 | a notified wait resets the counter |
| Controller.StreamController.Notify | src/stream/stream_controller.cpp:283-297 | the part of stop and restart under the mutex |
| Controller.StreamController.StopStream | src/stream/stream_controller.cpp:463-467 | asks a running stream to quit and does nothing otherwise |
| Watchdog.WatchdogMeetsMonitor | src/stream/ibase_stream.cpp:540-605 | from any counters, on every sequence of transfers, status changes and ticks with a clock that does not go back, each tick concludes what a monitor that remembers the transfers since the checkpoint expects |
| Watchdog.ConcludeMeetsExpect | src/stream/ibase_stream.cpp:541-593 | one tick: diff is the seconds since the checkpoint plus one, sums and rates are the bytes since it (modulo 2^64), and each quit is requested if and only if more than 60 s passed with fewer than 245760 bytes and the stream's kind does not forgive it |
| Watchdog.TickQuitsIff | src/stream/ibase_stream.cpp:541-602 | from any state: each side is asked to quit if and only if the tick is late, that side has fewer than 245760 bytes and the kind does not forgive it; the rates are the differences over the seconds; a report is due from the status tick on |
| Watchdog.CheckpointMovesIff | src/stream/ibase_stream.cpp:583-602 | the checkpoint moves, to 60 s after the clock, if and only if a late tick finds 245760 bytes of output or a recorder; totals never change, and a report moves the status tick by 10 s |
| Watchdog.TransferAdds | src/stream/ibase_stream.cpp:732-744 | a transfer adds its size, modulo 2^64, to the difference of the channel of its side and id and changes nothing else |
| Watchdog.SumIsBytes | src/base/channel_stats.cpp:55-57 | the differences of all channels, summed in size_t arithmetic, are the bytes transferred on in-range channels since the checkpoint |
| Watchdog.TransferAccounts | src/stream/ibase_stream.cpp:732-744 | a transfer adds to the difference of its own channel only, also across a wrap, and to none when its id is out of range |
| Watchdog.RatesAccount | src/base/channel_stats.cpp:59-65 | the rates become bytes since the checkpoint over seconds; the differences stay |
| Watchdog.CheckPointAccounts | src/base/channel_stats.cpp:75-77 | a checkpoint makes every difference 0 |
| Watchdog.ReportsApart | src/stream/ibase_stream.cpp:595-602 | two reports of a run are at least 10 s apart, whatever the status and the clock do |
| Watchdog.BaseStream.constructor | src/stream/ibase_stream.cpp:327-330 | the main loop starts at a new checkpoint over the counters of earlier runs |
| Watchdog.BaseStream.ResetDataWait | src/stream/ibase_stream.cpp:472-475 | moves every channel's checkpoint and the panic tick |
| Watchdog.BaseStream.UpdateStats | src/stream/ibase_stream.cpp:732-744 | adds a size to the channel of its side and id, if there is one |
| Watchdog.BaseStream.HandleMainTimerTick | src/stream/ibase_stream.cpp:540-605 | the whole tick computes that conclusion and that new state |
| Watchdog.BaseStream.RateInput | src/stream/ibase_stream.cpp:544-552 | the input loop rates every channel and sums the differences |
| Watchdog.BaseStream.RateOutput | src/stream/ibase_stream.cpp:554-560 | the output loop likewise |
| Probes.EosMeansEnded | src/stream/probes.cpp:160-174 | on every trace, for either kind of pad, eos means no SEGMENT since the last EOS, and segment is its opposite |
| Probes.SourceFlags | src/stream/probes.cpp:128-195 | on a source pad: flushing means an unanswered FLUSH_START, the flags for stream start and serialized events mean one was seen, a flush is never expected |
| Probes.SinkFlags | src/stream/probes.cpp:222-258 | on a sink pad: a flush is expected exactly when the last SEEK asked for it, and the other flags never change |
| Probes.FlushingSeekIsNeverSeen | src/stream/probes.cpp:160-164 | no probe ever expects a flush and is flushing at once, so that warning is dead |
| Probes.Probe.constructor | src/stream/probes.cpp:22-33 | a new probe counts as ended |
| Probes.Probe.HandleEvent | src/stream/probes.cpp:124-196 | the chain of event branches keeps the flags those of the trace |
| Probes.CountEos | src/stream/ibase_stream.cpp:246-290 | counts exactly the distinct elements all of whose probes saw no SEGMENT after their last EOS |
| Probes.CollectStatuses | src/stream/ibase_stream.cpp:247-258 | the first loop maps each id to whether all its probes have eos set |
| Probes.CountTrue | src/stream/ibase_stream.cpp:260-264 | the second loop counts the ids mapped to true |
| Probes.CollectedIsEnded | src/stream/ibase_stream.cpp:249-258 | the map of the first loop holds true for exactly those elements |
| Subscribers.RunKeepsIndex | src/server/subscribers/handler.cpp:100-256 | in every run in which no active client activates again, under any user tables: the index holds the live clients, each once under its user in order, without an empty entry, and every activation is answered as if all live clients were searched |
| Subscribers.FindIsMatching | src/server/subscribers/handler.cpp:172-187 | a lookup is the filter of all live clients by user and device |
| Subscribers.FindIff | src/server/subscribers/handler.cpp:172-187 | a lookup finds exactly the clients whose host information has that user and device, each once |
| Subscribers.ActivatedIff | src/server/subscribers/handler.cpp:204-256 | an activation is accepted if and only if the request is well formed, the login known, the password right, the user not banned and with an id, the first device with the requested id has room, and the answer could be sent |
| Subscribers.RejectedIff | src/server/subscribers/handler.cpp:204-256 | each other answer is given if and only if its own check is the first to fail |
| Subscribers.EventsChange | src/server/subscribers/handler.cpp:100-256 | an activation that is not accepted changes nothing; an accepted one sets the host information and puts the client at the end of its user's list; a close forgets the client |
| Subscribers.LimitsHold | src/server/subscribers/handler.cpp:234-240 | with a fixed user table no device ever has more live clients than an account of its user allows |
| Subscribers.LookupWithinLimits | src/server/subscribers/handler.cpp:234-240 | the same of what the handler's own lookup returns |
| Subscribers.StaleIff | src/server/subscribers/handler.cpp:143-170 | after an accepted activation and a close the client is still listed if and only if it had been active before; otherwise the close restores the state |
| Subscribers.CloseUndoesActivation | src/server/subscribers/handler.cpp:131-170 | unregistering a fresh client undoes registering it, removing the entry it created |
| Subscribers.ClientsWithout | src/server/subscribers/handler.cpp:159-164 | erasing the first match from a user's list is removing the client's session |
| Subscribers.SyncFinder.AddUser | src/server/sync_finder.cpp:47-50 | a login keeps the first user of the synchronised list |
| Subscribers.SyncFinder.FindUser | src/server/sync_finder.cpp:22-40 | finds the user exactly when the request is valid, the login known and the password right, with the reason otherwise |
| Subscribers.FindDevice | src/server/subscribers/commands_info/user_info.cpp:190-203 | the first device with that id, none for an empty id |
| Subscribers.SubscribersHandler.RegisterInnerConnectionByHost | src/server/subscribers/handler.cpp:131-141 | stores the host information and appends the client under its user |
| Subscribers.SubscribersHandler.UnRegisterInnerConnectionByHost | src/server/subscribers/handler.cpp:143-170 | erases the first match, drops an emptied entry, and refuses a client without host information |
| Subscribers.SubscribersHandler.Erase | src/server/subscribers/handler.cpp:159-164 | the list without its first occurrence of the client |
| Subscribers.SubscribersHandler.FindInnerConnectionsByUser | src/server/subscribers/handler.cpp:172-187 | the loop selects the listed clients of that user and device |
| Subscribers.SubscribersHandler.HandleRequestClientActivate | src/server/subscribers/handler.cpp:204-263 | checks in order: user, ban, device, limit, sending; registers only when all pass |
| Subscribers.SubscribersHandler.Closed | src/server/subscribers/handler.cpp:100-110 | unregisters the client and forgets it |
| Children.RunKeepsOnePerStream | src/server/process_slave_wrapper.cpp:853-947 | over every interleaving of starts, playlist requests, synchronisations and exits, children have distinct stream ids, are found as in a registry keyed by id, and the VOD table is that of the last list |
| Children.StartsIff | src/server/process_slave_wrapper.cpp:853-951 | a start adds one child with that id and configuration if and only if the configuration is good, no child has the id, and memory, pipes and fork succeed |
| Children.StartAnswerIff | src/server/process_slave_wrapper.cpp:853-951 | a good configuration fails as existing, for memory or for pipes if and only if that check is the first to fail, and the answer does not depend on the fork |
| Children.InfoIff | src/server/process_slave_wrapper.cpp:177-260 | a configuration is good if and only if it has id, a type other than proxy, a usable feedback directory and inputs, and, when folders are checked, a usable time-shift directory (recorders and catch-ups) or outputs whose http directories are all usable; it is described by its own id, type, inputs and output ids |
| Children.InfoFailureIff | src/server/process_slave_wrapper.cpp:184-236 | each missing field is reported if and only if all checks before it passed, and a reported directory cannot be used |
| Children.FirstBadRootIs | src/server/process_slave_wrapper.cpp:238-250 | the reported http directory is the first in the list that cannot be used |
| Children.VodTableIsLast | src/server/process_slave_wrapper.cpp:1272-1321 | after a synchronisation the table maps a directory exactly to the last VOD configuration serving it, with clean-up switched off |
| Children.ServesIff | src/server/process_slave_wrapper.cpp:1297-1321 | a configuration serves a directory if and only if it is good without folder checks, of one of the two VOD types, and has an http output there |
| Children.VodStartsTheServed | src/server/process_slave_wrapper.cpp:761-770 | what a playlist request finds for its directory is that configuration |
| Children.VodRequestStartsIff | src/server/process_slave_wrapper.cpp:756-775 | a playlist request starts a stream if and only if its directory is linked, the playlist is missing, unreadable or names a chunk that is not there, and the start succeeds |
| Children.VodStartsOnlyTheServed | src/server/process_slave_wrapper.cpp:756-775 | a playlist request starts at most that stream, never when the playlist is complete, and never with clean-up on |
| Children.WrittenVodIsFullIff | src/server/process_slave_wrapper.cpp:265-285 | a written playlist counts as complete if and only if all its chunks are there |
| Children.FindRemoved | src/server/process_slave_wrapper.cpp:584-589 | removing an exited child changes the lookup of its own stream id only |
| Children.ProcessSlaveWrapper.FindChildByID | src/server/process_slave_wrapper.cpp:604-614 | the first child with that id |
| Children.ProcessSlaveWrapper.MakeStreamInfo | src/server/process_slave_wrapper.cpp:177-260 | the checks in order, each with its failure, and the stream's description when all pass |
| Children.ProcessSlaveWrapper.CheckRoots | src/server/process_slave_wrapper.cpp:238-250 | stops at the first http output whose directory cannot be used, otherwise collects the ids |
| Children.ProcessSlaveWrapper.CreateChildStream | src/server/process_slave_wrapper.cpp:853-951 | answers and registers as specified; a failed fork is answered with success and registers nothing |
| Children.ProcessSlaveWrapper.CheckIsFullVod | src/server/process_slave_wrapper.cpp:265-285 | true if and only if the playlist can be opened and read and every chunk it names is there |
| Children.ProcessSlaveWrapper.OnHttpRequest | src/server/process_slave_wrapper.cpp:756-775 | starts the linked configuration if and only if the playlist is missing, unreadable or names a chunk that is not there |
| Children.ProcessSlaveWrapper.AddStreamLine | src/server/process_slave_wrapper.cpp:1297-1321 | links every http output of a VOD configuration, overwriting earlier links |
| Children.ProcessSlaveWrapper.SyncVods | src/server/process_slave_wrapper.cpp:1272-1276 | clears the table and adds every line |
| Children.ProcessSlaveWrapper.ChildStatusChanged | src/server/process_slave_wrapper.cpp:565-589 | unregisters exactly the exited child |
| Children.ProcessSlaveWrapper.UnRegisterChild | src/server/process_slave_wrapper.cpp:584-584 | the list without the first child of that process id |
| Names.ElementIdIsPatternMatch | src/stream/stypes.cpp:84-88 | a name yields a number if and only if the pattern matches it in some way |
| Names.MatchIsUnique | src/stream/stypes.cpp:84-95 | however it matches, the number is the digits at its end, and it is assigned only if it fits the type |
| Names.IdOfGeneratedName | src/stream/stypes.cpp:79-113 | the id of a stem and a printed number is that number, for elements and pads |
| Names.GeneratedNamesDiffer | src/stream/stypes.h:28-88 | generated names are equal only if stems and numbers are |
| Names.ChunkIndexIff | src/stream/stypes.cpp:221-236 | an index is found if and only if the pattern matches with a number of 64 bits |
| Names.IndexOfGeneratedChunk | src/stream/stypes.cpp:213-236 | the index of a generated chunk name is recovered for every time and index, also beyond five digits |
| Names.HttpChunkNameIs | src/stream/stypes.cpp:213-215 | a generated chunk name is the time, an underscore, the index in at least five digits, and .ts |
| Names.PlaylistReaderAgrees | src/utils/m3u8_reader.cpp:163-178 | the playlist reader finds the same index in that name |
| Elements.StemsDiffer | src/stream/stypes.h:28-88 | no two of the element roles share a name stem |
| Elements.NamesDiffer | src/stream/stypes.h:28-88 | elements with different roles or numbers have different names |
| Geometry.TileIsOnScreen | src/stream/streams/builders/mosaic_stream_builder.cpp:130-145 | for any screen and grid every tile is on the screen, and fewer than columns (rows) pixels stay unused per axis |
| Geometry.PixelIsInOneTile | src/stream/streams/builders/mosaic_stream_builder.cpp:130-145 | every pixel of the grid's area lies in exactly one tile |
| Geometry.TilesAreDisjoint | src/stream/streams/builders/mosaic_stream_builder.cpp:106-145 | tiles of different inputs share no pixel |
| Geometry.TilesAbut | src/stream/streams/builders/mosaic_stream_builder.cpp:130-145 | the first tile is in the corner and each next column or row begins where the one before it ends |
| Geometry.GridIff | src/stream/streams/builders/mosaic_stream_builder.cpp:78-97 | inputs are laid out as squares of 1 to 4 rows, or as two rows of one column, and no other number is accepted |
| Geometry.BarsAreInTileIff | src/stream/streams/mosaic_stream.cpp:232-257 | all bars lie in their tile if and only if the padding less its quarter fits the width, so whenever the padding does |
| Geometry.BarsAreDisjoint | src/stream/streams/mosaic_stream.cpp:248-257 | no two bars of a tile share a pixel |
| Geometry.HandleCairoDraw | src/stream/streams/mosaic_stream.cpp:223-274 | a frame draws the twenty bars of every tile in order, and nothing on an empty screen |
| Geometry.DrawTile | src/stream/streams/mosaic_stream.cpp:241-272 | the two inner loops draw the bar of every step and channel |
| Mosaic.NamesAreDistinct | src/stream/streams/builders/mosaic_stream_builder.cpp:70-383 | for every configuration all elements of the pipeline have different names |
| Mosaic.PipelineIsOrdered | src/stream/streams/builders/mosaic_stream_builder.cpp:99-216 | the elements come in the order shared, inputs, shared, outputs, each once per input or output |
| Mosaic.PipelineIsWired | src/stream/streams/builders/mosaic_stream_builder.cpp:106-383 | no link joins two inputs or two outputs, skips or reverses a stage, or joins video to audio other than at sources, decoders, muxers and sinks |
| MosaicRoutes.EveryInputReachesEveryOutput | src/stream/streams/builders/mosaic_stream_builder.cpp:106-383 | the links lead from each input's video (audio) queue to the end of every output, and from its source to its decoder |
| MosaicRoutes.FindsByName | src/stream/ibase_stream.cpp:676-685 | looking up an element's name in a list that holds it finds that element |
| MosaicRoutes.PadTypeByPrefix | src/stream/streams/mosaic_stream.cpp:145-146 | a pad is video or audio by what its type begins with, whatever follows |
| MosaicRoutes.IdOfIs | src/stream/stypes.cpp:79-95 | a decoder name of another shape has no id, and a number of more than 64 bits leaves the id as it was |
| MosaicRoutes.PadsGoToTheirOwnQueue | src/stream/streams/mosaic_stream.cpp:137-161 | the id read from decoder i's name is i; its pads whose type begins with video (audio) go to the video (audio) queue built for input i, and no others anywhere |
| MosaicRoutes.QueuesAreFedByTheirOwn | src/stream/streams/mosaic_stream.cpp:137-196 | after pads of the decoders in any order, a video (audio) queue is fed if and only if a pad of its own input whose type begins with video (audio) could be linked, and then by the first such pad |
| MosaicWiring.ElementsIff | src/stream/streams/builders/mosaic_stream_builder.cpp:70-383 | for every configuration the pipeline has exactly the elements asked for: which roles, for which inputs and outputs, under which options |
| MosaicWiring.LinksIff | src/stream/streams/builders/mosaic_stream_builder.cpp:106-383 | for every configuration two elements are linked if and only if the second is fed by the first: each optional element in its place, the encoder by the raw video, the payloader only for udp, the parser only for H.264, the muxer by what is last |
| MosaicWiring.EveryRoutePasses | src/stream/streams/builders/mosaic_stream_builder.cpp:282-378 | every route from an input's video (audio) queue to the sink of a network output passes the encoder, the payloader for udp, the parser for H.264 and every other element built for that output's line, in their order |
| MosaicBuilder.MosaicStreamBuilder.InitPipeline | src/stream/streams/builders/mosaic_stream_builder.cpp:70-218 | accepts exactly 1, 2, 4, 9 or 16 inputs, builds exactly the specified elements and links, and gives input k tile k |
| MosaicBuilder.MosaicStreamBuilder.BuildInputs | src/stream/streams/builders/mosaic_stream_builder.cpp:106-183 | the nested loops build every input once, row by row |
| MosaicBuilder.MosaicStreamBuilder.BuildRow | src/stream/streams/builders/mosaic_stream_builder.cpp:107-182 | one row of inputs and their tiles |
| MosaicBuilder.MosaicStreamBuilder.BuildInput | src/stream/streams/builders/mosaic_stream_builder.cpp:113-178 | source, decoder and branches of one input |
| MosaicBuilder.MosaicStreamBuilder.BuildVideoBranch | src/stream/streams/builders/mosaic_stream_builder.cpp:126-140 | queue, scaler, caps, box and mixer in one line |
| MosaicBuilder.MosaicStreamBuilder.BuildAudioBranch | src/stream/streams/builders/mosaic_stream_builder.cpp:153-164 | queue, level and mixer in one line |
| MosaicBuilder.MosaicStreamBuilder.BuildVideoTrunk | src/stream/streams/builders/mosaic_stream_builder.cpp:186-203 | overlay, converter, optional deinterlacer and tee behind the mixer |
| MosaicBuilder.MosaicStreamBuilder.BuildAudioTrunk | src/stream/elements/encoders/audio_encoders.cpp:96-132 | converter, optional channel caps and volume, and the tee behind the mixer |
| MosaicBuilder.MosaicStreamBuilder.BuildOutput | src/stream/streams/builders/mosaic_stream_builder.cpp:220-383 | every output is built once, by its kind |
| MosaicBuilder.MosaicStreamBuilder.BuildDeviceOutput | src/stream/streams/builders/mosaic_stream_builder.cpp:228-276 | a queue and a device sink behind each tee |
| MosaicBuilder.MosaicStreamBuilder.BuildNetworkOutput | src/stream/streams/builders/mosaic_stream_builder.cpp:279-382 | muxer, the encoded lines into it, and the sink behind it |
| MosaicBuilder.MosaicStreamBuilder.BuildNetworkVideo | src/stream/streams/builders/mosaic_stream_builder.cpp:286-343 | one line from the tee through shaping, encoder and packing to the muxer |
| MosaicBuilder.MosaicStreamBuilder.BuildVideoShaping | src/stream/streams/builders/mosaic_stream_builder.cpp:286-312 | queue, optional aspect ratio and frame rate in one line behind the video tee |
| MosaicBuilder.MosaicStreamBuilder.BuildVideoEncoder | src/stream/elements/encoders/video_encoders.cpp:55-98 | the encoder and the caps filters its string parameters ask for |
| MosaicBuilder.MosaicStreamBuilder.BuildVideoPacking | src/stream/streams/builders/mosaic_stream_builder.cpp:320-342 | optional payloader and parser, then the muxer, continue the line |
| MosaicBuilder.MosaicStreamBuilder.BuildAudioEncoder | src/stream/streams/builders/mosaic_stream_builder.cpp:345-371 | queue and encoder behind the audio tee, an MP3 encoder between its resampler and its parser, while the elements are added in another order |
| MosaicBuilder.MosaicStreamBuilder.BuildNetworkAudio | src/stream/streams/builders/mosaic_stream_builder.cpp:345-378 | one line from the tee through the encoder and an optional payloader to the muxer |
| MosaicBuilder.MosaicStream.GetElementByName | src/stream/ibase_stream.cpp:676-685 | the first element with that name |
| MosaicBuilder.MosaicStream.HandleDecodeBinPadAdded | src/stream/streams/mosaic_stream.cpp:137-196 | finds the video (audio) queue for a pad whose type begins with video (audio), links the pad to it only if the queue's pad is valid and not linked yet, and adds an audio pad's channels to its own input only |
| MosaicBuilder.MosaicStream.AddChannels | src/stream/streams/mosaic_stream.cpp:162-172 | adds the channels to the one input of that id, if there is one |

## Left out

- Playlist.PlaylistStream.HandleNeedData: with a buffer it requires a list on which the read loop ends, because the callback does not return otherwise; Playlist.ReadLoopEndsIff says which lists those are, and Playlist.PlaylistStream.ReadTurns runs the loop on all lists.
- GStreamer elements, pads, caps and properties, libev loops, sockets, pipes, shared memory and JSON: foreign calls; their outcomes are parameters of the steps.
- The fastotv protocol library is not part of this model: its check of a login request is a field of the request. The library conversions from text are taken to accept a non-empty run of digits that fits the type, and for a duration digits with at most one dot.
- IEEE rounding: durations printed with two decimals and read back are exact decimals, ties rounded up.
- Playlists with CRLF line ends or written by hand: the reader's functions are total over all texts and single lines are characterised for any text, but the round trip is stated for the writer's texts, whole or cut off behind a line.
- What an older, longer playlist leaves behind when the new one is written over it: the file is the written text. A write that fails is taken to leave nothing.
- Recorder.RestartNeverOverwritesIff: chunk files carry valid indices, and a run hands out no more names than there are valid indices.
- Catchup.RecordingConservesTime: recordings with invalid, missing or decreasing time stamps, or with a chunk that is never written, get no total, since none of the source's promises covers them; Catchup.ResumedChunk says what each of their chunks gets.
- ChunkSearch.RefinesPredecessorSearch: assumes file times in index order, as recording produces them; success itself is characterised without that.
- Directory scanning, unreadable file times and the check that a directory exists: the list of chunk files with times is an input.
- The controller's loop is cut at the points where the other thread can act; a piece runs at once. Whether and when a stream that was asked to quit ends is left to the environment, which may also end a stream nobody asked; Controller.StopIsHeardIff says when a request is made.
- The watchdog's counters are updated one event at a time; the races between streaming threads and the timer on unsynchronised counters are not modelled. The bandwidth estimates compared in the log only are left out.
- Caps parsing, log texts and the buffers of a probe: only its events change its flags.
- Subscriber clients are identities with the host information they hold; pings, channel lists and the count of watchers do not touch the index.
- Subscribers.RunKeepsIndex: assumes that no active client activates again, since the code has no rule for it; Subscribers.StaleIff says what happens then.
- The pipe clients of children, stop and restart requests, statistics and the clean-up of VOD chunks by timer do not touch the registry.
- Children.RunKeepsOnePerStream: assumes that a new process id is not that of a running child, which the operating system ensures.
- The order of links and everything a link needs from the linked elements: links are a set. An encoder, scheme or payloader the code does not know aborts the original and is not a configuration here.
- Colours of the level bars, and a negative right padding: the builder sets 100.
- Option tables, configuration copying, and the other stream types' builders: field-by-field code settled by reading one branch.
- The HTTP and daemon servers' own protocols, GPU, CPU and network statistics.
