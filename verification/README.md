# Verification of g2mirror

g2mirror wraps a terminal application, keeps a model of its screen, archives every line that
scrolls off, streams the screen to any number of viewers, and repaints a host terminal of a
different size. This project models its five stateful cores in Dafny and proves what each of
them is for.

- **Scroll capture and host mirroring** (`Vt`, `Capture`, `RowText`, `History`, `Terminal`,
  `Flow`, `HostRender`, `HostScroll`, `Mirror`). The screen parser and the host terminal are
  small explicit machines: `Vt` for the `vt100` library (a grid, a bounded staging buffer, an
  offset that counts), `Terminal` for the emulator that the mirror writes to (grid, native
  scrollback, cursor, pen; sections 8.3.21, 8.3.32, 8.3.41 and 8.3.117 of ECMA-48). `Mirror`
  is the class with the source's fields; the host terminal is a ghost field that every method
  advances by the output it returns. Results: exact capture across slices and alternate-screen
  excursions, conservation of every scrolled line on the host over whole views, incremental
  rendering equal to full repaint, the splice between archive and snapshot without gap.
  `Seamless` adds what every viewer of the stream shows, over any run of the session, and when
  a restarted stream is seamless for those that get no new snapshot.
- **Session** (`Session`, `Roster`, `SizeRanks`). Clients, view, host role; each send succeeds
  or fails nondeterministically. One invariant holds after every event of every run, nobody
  leaves but for a reason that the run shows, the sweep loop terminates, and over every run
  whose inits carry the ranks of one config list the stream's size follows that list.
- **Client protocol** (`Attach`, `LiveView`, `Framing`). Client and wrapper joined by two FIFO
  channels, over all interleavings: a client fails exactly when an error reaches it before it
  is live, and else follows the stream; then what going live does to the client's terminal.
- **Config editing** (`Jsonc`, `JsonScan`, `TokenSplice`, `SpliceTheorem`). The comment eraser
  against a lexer, and the splice that adds exactly one array element to commented JSON.
- **Timed queues** (`InputQueue`, `Bell`), with a monotone clock.

Methods carry the source's loops and updates; the functions that they are proved against are
related to independent descriptions by the lemmas. Time, sends and client choices are
nondeterministic or parameters. `dafny verify dfyconfig.toml` checks everything.

## Where the source does less than it says

Each is proved, with the exact condition where there is one.

- The comment at src/mirror.rs:309-310 says that lines wider than the host only consume extra
  rows. When fewer lines scroll than the region has rows, the newest lines can be lost to the
  repaint: `ScrollConservation` gives the condition and the number lost, `LosesNewestLine` a run.
- Restarting an active view clears `zone_dirty` without pushing the zone. A view that then ends
  leaves the zone's lines out of the native scrollback if and only if the zone was dirty and
  had rows (`RestartThenEnd`; `RestartLosesLine` is a run), so conservation is stated per view
  epoch. A host resize ends an epoch too, because the terminal then holds whatever its own
  reflow left.
- A pushed copy of a row that is wider than the host shows, in its last column, the row's last
  character and not the one at the cut (`PushedRowShowsRow`; `PushedRowDiffers` is such a row).
- A bell that rings after the deadline but before `fire` is reported before the older one held
  (`OvertakenReport`). If bells ring in order, the reports' timestamps go backwards at a `fire`
  exactly when the last bell before it was reported at once over a held one (`Fire`); a bell
  held after that does no harm (`ReplacedReport`).
- A view that restarts for one client is called seamless for the others (src/main.rs:832-834).
  Diffs are from what the restarted model shows, and a snapshot carries neither the pen nor the
  position of a hidden cursor nor a cursor past the last column. `RestartEquals` gives the exact
  condition under which nothing changes, and `StaysInStep` shows that it is the one that the
  viewers need. `HiddenCursorDrifts` and `MarginCursorIsLost` are runs that break it.
- The comment at src/mirror.rs:407 calls the count exact even if the staging buffer overflowed.
  It is so up to the counter's limit, 4095 rows between two harvests or 4096 on a buffer that
  was empty: `Process` gives the exact condition, `FloodLosesRow` a run.
- Rows whose harvest the alternate screen defers are dropped when the parser is rebuilt
  meanwhile. Every rebuild archives all that left if and only if there are none (`StartView`,
  `EndView`), which is to say unless the alternate screen is on with a count above zero
  (`DropsPending`); `LosesDeferredRow` is a run that loses a line.

## Model

| member | source | states |
|---|---|---|
| `Jsonc.StripComments` | src/jsonc.rs:15-60 | the eraser's nested loops compute, byte for byte, what a one-byte-lookahead lexer says: a comment byte that is no newline becomes a space, everything else stays at its index; unterminated comments and strings included |
| `Jsonc.StripKeepsLayout` | src/jsonc.rs:6-9 | same length, every newline where it was and no new one, every byte outside a comment unchanged at its index |
| `Jsonc.StripSimulates` | src/jsonc.rs:9-13 | the stripped text, read by the same lexer, is at every index in the state of the original, with comments read as code |
| `Jsonc.StripLeavesNoComment` | src/jsonc.rs:4-14 | no index of the stripped text is inside a comment |
| `Jsonc.StripIdempotent` | src/jsonc.rs:4-14 | stripping twice is stripping once |
| `Jsonc.StripKeepsUtf8` | src/jsonc.rs:58-59 | valid UTF-8 (section 4 of RFC 3629) stays valid, so the final conversion cannot fail |
| `JsonScan.SkipString` | src/bin/g2mirror-server.rs:619-631 | from an opening quote to just past the closing one, everything between being string contents; at most one past the end, and only for an unterminated string |
| `JsonScan.FindValue` | src/bin/g2mirror-server.rs:645-681 | the quote, bracket and depth loop finds the value of the first `auth_tokens` key that is a whole string at depth 1 and is followed by a colon, and reports none exactly when there is no such key |
| `JsonScan.FindClose` | src/bin/g2mirror-server.rs:685-705 | the depth counter stops at the one bracket that matches the opening one, and always finds it in well-bracketed text (no "unterminated" error) |
| `JsonScan.FirstKeyIsUnique` | src/bin/g2mirror-server.rs:644-681 | there is at most one first key |
| `JsonScan.AuthKeyText` | src/bin/g2mirror-server.rs:653 | which key is looked for, quotes included |
| `JsonScan.KeyInJson` | src/bin/g2mirror-server.rs:645-681 | whatever white space of JSON (section 2 of RFC 8259) sets key, colon and value apart, the key is found and so is where its value starts |
| `TokenSplice.FindArray` | src/bin/g2mirror-server.rs:675-705 | none exactly when no such key has an array as its value; otherwise that array and its matching bracket |
| `TokenSplice.InsertTokenText` | src/bin/g2mirror-server.rs:638-720 | the whole edit: none exactly when there is no array, otherwise the insertion spliced in right behind the last non-blank byte of the array |
| `TokenSplice.SplicePointInJson` | src/bin/g2mirror-server.rs:707-714 | in JSON the entry goes right behind the last byte of the array that is not white space |
| `TokenSplice.InsertionIsWellBracketed` | src/bin/g2mirror-server.rs:707-714 | the inserted text, entry indented and comma or line breaks around it, opens and closes evenly and has no comma of its own level in the entry |
| `TokenSplice.IndentedIsEntry` | src/bin/g2mirror-server.rs:707 | what is added is the entry itself: taking four spaces behind each line break of the indented text away gives it back, byte for byte |
| `TokenSplice.InsertionBytes` | src/bin/g2mirror-server.rs:707-714 | the line breaks, spaces and comma around the entry, byte by byte |
| `SpliceTheorem.StripCommutes` | src/bin/g2mirror-server.rs:640-641 | stripping commutes with an insertion that is comment-free and made outside comments: stripped output = stripped input with the same insertion at the same index |
| `SpliceTheorem.EditIsWellBracketed` | src/bin/g2mirror-server.rs:715-719 | the edited text is well bracketed |
| `SpliceTheorem.SameArray` | src/bin/g2mirror-server.rs:643-705 | in the edited text the same key is found and its array now closes at the shifted bracket |
| `SpliceTheorem.FirstElement` | src/bin/g2mirror-server.rs:709-710 | into an empty array: the elements become exactly the entry |
| `SpliceTheorem.NextElement` | src/bin/g2mirror-server.rs:711-713 | into a non-empty array: the elements become the old ones, unchanged, and the entry |
| `SpliceTheorem.SpliceAppendsOneToken` | src/bin/g2mirror-server.rs:633-720 | the main theorem: removing the inserted bytes gives back the input byte for byte, stripping commutes with the edit, and the edited array holds exactly one element more, the entry, at its end |
| `InputQueues.InputQueue.Push` | src/main.rs:66-78 | the input cut at the delay offsets and appended; a running pause is not restarted |
| `InputQueues.SplitMeaning` | src/main.rs:66-78 | the chunks of an input concatenate to it and each pause is the delay at its offset, clamped to 1000 ms |
| `InputQueues.InputQueue.Pump` | src/main.rs:84-100 | over any clock readings: bytes written so far ++ bytes queued = all input accepted, in order; every chunk is written no sooner than its pause after its predecessor, and with nothing but pauses of zero and no running deadline all is written at once; what stays queued has a head whose pause is not over: its deadline is the running one, or exactly the reading at which it became the head plus its pause, and lies in the future |
| `InputQueues.Conservation` | src/main.rs:51-56 | written ++ queued = accepted, at any time |
| `InputQueues.CheckDelays` | src/main.rs:1017-1033 | accepts exactly non-decreasing offsets within the data, at most 32 of them, which is what `push` needs |
| `Bell.BellDebouncer.OnBell` | src/control.rs:80-93 | reports at least one window apart; the latest bell is always reported or pending; a report at once overtakes a held bell exactly when that one is older, and only when it was not served by its deadline |
| `Bell.BellDebouncer.Fire` | src/control.rs:102-107 | with `fire` no earlier than the deadline, the spacing still holds; if bells rang in order, the report is older than the one before it exactly when the last bell of the run had been reported at once over a held one; reports rise throughout exactly when no such `fire` ever came |
| `Bell.BellDebouncer.Deadline` | src/control.rs:95-100 | exactly while something is pending: one window after the last report |
| `Bell.OvertakenReport` | src/control.rs:80-107 | a concrete run in which a bell that comes after the deadline, before `fire`, is reported first and the held older one after it |
| `Bell.ReplacedReport` | src/control.rs:80-107 | a concrete run in which a bell is overtaken and then replaced by a newer one that is held: the reports still rise |
| `HistoryArchive.History.Push` | src/history.rs:53-59 | the line gets the next index; retained lines are the newest of all ever pushed, cut only to the cap |
| `HistoryArchive.History.SetMaxLines` | src/history.rs:46-51 | a new cap evicts from the front only |
| `HistoryArchive.History.Tail` | src/history.rs:71-76 | the newest `count` lines, fewer only if fewer are retained |
| `HistoryArchive.History.Fetch` | src/history.rs:78-97 | the backwards loop with its byte budget returns exactly the page that the independent rule for taking one more line describes |
| `HistoryArchive.PageIsMaximal` | src/history.rs:78-97 | a page is non-empty while lines are left, within the limit, within max(192 KiB, its newest line), and stops only where it must |
| `HistoryArchive.PagingIsLossless` | src/history.rs:13-18 | fetching again and again with `before` = the last start, while lines are pushed and evicted in between: starts strictly decrease and the pages concatenate to one contiguous stretch of the log |
| `HistoryArchive.PagingIsComplete` | src/history.rs:13-18 | when the cursor meets the oldest retained line, everything retained below the first `before` has been received |
| `RowText.SerializeRow` | src/mirror.rs:809-853 | the two loops with style tracking and byte cap compute the record of a row: text, width and whether the row goes on |
| `RowText.SgrRoundTrip` | src/mirror.rs:766-807 | an SGR machine (section 8.3.117 of ECMA-48, colours of section 13.1.8 of ITU-T T.416) ends with exactly the emitted style, whatever its pen was, and prints nothing |
| `RowText.BoldUnderlinedRed` | src/mirror.rs:766-807 | the bytes for a concrete style with one of the first eight colours |
| `RowText.DimOnBrightRed` | src/mirror.rs:766-807 | the same for a bright background |
| `RowText.DirectColour` | src/mirror.rs:766-807 | the same for a direct colour |
| `RowText.InverseOnPalette` | src/mirror.rs:766-807 | the same for a palette background, inverse |
| `RowText.RowRoundTrip` | src/mirror.rs:809-853 | reading a record from default attributes prints exactly the row's cells, each with all its bytes in one column, text and style, up to the trim point; nothing visible is trimmed; only a line that reaches the byte cap is cut, to a prefix of its cells; its width is the model's, and it goes on exactly if the row was wrapped |
| `RowText.RecordSize` | src/mirror.rs:840-846 | the cap, both ways: all that is written but the last cell takes fewer than 65536 bytes, and whatever visible is cut, is cut from a record of at least as many |
| `RowText.ErasedCell` | src/mirror.rs:757-764 | which erased cells count as visible, in literal terms: those with a background colour or inverse, and no others |
| `RowText.FilledCell` | src/mirror.rs:815-840 | a cell with one character prints that character in its style, and without style its bytes alone |
| `Vt.StagingTracks` | src/mirror.rs:80-82 | the assumed contract of the staging buffer, over any output: it holds the newest rows, and an armed offset counts every row that left, up to its length |
| `Vt.FeedConcat` | src/mirror.rs:277-281 | feeding a ++ b is feeding a, then b, and the same rows leave |
| `Vt.RenderSnapshot` | src/mirror.rs:675-699 | the loop emits the snapshot of the bottom-left crop |
| `Vt.SnapshotReplaces` | src/mirror.rs:673-718 | on any emulator, whatever it showed: the cells of the bottom-left crop, the input modes, and the cursor exactly when it is visible inside the crop, otherwise hidden where the last row that is not blank ends; the pen is left as that row ends |
| `Vt.SnapshotShows` | src/mirror.rs:464-472 | the same on the freshly built parsers |
| `Vt.SameSizeIsSeamless` | src/main.rs:832-834 | a model re-primed with its own snapshot at unchanged size has the same cells, the same modes, and the same cursor when that is visible in its columns, else a hidden one; pen and hidden cursor are where drawing the rows ends |
| `Vt.HiddenCursorIsLost` | src/mirror.rs:701-718 | a concrete screen whose hidden cursor position a snapshot does not carry |
| `Seamless.RestartAgrees` | src/main.rs:832-836 | what the viewers see: one that showed the old model, and gets no snapshot, agrees with the restarted model on cells, modes and visible cursor exactly when the cursor is hidden or within its columns |
| `Seamless.RestartEquals` | src/main.rs:832-836 | what diffs go on from: a restart leaves the whole screen as it was if and only if it keeps the size, the pen is the one with which the last row that is not blank ends, and the cursor is visible within the columns, or hidden where that row ends |
| `Seamless.StaysInStep` | src/mirror.rs:10-18 | for every device of which only this is known, that a diff turns the screen it is from into the one it is to: it has the model's screen at all times if and only if no start that it got no snapshot of changed that screen |
| `Seamless.FollowStream` | src/mirror.rs:272-367 | the mirror through any starts and output while a view lasts: every diff is from one screen of the model to the next, and which starts change the screen (exactly those that break the condition of `RestartEquals`) |
| `Seamless.UpToDateShows` | src/main.rs:832-899 | the messages that reached a client that is up to date, applied to its emulator, give what such a device shows: the model's screen now, unless a start that it got no snapshot of changed that |
| `Seamless.RunShows` | src/main.rs:502-795 | the same for every viewing client at any return of the event loop, after any run of events and failing sends |
| `Seamless.HiddenCursorDrifts` | src/main.rs:832-836 | a concrete run: a cursor is hidden and moved, the view restarts for somebody else, and the cursor is shown again; the diff is from a screen with the cursor elsewhere than a viewer without the snapshot has it |
| `Seamless.MarginCursorIsLost` | src/mirror.rs:701-718 | concrete output after which the cursor is visible behind the last column; a restarted model hides it while the viewers show it |
| `HostRender.RenderRows` | src/mirror.rs:631-671 | played on the host terminal: region rows show the model's window cut to host columns, every cell with its whole contents and style, rows above and native scrollback untouched, modes equal, cursor drawn exactly when inside; the same for a row diff against what is shown and for clear-and-redraw |
| `HostRender.RowOpsPaint` | src/mirror.rs:645-662 | one row: diff or clear-and-draw both leave exactly the row's line, column by column |
| `HostScroll.PushZone` | src/mirror.rs:224-236 | a dirty zone enters the native scrollback row for row, in order; otherwise nothing is written |
| `HostScroll.PushBatch` | src/mirror.rs:196-206 | rows painted over the top and scrolled off: exactly these rows enter the scrollback |
| `HostScroll.PushCrop` | src/mirror.rs:176-210 | for any view and host height, the batches push exactly model rows `0..crop_top` in order |
| `HostScroll.PushedRowShowsRow` | src/mirror.rs:185-188 | a pushed copy of a row whose cells hold one character each looks like the region's rendering in every column but the last, and there too exactly when the row fits or its last visible character looks like the one at the cut |
| `HostScroll.PushedRowDiffers` | src/mirror.rs:185-188 | a concrete row of three columns on a host of two: the last column shows its third character in the pushed copy, its second in the region |
| `HostScroll.MirrorScroll` | src/mirror.rs:294-331 | the CUP, DL, text, CRLF sequence: scrollback ++ zone becomes (old scrollback ++ old zone ++ new lines ++ blanks) cut to a length given in closed form, and so many rows are pushed, for lines of any number of columns; on a terminal that fills with the pen's background, if no character that wraps has a background |
| `HostScroll.ScrollConservation` | src/mirror.rs:300-311 | every new line is kept, in order and nothing else, if and only if none has more columns than the host or the scroll is at least a region; exactly `scrolled` rows are pushed when none has; otherwise the count of lost lines |
| `HostScroll.LosesNewestLine` | src/mirror.rs:300-311 | a concrete run of the sequence on a host of two columns: a row of three columns scrolls off a region of two rows, and the newer of its two lines is nowhere above the region |
| `HostScroll.LineCount` | src/mirror.rs:309-310 | records take as many host lines as there are records exactly when all fit, counted in columns |
| `Capture.Capturer.Park` | src/mirror.rs:385-400 | arms the counter unless the alternate screen is on; nothing visible changes |
| `Capture.Capturer.CountNew` | src/mirror.rs:402-413 | reads off the number of rows to archive: all that left since, up to the buffer's length less one |
| `Capture.Capturer.ArchiveStagedRows` | src/mirror.rs:421-437 | window by window, the newest staged rows are appended to the archive, each once, in order |
| `Capture.Capturer.Harvest` | src/mirror.rs:400-420 | off the alternate screen the rows that left since the last harvest are archived, and the offset is back at 0; on it nothing changes |
| `Capture.Capturer.Process` | src/mirror.rs:272-282 | over all slices of a chunk, alternate-screen excursions included: what it archives and what it defers are pinned; together they are exactly the rows that left the primary screen, each once, in order, if and only if no harvest finds more rows than the counter holds (4096 while nothing had been staged, 4095 after) |
| `Capture.HarvestAccount` | src/mirror.rs:400-420 | for any output: nothing is archived twice, nothing is lost if and only if every harvest can count its rows, and then archived and deferred rows are all rows in order |
| `Capture.FloodLosesRow` | src/mirror.rs:400-420 | a concrete run: one escape sequence scrolls one row more than the counter holds, and the oldest is not archived |
| `Capture.Capturer.FlushForRebuild` | src/mirror.rs:491-512 | off the alternate screen the archive gains the rows that a bottom crop drops, up to the last one with any text; on it neither archive nor what is pending changes |
| `Capture.Capturer.SetSize` | src/mirror.rs:549-560 | staged rows are drained before the model follows the host |
| `Capture.Capturer.Replace` | src/mirror.rs:467-469 | a rebuilt parser takes over; the archive stays as it is and nothing remains deferred |
| `Capture.Capturer.DropsPending` | src/mirror.rs:385-413 | rows are still deferred exactly when the alternate screen is on and a harvest would read a count above zero: the condition that the code can see |
| `Capture.LosesDeferredRow` | src/mirror.rs:385-413 | a concrete run: a line with text scrolls off, the alternate screen comes up in the same slice, the model is rebuilt, and the line is in neither archive nor staging |
| `Mirroring.Mirror.Process` | src/mirror.rs:272-367 | one chunk: model and archive as above, with the same if-and-only-if, and in every case what the archive gains, record by record; while viewing, the host stays in step with the model, what is above the region follows the scroll formula, the device gets a diff from what it shows to the model, and the epoch's account is kept |
| `Mirroring.Mirror.RenderScrolled` | src/mirror.rs:294-343 | after a mirrored scroll the region is redrawn in full |
| `Mirroring.Mirror.RenderChanged` | src/mirror.rs:344-354 | without a scroll, row diffs against the shadow leave the region in step with the model, cell for cell, exactly as a full repaint would, and leave everything above it alone |
| `Mirroring.Mirror.StartView` | src/mirror.rs:454-489 | archive extended by the rows the crop drops, model and shadow rebuilt from the snapshot and alike, host in step, with margins reset, autowrap on and no update held back; scrollback gains the hidden rows, or the zone is left as it was; the archive accounts for every row that left the old model if and only if none was deferred by the alternate screen |
| `Mirroring.Mirror.Rebuild` | src/mirror.rs:461-472 | what the archive gains, whether that is all (the same if-and-only-if), and that model and shadow agree on the screen |
| `Mirroring.NoGapAtSplice` | src/mirror.rs:491-512 | off the alternate screen: archived rows, rows with no text, and the snapshot's rows are consecutive rows of the old model, so history + snapshot has no gap and no duplicate |
| `Mirroring.BottomUp` | src/mirror.rs:153-171 | which part of the model the host shows: its last rows, on the last rows of the host |
| `Mirroring.CursorBottomUp` | src/mirror.rs:701-718 | when the host shows the cursor, counted from the bottom: it is visible in one of the rows and columns shown, and then it is drawn there |
| `Mirroring.Mirror.EndView` | src/mirror.rs:514-540 | everything above the region and every line that scrolled in the epoch ends up in native scrollback, in order; the screen is blank with the cursor at its origin and a default pen; modes are reset; the archive accounts for everything that left if and only if nothing was deferred |
| `Mirroring.Mirror.EndOutput` | src/mirror.rs:520-534 | the output of that: the zone rescued, then the screen cleared and the modes reset |
| `Mirroring.Mirror.Cleanup` | src/mirror.rs:597-614 | the same at exit: scrollback and screen together are what they were, with the final screen above the blank lines that the zone push and the prompt add; modes and pen reset, cursor shown at the start of the last line |
| `Mirroring.Mirror.HostResized` | src/mirror.rs:542-578 | pass-through follows the host; while viewing, the zone as it now is and the newly hidden rows are rescued, every line above the region is cleared and the region is redrawn, so a new epoch begins with the scrollback and blank lines |
| `Mirroring.Mirror.RedrawResized` | src/mirror.rs:563-576 | the frame of a resized host: zone and hidden rows in the scrollback, blank lines above the region, the region in step |
| `Mirroring.Mirror.RefreshScrollback` | src/mirror.rs:211-222 | fresh copies of the hidden rows, after which the end of the scrollback and the screen are the whole model, top to bottom |
| `Mirroring.ConservedKept` | src/mirror.rs:300-311 | a chunk that meets the conservation condition appends exactly its lines to what is above the region |
| `Mirroring.NarrowRowsFit` | src/mirror.rs:185-188 | rows of one character a cell, of a model no wider than the host, always meet that condition |
| `Mirroring.WatchChunk` | src/mirror.rs:272-367 | one chunk in the midst of a view: the device, by the diff, shows the model; the archive gains exactly the rows that left when the chunk is paced; the epoch's document grows by exactly the chunk's lines unless they are wider than the host or more than the archive's cap |
| `Mirroring.WatchChunks` | src/mirror.rs:272-367 | any run of chunks: the device shows what the output makes of the model it started with, and if every chunk is paced and within the cap, the archive gains exactly the rows that left, but for those still deferred |
| `Mirroring.WatchView` | src/mirror.rs:454-540 | a whole view, from start through any chunks to its end: the device shows the snapshot's rebuild fed all the output; if every chunk is paced and within the archive's cap, history, the rows the crop dropped and the rows that scrolled during the view are all archived, each once, in order; and if those fit the host, they are in the native scrollback, in order, right behind what was there |
| `Mirroring.RestartThenEnd` | src/mirror.rs:454-489 | restarting an active view, at any size, and ending it leaves the native scrollback as rescuing the zone would if and only if not (the zone is dirty and has rows), which is the guard of `push_zone` |
| `Mirroring.RestartLosesLine` | src/mirror.rs:454-489 | a concrete run: a line that scrolled reaches the native scrollback when the view ends, and does not when the view is restarted before it ends |
| `Session.Wrapper.Run` | src/main.rs:502-795 | the event loop over any run of events, with every pattern of failing sends: the session's invariant holds; the clients are those admitted, in their order, but for those to whom a send failed, who broke the protocol or hung up, or whose host role was taken by force; each of these is traced to its event, and without such events there are none; every event does to the state what its arm promises; the `host_changed` log only grows; a headless session that has had a view keeps one; if every init carries the ranks that the server has for its token, everyone's ranks are those of their tokens |
| `Session.Wrapper.RefreshView` | src/main.rs:825-905 | the view becomes the one that the best viewing client (or an outranking host) calls for; a start is streamed exactly when that changes the view or one is asked for, and the right view is left alone; every viewing client that is not lost ends up with a snapshot at that size and every chunk since; nobody viewing: a hosted session has no real view, a headless one keeps its last |
| `Session.FindBest` | src/main.rs:848-851 | no viewing client has a lower rank, or the same rank and a lower id |
| `Session.BestIsUnique` | src/main.rs:851 | the winner is one client |
| `Session.Wrapper.SendSnapshots` | src/main.rs:888-899 | whoever the snapshot is due to, all who view or one client only, is sent it or is marked dead by the failed send, and nobody else is sent anything |
| `Session.Wrapper.SweepRound` | src/main.rs:922-944 | one round: reports a change of the host role, drops the dead, re-decides; if no send fails it is the last, and if somebody died meanwhile, strictly fewer clients are alive |
| `Session.Wrapper.DropDead` | src/main.rs:923-939 | takes exactly the dead off the list and keeps the order; with nobody dead and no failed send the list stays as it is |
| `Session.Wrapper.SweepAndRefresh` | src/main.rs:907-944 | terminates, and restores the invariant from any state: no dead client, right view, everyone up to date; whoever was there and has not died is still there, in order; if no send fails the view changes at most once, and if it was right, not at all; the host role is believed held exactly when it is, unless its holder, alive before the broadcast that announced it, died in that broadcast |
| `Session.Wrapper.NobodyElseGone` | src/main.rs:907-944 | between events the list of clients is exactly those admitted that have not gone for one of the reasons recorded, in the order in which they came |
| `Session.Wrapper.ReportHost` | src/main.rs:923-938 | broadcasts exactly when the occupancy changed, and then the new value |
| `Session.Wrapper.BroadcastOutput` | src/main.rs:555-570 | each viewing client gets the next chunk or is lost, and nobody else is sent anything |
| `Session.Wrapper.OnOutput` | src/main.rs:526-580 | the output arm: the chunk is streamed while there is a view; everyone is left to whom no send failed, and has got the chunk, if viewing, and the title, in this order; if no send failed the view stays and the stream grows by the chunk only |
| `Session.Wrapper.OnHostResized` | src/main.rs:600-611 | the winch arm: everyone is left to whom no send failed, nothing but the host size, the view it calls for and the stream of that changes; model and pty follow the host in pass-through |
| `Session.Wrapper.OnToggle` | src/main.rs:1075-1092 | the hotkey toggles the simulated view, of 24 rows and 96 columns, and leaves a real one and every client alone |
| `Session.Wrapper.OnAccept` | src/main.rs:614-617 | ids are handed out in order of arrival |
| `Session.Wrapper.Admit` | src/main.rs:685-719 | a newcomer joins behind the others and has got the title, or is lost to it; a forced takeover marks the holders of the host role dead, and nobody else |
| `Session.Wrapper.OnInit` | src/main.rs:652-728 | admitted exactly for the right version, real dimensions, and for the host role a headless session whose role is free or taken by force; then the client is there, last and as its init described it, unless a send to it failed; of the others only holders of a role taken by force, and clients to whom a send failed, are gone; afterwards at most one host-role client exists |
| `Session.Wrapper.HandleMessage` | src/main.rs:981-1073 | what each request makes of its sender (size, state, death) and what it is answered; nobody else is changed; the view: the right one for the clients after a watch, a real resize or the end of watching, else as it was; a request to view starts the stream anew; a headless session with nobody viewing keeps its view |
| `Session.Wrapper.OnMessage` | src/main.rs:753-775 | the viewer arm: exactly a violation, an invalid resize or the end of the connection drops its sender; everyone else is left, and as they were, to whom no send failed; a headless session that nobody views any more keeps its last view |
| `Session.SameDecision` | src/main.rs:907-944 | sends that all succeed do not change who decides, or what |
| `SizeRanks.RankOfParty` | src/bin/g2mirror-server.rs:371-385 | a listed party ranks by its first place in the list, an unlisted token after all of it, an unlisted host after those |
| `SizeRanks.EarliestPartyDecides` | src/bin/g2mirror-server.rs:286-296 | with ranks from one config, the stream has the size of the earliest listed party that is present: its oldest viewing client, or the host terminal |
| `SizeRanks.OldestDecides` | src/bin/g2mirror-server.rs:286-296 | with nobody listed present, the oldest viewing client decides, and one that stands in for the host only when alone |
| `SizeRanks.RunFollowsList` | src/main.rs:652-728 | end to end: from an empty session, over any run of events whose inits carry the ranks of one list, the ranks in the state are those of that list, and the stream has the size of the earliest listed party present, or with none present of the viewing client that connected first; who is present is stated as for `Run` |
| `AttachProtocol.Attached.OnMessage` | src/attach.rs:549-611 | one message, against the client's transition function; the same in src/bin/g2mirror-view.rs 363-386 |
| `AttachProtocol.Attached.OnSnapshot` | src/attach.rs:613-684 | the three modes: request and buffer, restart live, or skip one reply more; the same in src/bin/g2mirror-view.rs 426-504 |
| `AttachProtocol.Attached.GoLive` | src/attach.rs:686-737 | the snapshot, then every buffered chunk; the same in src/bin/g2mirror-view.rs 506-567 |
| `AttachProtocol.FailsExactly` | src/attach.rs:549-611 | over any run, the client ends in failure if and only if an error message reached it before it was live |
| `AttachProtocol.ReceiveShows` | src/attach.rs:551-684 | what the client shows follows every message of the stream |
| `AttachProtocol.SnapshotReplacesView` | src/attach.rs:613-684 | a snapshot replaces what is shown, at its own size, or at the terminal's if it has none |
| `AttachProtocol.AnswerIsPage` | src/main.rs:1042-1067 | a reply is a stretch of the archive of at most 500 lines that ends right before the requested index, also after eviction |
| `AttachProtocol.WrapperSends` | src/main.rs:1042-1067 | a snapshot carries the extent of the archive at that moment, output goes out as it is, and the oldest request is answered from the archive as it now is |
| `AttachProtocol.StepKeeps` | src/attach.rs:549-684 | every step of client, wrapper or channel keeps the joint invariant |
| `AttachProtocol.RunKeeps` | src/attach.rs:549-684 | every interleaving of outputs, re-snapshots, archive growth, evictions, requests and replies keeps it |
| `AttachProtocol.ClientFollowsStream` | src/attach.rs:656-681 | at any time: view brought forward by the messages in flight = the wrapper's stream; outstanding history requests = `skip_replies` + 1 while fetching, else none, and the one whose reply is used asks for the lines before the latest snapshot; once live, the printed lines are the wrapper's whole answer, at a moment of the run, to a request for the lines before the first live snapshot |
| `AttachProtocol.RunAnswers` | src/attach.rs:656-681 | every reply on its way, and what a live client printed, is the answer that the wrapper gave at some moment of the run to the request it belongs to, by position |
| `AttachProtocol.PrintedHistory` | src/attach.rs:656-681 | that moment, and that the printed history is not empty if any line below the splice was retained then |
| `AttachProtocol.QuietClientIsCurrent` | src/attach.rs:549-684 | with empty channels, a client that was sent a snapshot is live and shows exactly the wrapper's stream |
| `AttachProtocol.HarmlessRunFollows` | src/attach.rs:549-684 | over every run in which the wrapper sends no error, through every race of re-snapshots with replies: the client has not failed, it follows the stream, its outstanding requests are counted, what it printed is an answer as above, and with empty channels it is live on exactly the wrapper's stream |
| `AttachProtocol.CatchesUp` | src/attach.rs:549-684 | after any such run, delivering and serving what is queued, and nothing else, makes the client live on the stream: no reply to be skipped and no request can leave it waiting |
| `AttachProtocol.OutputsInOrder` | src/attach.rs:567-579 | chunks reach what is shown in the order in which they were sent |
| `LiveView.PrintHistory` | src/attach.rs:699-717 | played on the terminal: above the region is everything that was shown before, then the history with records joined where they were wrapped and wrapped anew at the terminal's columns; the region is blank. On a terminal that fills with the pen's background, if no character that wraps has a background |
| `LiveView.RowsOnLines` | src/mirror.rs:848-852 | from the rows to the printed history: the text of each archived row is on its own logical line, right behind that of the row before it if that row was wrapped, at the start of a new line otherwise, and a line ends behind the text of a row that was not wrapped |
| `LiveView.TwoRows` | src/attach.rs:699-717 | two records are one line if the first row was wrapped and two lines otherwise |
| `LiveView.StartBelow` | src/attach.rs:719-727 | a local mirror starts to view below it: its account begins with what was shown, the history (as `PrintHistory` pins it), and copies of hidden rows if the view is taller than the terminal |
| `LiveView.GoLive` | src/attach.rs:689-737 | history (as `PrintHistory` pins it), then a local mirror that has been fed exactly snapshot and output since; if every chunk is paced and within the cap, all rows that left are archived, but for deferred ones, and, if they fit, their lines follow the history above the region, in order |
| `LiveView.StreamDetermines` | src/main.rs:832-834 | two emulators that get the same snapshot and the same output after it show the same, whatever they showed before |
| `LiveView.LiveShowsStream` | src/attach.rs:728-732 | a client gone live shows what a fresh emulator fed the stream shows |
| `Framing.LineReader.Next` | src/attach.rs:788-810 | however bytes are cut into reads and however calls are cancelled, messages come out as the non-empty lines of all bytes, in order, and a partial line stays; a line that is there is returned without another read, and a call gives up only when it is cancelled or the input ends; the same in src/control.rs 147-169 |
| `Framing.SentLinesComeOut` | src/attach.rs:812-817 | messages come out as they were sent |

## Left out

- Parsing of escape sequences, Unicode width and the other internals of `vt100`: a byte of
  output is the list of effects that completing it has. On the modelled host terminal every
  character (a lead byte with its continuation bytes) takes one column; characters of two
  columns and combining marks of none are not covered there.
- Row diffs are abstract patches between two lines, and the device stream a diff between two
  screens, known only to turn the one into the other; their byte encoding is library code that
  is not part of this model. A screen is cells, cursor, visibility, input modes and pen: wrap
  flags, margins and a saved cursor are not part of it.
- Where drawing a row leaves cursor and pen (`Vt.RowEnd`) is library behaviour as well, taken to
  be: behind the last character, or at the start of a run of styled blanks, in its style.
- What scroll margins and origin mode do on the host: `Term.framed` only records that they are
  reset, which is part of being in step. A synchronized update (`Term.held`) only has to be
  closed; the same markers in the device stream are left out.
- Bells, titles and their callbacks in `Mirror`; only the debouncer is modelled.
- Sockets, timeouts, signals, raw mode, spawning, JSON and base64 encoding, token hashing,
  filters, argument parsing, pickers and key handling. An I/O error that ends the wrapper and
  the drain of output at exit are not events of `Session.Wrapper.Run`.
- What a client that is dropped, displaced or turned away is still told. Read-only sessions
  answer input with a refusal, which is one of the messages called `Other`.
- Clients are values in a sequence that the wrapper's methods reassign, not objects of their
  own. The monitor connection is reduced to the log of `host_changed` messages.
- The capture half of the mirror (parser, archive, counter) is a class of its own,
  `Capturer`, which `Mirror` owns. Pass-through host contents are not tracked.
- In `AttachProtocol.Attached` the local mirror is represented by what it has been fed since
  its last start; `LiveView` composes the real one with the terminal for going live.
- What the host terminal itself does on a resize, and how stale copies of hidden rows become
  between refreshes.
- The headless greeting's size: src/main.rs:618-622 describes the model's size and returns the
  stored host size; no claim rests on it.
- Overflow of 64-bit indices and 32-bit counters.
- HostScroll.MirrorScroll: on a terminal that fills with the pen's background, what a wrapping
  character with a background colours is left open; on others nothing is.
- LiveView.PrintHistory: the same, for the joined lines of the history.
- Mirroring.WatchView: what reaches the native scrollback is stated for chunks whose lines have
  no more columns than the host and are no more than the archive's cap;
  `HostScroll.ScrollConservation` gives the exact condition per chunk.
- HostScroll.PushedRowShowsRow: for rows whose cells hold one character each and whose record
  stays under the byte cap.
