# Quoky: a verified model of its delivery and containment core

Quoky is a personal assistant that talks through Discord and Telegram, runs provider CLIs as contained child processes and
takes images from its owner. This project models the parts of it whose promises hold over whole runs or over every input,
and proves those promises with Dafny 4.11:

- the Telegram poll loop: offset, album being collected, saved offset, verification, halts and stops, against a server that
  replays what was not confirmed and a host clock that tells stale updates and silent days (`TelegramPoll.dfy`, and the
  adapter's fields and methods in `TelegramAdapter.dfy`); what every run keeps (`PollDelivery.dfy`, `PollLifecycle.dfy`,
  `PollAlbums.dfy`), the reset after a silent day (`PollReset.dfy`), the 409 policy (`PollConflicts.dfy`), and the merge of an
  album's captions (`Album.dfy`);
- the contained CLI runner: child, timer, abort and stdin events in any order (`CliRunner.dfy`, `CliRun.dfy`);
- the text transformers: the CommonMark translator for Telegram (`Emphasis.dfy`, `EmphasisMaximal.dfy`, `Inline.dfy`,
  `CommonMark.dfy`, `Edits.dfy`, `Budgets.dfy`, `TakeLines.dfy`), the two chunkers and the preview planner
  (`TelegramDelivery.dfy`, `DiscordDelivery.dfy`), and the Discord table renderer (`Tables.dfy`, `TablesIdempotent.dfy`,
  `TableLoops.dfy`);
- the image canonicaliser, whose two copies are byte-identical (`Png.dfy`, `Jpeg.dfy`, `Webp.dfy`, `Crc.dfy`, `Adam7.dfy`,
  `Images.dfy`, `Bytes.dfy`), with RFC 2083, ITU-T T.81 and RFC 9649 as the standards behind it;
- three small protocols: the owner notification with its one fallback (`Notification.dfy`), the write-window transport guard
  (`WriteGuard.dfy`) and identity provisioning (`Provisioner.dfy`).

Code of the repository that is made of expressions appears as functions; loops and event handlers that update variables appear
as methods and classes, each proved equal to a function of its inputs or of its old state, and the promises are proved about
those functions. Text is a sequence of UTF-16 code units (`Utf16.dfy`); each regular expression is a named scanner or predicate.

`dafny verify dfyconfig.toml` checks the whole project.

## What the proofs found

- **A silent day repeats only what is dated a day ahead.** The reset of the offset lets the server send handed-over updates
  again, but admission drops them as stale. In some run without a lost offset an update is handed over twice if and only if its
  date is at least a day, less ten minutes, ahead of the host clock at which it came to exist (`PollReset.DatedAheadExactly`): a
  host clock that was a day behind and is corrected is enough. `PollReset.SilentResetExactly` says in which state which update
  comes back, `PollReset.AdapterCanTell` says it with what the adapter itself knows.
- **A failed save costs one repetition.** Each process that ends with an offset it could not save can bring an update back once
  (`PollReset.LostOffsetRepeats` is that run for every update that is not stale); otherwise saves and crashes repeat nothing.
- **The conflict window needs a steady clock.** The pruned list of 409s is the recent history exactly when a conflict once
  found outside the window stays outside it (`PollConflicts.ConflictsAreRecentExactly`), and `PollConflicts.HaltsExactly` says
  what that does to the halt; `PollConflicts.ClockStepLosesConflict` is a clock step that loses one.
- **The notification leans on its check.** Whatever ran so far, a second message can still follow exactly in these states: both
  messages may exist already; the channel's may and the DM can still be called; or the check's callback has not run and its wait
  has not expired, while the DM may exist or can still be called (`Notification.SecondMessageExactly`). From the last of these it
  takes a check that runs the callback after it has settled (`Notification.LateCallbackSendsTwice` is such a run;
  `Notification.AtMostOneMessage` excludes everything else). The port's contract excludes that, and the one check that is wired
  awaits the send before it resolves (apps/quoky/src/features/surface-grants.providers.ts:130-137): it is a requirement on
  checks to come, not a fault of the present one.
- **Provisioning relies on its configuration.** An identity ends up on two Actors exactly when two links give it, unheld, to
  owners of different Actors (`Provisioner.TwoHoldersExactly`). The one wiring there is cannot give such links: it refuses a
  Telegram id that is mapped twice (apps/quoky/src/telegram/telegram-config.ts:99).
- **The numbering reserve ends at one million parts.** The prefix of the last part fits its reserve exactly below that count
  (`TelegramDelivery.PrefixFitsExactly`).
- **A branch that never runs.** The fence-aware chunker's return for an empty rest after a cut is never taken: the reserve keeps
  more behind the cut than a closer can take (the postcondition of `DiscordDelivery.NextPiece`).

## Model

| member | source | states |
|---|---|---|
| PollDelivery.NothingTwiceNothingSkipped | packages/adapter-telegram/src/telegram-platform-adapter.ts:663-979 | over every run of polls, replays, albums, failed saves, silent days, stops, halts and restarts: an update is handed over once, plus at most once per process that ended with an unsaved offset and per reset if it is dated a day ahead; only admissible updates are handed over; every update below the held or saved offset or forgotten by the server was handed over, or admission refuses its content, or it was stale at its admission, or no response can hold it, or an earlier numbering's offset hid it; and hand-overs follow update id order when nothing is dated ahead and no offset was lost |
| PollDelivery.NextKeeps | packages/adapter-telegram/src/telegram-platform-adapter.ts:663-873 | every single step, with arbitrary stops and halts during its waits, keeps the invariant about what was handed over, what is guarded against a second time, and what lies below the offset; a step that gives the offset up keeps it for each update it leaves guarded |
| PollLifecycle.ActsOnlyWhileOpen | packages/adapter-telegram/src/telegram-platform-adapter.ts:977-979 | over every run nothing is handed over and no call starts before verification or after a halt, a stop or a restart |
| PollReset.DatedAheadExactly | packages/adapter-telegram/src/telegram-platform-adapter.ts:668-733 | an admissible update is handed over twice in some run without a lost offset if and only if it is dated at least a day, less ten minutes, ahead of the host clock at which it came to exist |
| PollReset.SilentResetExactly | packages/adapter-telegram/src/telegram-platform-adapter.ts:668-733 | in every reachable state, the reset lets some continuation hand a handed-over update over again if and only if it is part of the album being collected, or the server still holds it, it is not stale, and no album together with the saved offset covers it |
| PollReset.AdapterCanTell | packages/adapter-telegram/src/telegram-platform-adapter.ts:668-733 | the same with the confirmed offset in place of what the server forgot: some server that fits the answered polls repeats the update if and only if the adapter's own state and the update's date allow it |
| PollReset.LowerNumbering | packages/adapter-telegram/src/telegram-platform-adapter.ts:668-675 | an update numbered below the offsets of an earlier numbering is never handed over before a reset, and the reset lets some continuation hand it over if and only if it is part of the album being collected, or the server still holds it, it is not stale, and no album together with the saved offset covers it |
| PollReset.Reach | packages/adapter-telegram/src/telegram-platform-adapter.ts:663-733 | polls without disturbance hand over any update that is waiting at the server or collected |
| PollReset.LostOffsetRepeats | packages/adapter-telegram/src/telegram-platform-adapter.ts:917-925 | a failed save and a process restart hand any update that is not stale and no album part over twice |
| PollAlbums.EveryTurnIsPure | packages/adapter-telegram/src/telegram-platform-adapter.ts:841-873 | over every run each turn is one update, or two to ten parts that all belong to one album of one chat |
| PollConflicts.ConflictsAreSurvivors | packages/adapter-telegram/src/telegram-platform-adapter.ts:755-759 | the pruned list is exactly the 409s that were inside the five-minute window at every later 409 |
| PollConflicts.ConflictsAreRecentExactly | packages/adapter-telegram/src/telegram-platform-adapter.ts:755-759 | the pruned list is the last window of the full history if and only if a 409 found outside a window stays outside the last one |
| PollConflicts.HaltsExactly | packages/adapter-telegram/src/telegram-platform-adapter.ts:755-759 | the adapter halts if and only if the last window holds three 409s beyond those pruned too early |
| PollConflicts.ClockStepLosesConflict | packages/adapter-telegram/src/telegram-platform-adapter.ts:755-759 | a clock that steps back makes the list shorter than the window's history |
| TelegramAdapter.TelegramPlatformAdapter.HandleBatchOf | packages/adapter-telegram/src/telegram-platform-adapter.ts:772-838 | the batch loop over the adapter's fields takes exactly the protocol's batch step, entry by entry, with its early ends |
| TelegramAdapter.TelegramPlatformAdapter.HandleUpdate | packages/adapter-telegram/src/telegram-platform-adapter.ts:774-827 | one entry: malformed, already seen, album part, refused, stale and single updates each lead to the protocol's new state and verdict |
| TelegramAdapter.TelegramPlatformAdapter.JoinPendingGroup | packages/adapter-telegram/src/telegram-platform-adapter.ts:841-852 | a part joins the album being collected only in the same chat and album below ten parts; otherwise nothing changes |
| TelegramAdapter.TelegramPlatformAdapter.FlushPendingGroup | packages/adapter-telegram/src/telegram-platform-adapter.ts:859-873 | the album is handed over once as one turn and the offset moves past its last part, or it is dropped without a turn when the gate closed |
| TelegramAdapter.TelegramPlatformAdapter.HandOverMessage | packages/adapter-telegram/src/telegram-platform-adapter.ts:937-979 | the whole new state of a hand-over, with what stops and halts during its waits leave of it |
| TelegramAdapter.TelegramPlatformAdapter.PersistOffset | packages/adapter-telegram/src/telegram-platform-adapter.ts:917-925 | an offset that moved is saved, or, when the store fails, the saved offset stays and nothing else changes |
| TelegramAdapter.TelegramPlatformAdapter.ResetIfSilent | packages/adapter-telegram/src/telegram-platform-adapter.ts:668-675 | the offset is given up exactly when one is held and the last update is more than a day old |
| TelegramAdapter.TelegramPlatformAdapter.PollAnswered | packages/adapter-telegram/src/telegram-platform-adapter.ts:718-724 | an answered poll restores the batch size, confirms the offset it carried, and notes the time of a batch that is not empty |
| TelegramAdapter.TelegramPlatformAdapter.CollectPart | packages/adapter-telegram/src/telegram-platform-adapter.ts:783-790 | a part joins the collected album, or the collected album goes first and the part starts a new one |
| TelegramAdapter.TelegramPlatformAdapter.AfterTooLarge | packages/adapter-telegram/src/telegram-platform-adapter.ts:740-752 | an oversized answer halves the batch, or skips one update at the smallest size, as the protocol's step says |
| TelegramAdapter.TelegramPlatformAdapter.RecordConflict | packages/adapter-telegram/src/telegram-platform-adapter.ts:755-759 | the kept list is the pruned history, and the verdict is true exactly when the last window holds three 409s beyond those pruned too early |
| TelegramAdapter.TelegramPlatformAdapter.Halt | packages/adapter-telegram/src/telegram-platform-adapter.ts:514-549 | a halt ends the run's lifecycle and closes the adapter, once |
| TelegramAdapter.TelegramPlatformAdapter.Stop | packages/adapter-telegram/src/telegram-platform-adapter.ts:569-613 | a stop closes the adapter and takes the collected album with it when the loop is gone |
| TelegramAdapter.TelegramPlatformAdapter.Start | packages/adapter-telegram/src/telegram-platform-adapter.ts:407-449 | starting again goes back to the saved offset with no album and no verification |
| TelegramAdapter.TelegramPlatformAdapter.OutboundCall | packages/adapter-telegram/src/telegram-platform-adapter.ts:1218-1253 | sends, typing, file and download calls start only while verified and not halted or stopped |
| Album.MergedRangesAgree | packages/adapter-telegram/src/telegram-platform-adapter.ts:1349-1368 | for clamped ranges, every range of the merged turn is in bounds, not empty and selects exactly the words its source range selected from its own part, in order, one for each range of a part that is not blank; a single part is unchanged |
| Album.MergeAlbum | packages/adapter-telegram/src/telegram-platform-adapter.ts:1349-1368 | the loop over the parts builds the caption, ranges, attachments and code flag that the range theorem is about |
| Album.QuotedRangesOf | packages/adapter-telegram/src/admission.ts:287-309 | at most 32 ranges, the first valid ones of the first 256 entities, each not empty and inside the text |
| CliRunner.EveryRunIsContained | packages/ai-cli/src/cli-runner.ts:415-768 | in every interleaving of events: resolved at most once and cleaned up exactly as often, no timeout, SIGTERM or kill acts on a closed run, each stream's counted bytes stay within its bound, and a result carries exactly the kept output, only the cleanup reason when the directory could not be removed, and no provider output when the run failed |
| CliRunner.EveryRunSettlesInTime | packages/ai-cli/src/cli-runner.ts:578-613 | when timers fire, the run has resolved exactly once by its timeout plus two grace periods |
| CliRunner.GroupIsReaped | packages/ai-cli/src/cli-runner.ts:549-613 | a process group whose termination began is probed at most once, is found gone or gets SIGKILL, leaves tracking exactly then (also when close came first), and was probed one grace period after the timeout |
| CliRun.ContainedRun.HandleData | packages/ai-cli/src/cli-runner.ts:642-690 | the data handler counts, bounds, scans and decodes as the protocol's step, and counts nothing once the run failed |
| CliRun.ContainedRun.Terminate | packages/ai-cli/src/cli-runner.ts:578-613 | one termination request: flags, signals and the three timers it arms |
| CliRun.ContainedRun.Reap | packages/ai-cli/src/cli-runner.ts:549-570 | one probe, SIGKILL only to a group still there, and the end of its tracking |
| CliRun.ContainedRun.FinalizeOnce | packages/ai-cli/src/cli-runner.ts:448-469 | timers and the temporary directory are released once, whoever calls first |
| CliRun.ContainedRun.Project | packages/ai-cli/src/cli-runner.ts:479-525 | the result handed to the caller after close, decided by the failure flags |
| CliRun.ContainedRun.TimeoutCallback | packages/ai-cli/src/cli-runner.ts:734-739 | a timeout acts only on a run that has not settled and has seen no close |
| Emphasis.EmphasisIsMatched | packages/adapter-telegram/src/commonmark.ts:319-380 | stars are removed only as opener and closer pairs that never cross, of runs that may open and close, under the rule of 3 on original lengths, never in a code span, guarded token or opaque span; no unit serves as opener and closer |
| EmphasisMaximal.EmphasisIsMaximal | packages/adapter-telegram/src/commonmark.ts:347-380 | nothing more could be paired: of two runs that both keep a star and could open, close and pair under the rule of 3, the opening one lies inside a pair closed no later; and an opener that a pair passed over while it could have closed it lies inside an earlier pair |
| EmphasisMaximal.CloseFull | packages/adapter-telegram/src/commonmark.ts:349-377 | a run that stops closing has no stars left or no open run on the stack can pair with it; closing keeps open runs on the stack or enclosed by a pair |
| Emphasis.MarkEmphasis | packages/adapter-telegram/src/commonmark.ts:319-380 | the delimiter-stack loops set exactly the flags of those pairs and no other flag |
| Emphasis.MarkedExactly | packages/adapter-telegram/src/commonmark.ts:367-368 | a unit's flag is set afterwards if and only if it was set before or is one end of a pair |
| Emphasis.ProcessToKeeps | packages/adapter-telegram/src/commonmark.ts:347-379 | every step keeps the stack ordered, the pairs nested and the open runs' remaining units clear of every pair |
| Inline.MarkCodeSpans | packages/adapter-telegram/src/commonmark.ts:274-316 | the flags set are exactly the backtick runs, stripped spaces and contents of the code spans |
| Inline.CodeSpansOk | packages/adapter-telegram/src/commonmark.ts:274-316 | code spans are backtick runs of equal length, one behind the other, never overlapping |
| Inline.MarkGuarded | packages/adapter-telegram/src/commonmark.ts:398-439 | a unit is guarded if and only if it lies in a link destination, an autolink, or a token shaped like a URL, path or identifier |
| Inline.MarkLinks | packages/adapter-telegram/src/commonmark.ts:447-502 | the link loop sets exactly the removals and replacements of the links, on top of the earlier removals |
| Inline.LinksInOrder | packages/adapter-telegram/src/commonmark.ts:447-502 | the rewritten links lie one behind the other |
| Inline.DestinationKept | packages/adapter-telegram/src/commonmark.ts:513-519 | every unit of a rewritten link's destination is written as it stands: no code span, emphasis or link takes it |
| Inline.TranslateInline | packages/adapter-telegram/src/commonmark.ts:505-528 | the passes over one line write exactly an allowed edit of its units |
| CommonMark.LinesAreSegments | packages/adapter-telegram/src/commonmark.ts:226-239 | splitting into lines loses nothing: the lines joined by newlines are the segments, unit for unit, and no span is split |
| CommonMark.RewriteEdited | packages/adapter-telegram/src/commonmark.ts:531-549 | heading, bullet and quote rules only drop copy or write a bullet, bar or space for one sign of copy |
| CommonMark.TranslationIsAnEdit | packages/adapter-telegram/src/commonmark.ts:552-576 | for every segment list the translation drops copy or replaces one sign by a bullet, bar or space, keeps every opaque span verbatim and in order, and is never longer in UTF-16 units or code points |
| CommonMark.FencedBlockVerbatim | packages/adapter-telegram/src/commonmark.ts:555-574 | a fenced block's lines up to its closer are kept unit for unit, its fence lines vanish, and the lines after it are written exactly as if they came first |
| CommonMark.UnclosedFenceVerbatim | packages/adapter-telegram/src/commonmark.ts:555-574 | an unclosed fence runs to the end: its opening line vanishes and every line after it is kept unit for unit |
| CommonMark.TranslateCommonMark | packages/adapter-telegram/src/commonmark.ts:552-576 | the loop over the lines writes exactly the text of that translation |
| Edits.EditKeeps | packages/adapter-telegram/src/commonmark.ts:46-50 | what any allowed edit keeps: the spans in order, and a length that does not grow in either unit |
| Edits.Composed | packages/adapter-telegram/src/commonmark.ts:531-549 | two allowed edits in a row are one allowed edit: a written sign is never written over |
| Budgets.ClipKeepsBudget | packages/adapter-telegram/src/commonmark.ts:128-136 | a clipped node meets its budget if and only if what follows the clipped text does, in either unit |
| Budgets.FitLines | packages/adapter-telegram/src/commonmark.ts:137-159 | as few droppable lines as possible are left out, last first; the result meets the budget unless it is below one unit and the fixed lines do not fit |
| TakeLines.RenderTakeLines | packages/adapter-telegram/src/commonmark.ts:160-183 | the lines taken are the longest prefix within the budget, a list that drops trailing headings ends on an entry, and the note counts exactly the entries not shown and those hidden |
| TakeLines.TakeLinesKeepsBudget | packages/adapter-telegram/src/commonmark.ts:160-183 | the joined result meets its budget when the base reserves the separators of the fixed lines and the note, and the fixed lines fit |
| Budgets.ClipBudgetSurvives | packages/adapter-telegram/src/commonmark.ts:128-136 | a clip budget that held before the translation holds after it |
| Budgets.TranslationKeepsBudget | packages/adapter-telegram/src/commonmark.ts:46-50 | any length budget met by the rendered text is met by its translation |
| Budgets.SliceText | packages/adapter-telegram/src/commonmark.ts:71-81 | slicing segments slices exactly their concatenated text |
| TelegramDelivery.ChunksLossless | packages/adapter-telegram/src/delivery.ts:51-63 | the chunks joined are the text, and none is empty or longer than the limit |
| TelegramDelivery.ChunkCutsGood | packages/adapter-telegram/src/delivery.ts:29-63 | no boundary splits a surrogate pair, nor a backtick run no longer than the limit |
| TelegramDelivery.ChunkTelegramText | packages/adapter-telegram/src/delivery.ts:51-63 | the loop yields those chunks |
| TelegramDelivery.NumberedFit | packages/adapter-telegram/src/delivery.ts:66-68 | numbered parts fit a Telegram message for every reply of fewer than a million parts |
| TelegramDelivery.PrefixFitsExactly | packages/adapter-telegram/src/delivery.ts:66-68 | the number of the last part fits its reserve if and only if there are fewer than a million parts |
| TelegramDelivery.SplitEscaped | packages/adapter-telegram/src/delivery.ts:133-151 | the segments join to the diff, each fits the budget when escaped, and they are as few as whole lines allow |
| TelegramDelivery.PlanPreview | packages/adapter-telegram/src/delivery.ts:110-169 | for every limit and threshold a text plan's segments join to the diff and every escaped, wrapped part with its trailer is within the limit; the diff goes as a document exactly when the trailer leaves no room, a line is too long, or no split at line ends has few enough parts |
| DiscordDelivery.FenceAwareChunks | packages/adapter-discord/src/delivery.ts:83-118 | every message fits, the text is recovered exactly by taking out inserted fences and putting back consumed closers, every message but the last is fence-balanced, and without overlong backtick runs the last one ends in the whole text's fence state |
| DiscordDelivery.ChunksRestore | packages/adapter-discord/src/delivery.ts:83-118 | what was taken out of the text is only a closer the message already wrote itself |
| DiscordDelivery.LastStateIsWhole | packages/adapter-discord/src/delivery.ts:66-118 | the fence state carried from piece to piece ends where the whole text's ends |
| DiscordDelivery.InFenceSplit | packages/adapter-discord/src/delivery.ts:66-81 | fence parity of a text is that of its parts one after the other, when no backtick run is split between them |
| DiscordDelivery.ChunkText | packages/adapter-discord/src/delivery.ts:28-33 | short text, plain text and text with fences each go to the chunker whose theorem covers it |
| DiscordDelivery.ChunkFenceAware | packages/adapter-discord/src/delivery.ts:83-118 | the loop terminates and yields the pieces of the theorem |
| DiscordDelivery.PlainChunksLossless | packages/adapter-discord/src/delivery.ts:53-63 | plain chunks join to the text, none empty or too long |
| TablesIdempotent.RenderIsIdempotent | packages/adapter-discord/src/markdown-tables.ts:176-243 | rendering a rendered reply changes nothing, for every text |
| TablesIdempotent.ScanAgain | packages/adapter-discord/src/markdown-tables.ts:189-242 | the second scan, at least as reluctant to start a table at each line, passes over everything the first one wrote or kept |
| TablesIdempotent.TaintKept | packages/adapter-discord/src/markdown-tables.ts:106-130 | a paragraph that touches a fence still touches it after rendering |
| TableLoops.OnlyTablesChange | packages/adapter-discord/src/markdown-tables.ts:176-243 | ineligible text is unchanged; otherwise a stretch of rows becomes its region exactly where a header and a delimiter row start it, outside every open list and in a paragraph without a fenced line, and every other line is kept, in order |
| TableLoops.TableUnfenced | packages/adapter-discord/src/markdown-tables.ts:106-130 | every line of such a stretch lies outside every fence and in a paragraph without a fenced line |
| Tables.CellsRendered | packages/adapter-discord/src/markdown-tables.ts:156-169 | in the rendered lines each filled cell of each row stands once, in its row's bullet, in column order and behind its own column's label; empty cells and rows leave nothing |
| Tables.CellsTile | packages/adapter-discord/src/markdown-tables.ts:146-149 | splitting a row at unescaped pipes loses nothing: the cells joined by pipes are the row's inner text |
| TableLoops.FencedLines | packages/adapter-discord/src/markdown-tables.ts:74-99 | null exactly for fences that are not balanced, otherwise exactly the fenced lines are flagged |
| TableLoops.ConvertibleLines | packages/adapter-discord/src/markdown-tables.ts:106-130 | null exactly for an ineligible reply, otherwise a line that is not blank is flagged if and only if its paragraph holds no fenced line |
| TableLoops.RenderMarkdownTables | packages/adapter-discord/src/markdown-tables.ts:176-243 | the scan with its context and list flags computes the rendering the theorems are about |
| Png.CanonicalPngProjection | packages/adapter-telegram/src/image-canonical.ts:152-276 | an accepted PNG is rewritten into one that is accepted again, rewrites to itself byte for byte, and has the same size and picture |
| Png.DecodeFinal | packages/adapter-telegram/src/image-canonical.ts:196-276 | decoding the rewritten chunks gives the palette, transparency and scanlines of the input |
| Png.KeptReached | packages/adapter-telegram/src/image-canonical.ts:152-215 | the kept chunks pass every order and uniqueness rule again |
| Png.Canonicalize | packages/adapter-telegram/src/image-canonical.ts:152-276 | the chunk loop accepts, refuses with the same error, and writes exactly as the chunk walk |
| Jpeg.CanonicalJpegProjection | packages/adapter-telegram/src/image-canonical.ts:326-428 | an accepted JPEG is rewritten into one that is accepted again, rewrites to itself, and has the same size |
| Jpeg.CanonicalJpegPieces | packages/adapter-telegram/src/image-canonical.ts:326-428 | the output is SOI, kept segments and EOI only: no comment and no application data of the input |
| Jpeg.WalkAgain | packages/adapter-telegram/src/image-canonical.ts:332-428 | from every point of an accepted walk, walking what is written next gives the same result again, with fill bytes and dropped segments gone |
| Jpeg.ValidTablesAreTables | packages/adapter-telegram/src/image-canonical.ts:293-316 | the exact-length checks accept a payload if and only if it is one or more whole tables |
| Jpeg.Canonicalize | packages/adapter-telegram/src/image-canonical.ts:326-428 | the marker loop has the result of the segment walk, errors included |
| Webp.CanonicalWebpProjection | packages/adapter-telegram/src/image-canonical.ts:468-536 | an accepted WebP is rewritten into one that is accepted again, rewrites to itself, has the same size, and is no longer than the input |
| Webp.SelectShape | packages/adapter-telegram/src/image-canonical.ts:497-528 | the output holds only chunks of the input, or a rebuilt header and two of them in order |
| Webp.Canonicalize | packages/adapter-telegram/src/image-canonical.ts:468-536 | the chunk loop has the result of the chunk walk, errors included |
| Crc.TableIsPolynomial | packages/adapter-telegram/src/image-canonical.ts:85-99 | the table-driven checksum is the bit-at-a-time polynomial checksum for every byte sequence |
| Crc.OneByteErrorDetected | packages/adapter-telegram/src/image-canonical.ts:95-99 | changing exactly one byte always changes the checksum |
| Crc.ComputeCrc32 | packages/adapter-telegram/src/image-canonical.ts:95-99 | the byte loop computes the polynomial checksum |
| Adam7.PixelInExactlyOnePass | packages/adapter-telegram/src/image-canonical.ts:121-130 | the seven passes partition the pixels |
| Adam7.PassPixels | packages/adapter-telegram/src/image-canonical.ts:139-150 | a pass's rows and columns are exactly its pixels inside the image |
| Adam7.PassesCoverImage | packages/adapter-telegram/src/image-canonical.ts:139-150 | the pass areas sum to width times height |
| Adam7.RowsHoldTheImage | packages/adapter-telegram/src/image-canonical.ts:139-150 | the listed rows hold every pixel's bits, one filter byte a row and less than a byte of padding a row |
| Adam7.PngRows | packages/adapter-telegram/src/image-canonical.ts:139-150 | the loops list exactly the rows of the passes that are not empty |
| Notification.AtMostOneMessage | packages/adapter-discord/src/notification.ts:184-350 | over every interleaving of check, deadline and sends in which no late callback starts a send, at most one message may exist; SENT was confirmed, NOT_SENT leaves none that exists or can come to exist, UNCERTAIN leaves at most one |
| Notification.DmOnlyAfterRefusal | packages/adapter-discord/src/notification.ts:203-213 | a DM is tried only after a definite refusal or a channel send that never started and can no longer start |
| Notification.SecondMessageExactly | packages/adapter-discord/src/notification.ts:203-350 | from every reachable state some continuation makes a second message if and only if both messages may exist already, or the channel's may and the DM can still be called, or the callback has not run, its wait has not expired, and the DM may exist or can still be called |
| Notification.LateCallbackSendsTwice | packages/adapter-discord/src/notification.ts:242-281 | a run in which a check that breaks its contract, running the callback after it settled, makes a second message |
| Notification.OwnerDelivery.Callback | packages/adapter-discord/src/notification.ts:249-255 | the callback starts the send unless the wait expired |
| Notification.OwnerDelivery.AfterTheRace | packages/adapter-discord/src/notification.ts:261-281 | what follows the race between check and deadline, for every order of the two |
| WriteGuard.PoisonedExactly | apps/quoky/src/connector-write-transport.ts:95-119 | over every trace of windows and diagnostics events a window is poisoned if and only if its origin was unreadable or request bytes for it, or for an unreadable origin, came while it was open |
| WriteGuard.NotSentExactly | apps/quoky/src/connector-write-transport.ts:81-113 | NOT_SENT if and only if the origin was readable, no such bytes were observed, and one of the first five errors is connection-stage evidence |
| WriteGuard.HasConnectionStageEvidence | apps/quoky/src/connector-write-transport.ts:81-92 | the walk down the cause chain, cyclic or not, finds evidence exactly when one of the first five errors is evidence |
| WriteGuard.TransportGuard.PoisonWindowsFor | apps/quoky/src/connector-write-transport.ts:115-119 | exactly the open windows that the bytes hit become poisoned |
| Provisioner.SecondRunWritesNothing | apps/quoky/src/actor-identity-provisioner.ts:24-129 | a second run on the result finds no conflict and writes nothing |
| Provisioner.Applied | apps/quoky/src/actor-identity-provisioner.ts:24-129 | afterwards every linked identity is on its owner's Actor and every mapping of a known Actor is applied |
| Provisioner.TwoHoldersExactly | apps/quoky/src/actor-identity-provisioner.ts:24-129 | after a run on a consistent store an identity is on two Actors if and only if two links gave it, unheld before, to owners of different Actors; a Jira or GitHub identity never is |
| Provisioner.OnlyAdds | apps/quoky/src/actor-identity-provisioner.ts:81-88 | after a run no Actor has disappeared and none has lost or reordered an identity |
| Provisioner.Storage.Provision | apps/quoky/src/actor-identity-provisioner.ts:24-88 | on any conflict nothing is written; otherwise every plan is saved, with the same Actors in any order, and the identity index names one Actor for each identity if and only if no two links clash |

## Left out

- Zlib: inflate and deflate are a parameter of the PNG model with two laws: inflating a deflated buffer gives the data back and consumes the whole stream, and data within the raw size bound deflates to a length that a chunk can carry; the decoder's internals are not modelled.
- Unicode tables: the punctuation classes of the flanking rules are a predicate parameter; white space is the ECMAScript list.
- Renderer: the clip, fit-lines and take-lines budgets of `renderNode` are modelled, on already rendered segments; first-fit and the tree recursion are plain traversals.
- PollDelivery.NothingTwiceNothingSkipped: the message handler is registered from the start, and calling it and moving the offset is one step, as in the source; the host clock does not step back; a numbering begins with a fresh process, so an album held across a renumbering is not modelled.
- PollReset.DatedAheadExactly: the server keeps unconfirmed updates for any time, while Telegram drops them after a day; a corrected host clock makes the repetition without that. Reading the offset store is taken to succeed.
- PollReset.AdapterCanTell: stated for runs without offsets of an earlier numbering and with no oversized update between the confirmed offset and what the server forgot, where a confirmed offset says what may still come.
- PollDelivery.NextKeeps: apart from its age, what admission makes of an update is carried by the update, because it is branch-only.
- CliRunner.EveryRunIsContained: UTF-8 decoding and the download-marker match are verdicts carried by the data event; process spawning, signals and the temporary directory are environment steps; a child that leads a group reports an error only for a failed kill.
- Notification.AtMostOneMessage: the check settles once, after the send it started, and truthfully; the port's contract excludes a callback that runs late, and what it would do is in Notification.SecondMessageExactly; errors carry their classification, the classifier's table of codes is not modelled.
- WriteGuard.NotSentExactly: origins and error fields are already parsed; URL parsing and the message patterns are not modelled.
- Provisioner.SecondRunWritesNothing: needs what the configuration parser gives, that mappings name Actors by chat identities no link adds, and a first run that left the store consistent.
- Provisioner.Storage.Provision: the order of the saves is left open instead of sorted by id, since the Actors do not depend on it; storage calls succeed.
- TelegramDelivery.PlanPreview: the senders that retry after a rate limit and deliver plans or chunks over the network are not modelled.
- DiscordDelivery.FenceAwareChunks: Discord's own preview plan and the senders `deliverChunks` and `deliverPreview` are not modelled.
- Album.QuotedRangesOf: entity offsets are mathematical integers; JavaScript numbers beyond 2 to the 53 are not modelled.
- Composition: module wiring, configuration parsing, provider bootstrap, git guards, redaction, reactions and allowlists are flat branching and are left out.
