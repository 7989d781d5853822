# YouTube music bot: the playback session, in Dafny

This project models the core of a Discord bot that searches YouTube, lets
members pick a result by reacting with a keycap emoji, queues the pick and
streams it into a voice channel. Three parts of the bot are modelled.

- **The `YouTubePlayer` cog** of `discord_bot.py` is the class
  `Player.YouTubePlayer`. It holds:
  - the queue of one-entry slots (`{search_id: YoutubeSearchResult}`);
  - the cursor, which starts at -1;
  - the playing flag;
  - whether a voice client exists;
  - the per-user search registry;
  - the history table.

  Each handler is a method. Its `ensures` says it performs exactly one step
  function on the `Session` value: advance, enqueue, skip, the queue view,
  auto-leave, search registration, expiry and reaction selection. The
  properties are lemmas about those step functions.
- **The older global-state bot** of `main.py` is the class
  `Legacy.GlobalSession`. It adds the pause flag, `pause`/`resume`,
  selection by number, the tiered format picker `get_format` and the
  `&pp=` stripper.
- **The history table** of `database.py` is the class
  `History.HistoryStore`. Its rows are kept as a sequence in table order:
  - the upsert keyed by watch URL, followed by the 7-day purge;
  - the `'` → `''` escaping, modelled by how SQLite reads a quoted literal back;
  - newest-first pagination, ten rows per page;
  - lookup by search id.

The queue view is shared by both bots (`QueueText`), and so is the skip
clamp (`Skipping`). Both keep Python's rules explicit:
- a negative list index counts from the end (`PyList.PyIndex`);
- a slice with a negative start is clipped (`PyList.PySliceLen`);
- `str > str` is lexicographic order on code points (`PyStr.StrLess`).

`YoutubeSearchResult` (`data_classes.py:5-11`) is the datatype
`Tracks.SearchResult`.

Inputs from the outside world are parameters:
- whether connecting to (or moving within) the voice channel succeeds;
- the search results and stream lists that pytube and yt_dlp return;
- the current time and the 7-day cutoff of the purge.

The completion callback of a track is the explicit call
`YouTubePlayer.OnFinished`. The 30-second expiry timer is the explicit call
`YouTubePlayer.Expire`.

The model follows the code where it differs from the bot's intended
behaviour:
- **Pause flags.** In `main.py`, advancing while paused keeps `is_paused`, so
  the bot can be both playing and paused. `pause` and `resume` make the two
  flags exclusive again.
- **Connect failure.** In `main.py` a failed connect is not caught, so
  `is_playing` stays true. `discord_bot.py` catches it and clears the flag.
- **Expiry key.** A search is stored under the author's user name but its
  expiry is scheduled under the display name. When the two differ the entry
  never expires.
- **Disconnect.** The `disconnect` command does not reset the queue. Only
  auto-leave does.
- **`skip` argument in `discord_bot.py`.** The argument is declared
  `*args: tuple`, so the command framework converts the word with
  `tuple(word)` and `str(args[0])` is text such as "('4',)". That is never
  numeric, so the amount is always 0 and every `!skip N` skips exactly one
  track (`Player.SkipAsWrittenSkipsOne`). This and the clamp below are listed
  under Findings. The class reads the number and clamps as evidently
  intended; with the number read that way, `!skip 0` asks for an amount of
  -1 and moves the cursor back by one slot.
- **Emoji and marker spelling.** `discord_bot.py` spells the keycap emoji
  (lines 120 and 264-273) and the queue marker (line 157) as the UTF-8 bytes
  of "1️⃣", "2️⃣", "3️⃣" and "►" read as Mac OS Roman text. The model keeps
  these spellings, so a reaction with a real keycap selects nothing
  (`Registry.RealKeycapSelectsNothing`). `main.py` has the real "► ".
- **`skip` in `main.py`.** A command argument arrives as text, and
  `skip_amount > 0` compares it with 0, which raises TypeError. Only `skip`
  without an argument works: it stops the track, and the completion callback
  moves on by one. The clamp of lines 166-167, the same as in
  `discord_bot.py`, is only reached with an amount of 0.
- **Bad cursor.** An advance whose cursor has left the queue raises
  IndexError. The model keeps this as the explicit outcome `IndexOutOfRange`;
  it is not ruled out by a precondition.

## Model

| member | source | states |
|---|---|---|
| PyList.PyIndex | discord_bot.py:158 | a readable Python index lands inside the list: on itself when non-negative, counted from the end when negative |
| PyList.PySliceLenIsLength | discord_bot.py:139 | `len(xs[k:])` is the length of Python's clipped slice, for negative starts too |
| PyList.PySliceWidth | database.py:127 | a slice `xs[i:j]` never holds more than j-i elements |
| PyStr.StrLessIrreflexive | discord_bot.py:190 | no text label is greater than itself |
| PyStr.StrLessAsymmetric | discord_bot.py:190 | two labels are never each greater than the other |
| PyStr.StrLessTransitive | discord_bot.py:190 | the text order the stream scans use is transitive |
| PyStr.StrLessTotal | discord_bot.py:190 | two different labels are always ordered one way or the other |
| PyStr.TupleText | discord_bot.py:133-135 | `str(tuple(word))` starts with "(" and ends with ")", so it is never numeric |
| PyStr.TupleTextOfDigit | discord_bot.py:133-135 | a one-digit word such as "4" becomes the text "('4',)" |
| Streams.FirstMaxStrStep | discord_bot.py:186-191 | one step of the scan (replace only on a strictly greater label) keeps "first greatest so far" |
| Streams.FirstMaxStrUnique | discord_bot.py:184-192 | at most one position is the first greatest |
| Streams.FirstMaxNumUnique | discord_bot.py:184-192 | at most one position is the first greatest, for numbers |
| Streams.FirstMaxNum | discord_bot.py:184-192 | the front-to-back scan yields a greatest key, with every earlier key strictly smaller |
| Streams.FirstMaxStr | discord_bot.py:184-192 | the front-to-back scan under text order yields a greatest label, with every earlier label strictly smaller |
| Streams.BestAudioStream | discord_bot.py:184-192 | as written: no stream exactly when the list is empty; otherwise the first stream whose `abr` label is greatest as text |
| Streams.BestVideoStream | discord_bot.py:194-202 | as written: no stream exactly when the list is empty; otherwise the first stream whose `resolution` label is greatest as text |
| Streams.BestAudioStreamByBitrate | discord_bot.py:184-192 | corrected: the first stream of highest numeric bitrate |
| Streams.BestVideoStreamByResolution | discord_bot.py:194-202 | corrected: the first stream of highest numeric resolution |
| Streams.PreferredStream | discord_bot.py:204-213 | corrected: none exactly when the video has no streams; an audio-only stream whenever any exists, and one of highest numeric bitrate; otherwise a progressive stream of highest numeric resolution |
| Streams.PreferredStreamAsWritten | discord_bot.py:204-213 | as written: none exactly when the video has no streams; when audio-only streams exist, the first whose `abr` label is greatest as text; otherwise the first progressive stream whose `resolution` label is greatest as text |
| Streams.PreferredStreamsDisagree | discord_bot.py:204-208 | for audio streams "160kbps" and "70kbps" the code as written plays the 70 kbps stream, the corrected preference the 160 kbps one |
| Streams.TextOrderAgainstNumbers | discord_bot.py:190 | two labels in text order whose numbers run the other way: the text scan keeps the second, the numeric scan the first |
| Streams.AbrLabelsCompareAsText | discord_bot.py:190 | over "160kbps" and "70kbps" the scan as written keeps the 70 kbps stream |
| Streams.ResolutionLabelsCompareAsText | discord_bot.py:200 | over "1080p" and "720p" the scan as written keeps the 720p stream |
| Registry.Unrestricted | discord_bot.py:104 | keeps exactly the results that are not age-restricted, and no more of them; a one-result list is kept exactly when that result is allowed |
| Registry.UnrestrictedAppend | discord_bot.py:104 | the filter of a concatenation is the concatenation of the filtered parts, so the kept results stay in their order |
| Registry.UnrestrictedKeepsAllowed | discord_bot.py:104 | a list without restricted results passes the filter unchanged |
| Registry.Top3 | discord_bot.py:104 | at most three candidates: exactly the unrestricted ones among the first three results |
| Registry.Top3InOrder | discord_bot.py:104 | with three or more results, the candidates are results 1, 2 and 3 in that order, each kept exactly when it is not age-restricted |
| Registry.Top3NoneRestricted | discord_bot.py:104 | with no restricted result among the first three, candidate k is result k |
| Registry.Registered | discord_bot.py:106-109 | adds the search id under the requester with the new candidates; keeps the requester's other ids and every other requester |
| Registry.Expired | discord_bot.py:91-96 | removes only that (requester, id) entry, and only when the requester map and the candidate list are non-empty; otherwise nothing changes |
| Registry.EmojiChoice | discord_bot.py:264-273 | the three emoji as discord_bot.py spells them (the UTF-8 bytes of keycaps 1-3 read as Mac OS Roman text) pick positions 0, 1, 2; every other emoji picks none |
| Registry.SelectCandidate | discord_bot.py:262-273 | a candidate is selected exactly when the user and id are registered, the emoji is one of the three accepted spellings and that candidate exists, and it is the one at the emoji's position |
| Registry.SelectAfterRegister | discord_bot.py:262-273 | right after registering, the (k+1)-th accepted emoji selects the (k+1)-th candidate |
| Registry.RealKeycapSelectsNothing | discord_bot.py:264-265 | a reaction with a real keycap emoji 1-3 selects nothing, whatever is registered |
| Registry.SelectAfterExpire | discord_bot.py:91-96 | once its entry has expired, no reaction selects from a search |
| Registry.ExpiryUnderOtherNameKeepsEntry | discord_bot.py:119 | a search stored under the user name and expired under a different display name stays selectable |
| QueueText.ShownCount | discord_bot.py:150-154 | the view visits at most five slots |
| QueueText.QueueLinesShape | discord_bot.py:150-158 | at most five entries, the titles of the slots from the cursor on in order, the marker on the first entry exactly when playing |
| QueueText.QueueShowsFive | discord_bot.py:153-154 | with five or more slots from the cursor, exactly five entries are listed, playing or not |
| QueueText.QueueEmptyExactly | discord_bot.py:150-162 | "Queue empty" is sent exactly when the cursor is at or past the last slot and nothing plays, or the cursor is past the end |
| QueueText.RenderListed | discord_bot.py:159-162 | a non-empty listing starts with the header and is never "Queue empty" |
| QueueText.QueueIndexError | discord_bot.py:158 | the view raises IndexError exactly when it would list something and the cursor is below -len |
| QueueText.BuildQueueText | discord_bot.py:149-162 | the listing loop sends exactly the message of the view's specification for the given marker, or fails exactly when it does |
| Skipping.ClampSkip | discord_bot.py:139-140 | as written: the clamp never raises the amount, and leaves zero or negative amounts alone |
| Skipping.ClampSkipOvershoot | discord_bot.py:139-140 | as written, from the second slot on, the cursor can land up to two places past the last slot, and does for a large amount |
| Skipping.ClampSkipCounterexample | discord_bot.py:139-140 | 3 slots, cursor 1: amount 3 (`!skip 4` with the number read as intended) passes the clamp and puts the cursor on 4; 4 slots, cursor 0: amount 2 is cut to 0 |
| Skipping.ClampsAgreeInsideQueue | discord_bot.py:139-140 | from the second slot on, a skip that stays in the queue is not clamped, as written or as intended |
| Skipping.ClampSkipIntended | discord_bot.py:139-140 | corrected: from a cursor in range the moved cursor stays on a slot, and so does the callback's advance after it; an amount that fits is kept |
| History.Escape | database.py:62-64 | text without a quote is left as it is |
| History.EscapeRoundTrip | database.py:62-72 | an escaped field is stored exactly as given |
| History.RawLiteralRoundTrip | database.py:66-70 | an unescaped field without a quote is stored as given |
| History.UnescapedQuotes | database.py:61 | two examples of an unescaped quote: "a''b" reads back as "a'b", and "a'b" cannot be read as one literal |
| History.Purged | database.py:73 | keeps exactly the rows newer than the cutoff |
| History.PurgedAppend | database.py:84 | the purge distributes over concatenation |
| History.InsertedRowFields | database.py:65-72 | with a quote-free id and URL the inserted row is the item's fields and the current time |
| History.InsertLeavesNoStaleRow | database.py:73-84 | after any insert no row at or before the cutoff remains |
| History.InsertKnownUrl | database.py:79-84 | a known watch URL adds no row: every row left is an old row with another URL, or an old row with that URL stamped with the current time; every other fresh row is kept, and so is every row with that URL, restamped, unless the current time is itself past the cutoff |
| History.InsertNewUrl | database.py:82-84 | a new watch URL appends exactly one row at the end, after the purged old rows (unless it is itself past the cutoff) |
| History.InsertQuotedUrlFails | database.py:61 | for the watch URL "a'b" the existence query cannot be read, the insert fails and nothing is stored |
| History.HistoryStore.constructor | database.py:35-46 | creates the table only if it is missing: the rows already stored are kept |
| History.HistoryStore.Insert | database.py:60-85 | on success the table becomes the upsert-then-purge result; on a failed statement it is unchanged |
| History.InsertByTime | database.py:124 | inserting one row keeps the rows newest first and is a permutation of the rows plus that row |
| History.NewestFirst | database.py:124 | the listing is a permutation of the table, newest first |
| History.PageCountIsCeiling | database.py:127 | the page count is ceil(n/10) |
| History.PageHoldsAtMostTen | database.py:127 | a page holds at most ten rows, for any page number |
| History.PageIsWindow | database.py:127 | page p is the window [(p-1)*10, p*10) of the listing, clipped to its end |
| History.PagesUpToPrefix | database.py:127 | pages 1..k laid end to end are the first 10k rows of the listing |
| History.PagesCoverHistory | database.py:127 | pages 1 to the page count hold every row exactly once, in newest-first order |
| History.FirstWithId | database.py:130-134 | none exactly when no row has the id (where `next` raises StopIteration); otherwise the first such row, mapped column by column, with no stream URL |
| History.InsertThenLookup | database.py:130-144 | recording a new track and looking its id up gives the track back without its stream URL |
| Legacy.FirstQualifying | main.py:48-50 | none exactly when no format qualifies for the tier; otherwise the first qualifying one in list order |
| Legacy.FirstTierUrlPicks | main.py:47-62 | none exactly when no tier has a qualifying format; otherwise the URL of the first qualifying format of the first tier that has one |
| Legacy.GetFormatPrefersLowerTier | main.py:47-62 | a 720p, a silent 144p and a 360p format give the 360p URL |
| Legacy.FromLineBreak | main.py:203 | the text from the first line break on, with no line break before it |
| Legacy.FirstPp | main.py:203 | the position of the first "&pp=", or the length when there is none |
| Legacy.SingleLineCut | main.py:203 | on one line the substitution keeps exactly the text before the first "&pp=" |
| Legacy.RemovePlaylistInfoSingleLine | main.py:202-204 | on one line the result is the prefix before the first "&pp=" (all of it when absent), holds no "&pp=" and is a fixed point |
| Legacy.LegacyAdvance | main.py:117-135 | idle on the last item; elsewhere the cursor moves by one with the playing flag set, a failed connect keeps it set, and the played item is the next one |
| Legacy.AdvanceWhilePaused | main.py:123-125 | advancing while paused leaves both flags set; the next pause or resume clears one |
| Legacy.PauseToggles | main.py:137-147 | pause touches only the two flags, never leaves both set, swaps them when one is set, and undoes itself |
| Legacy.ResumeOnlyWhenPaused | main.py:149-155 | resume acts only when paused, swapping the flags, and is idempotent |
| Legacy.SelectionValidated | main.py:103-115 | rejected, with nothing changed, exactly when there are no results or the number is outside 1..count; otherwise exactly that item is appended, and playback starts exactly when idle |
| Legacy.LegacySkip | main.py:157-171 | the state never changes: an argument raises TypeError at the comparison with 0 (main.py:164), and without one the track is stopped exactly when there is a voice client |
| Legacy.NameSearchReplaces | main.py:81 | a name search replaces the user's list entirely, keeps other users' lists, and selecting k then queues the k-th new entry |
| Legacy.UrlQueuesFirstEntry | main.py:84-101 | a URL search queues exactly its first entry and leaves the search results alone |
| Legacy.GlobalSession.constructor | main.py:23-29 | the module-level initial values |
| Legacy.GlobalSession.Advance | main.py:117-135 | performs the advance step |
| Legacy.GlobalSession.PlayUserSelectedItem | main.py:103-115 | performs the selection step |
| Legacy.GlobalSession.Pause | main.py:137-147 | performs the pause step |
| Legacy.GlobalSession.Resume | main.py:149-155 | performs the resume step |
| Legacy.GlobalSession.Skip | main.py:157-171 | performs the skip step, with the clamp as written |
| Legacy.GlobalSession.QueueView | main.py:175-190 | sends the queue view's message, with the marker "► " |
| Legacy.GlobalSession.RegisterNameSearch | main.py:73-83 | performs the name-search step |
| Legacy.GlobalSession.EnqueueFromUrl | main.py:84-101 | performs the URL step |
| Player.AdvanceAtEnd | discord_bot.py:327-329 | on the last slot advancing only clears the playing flag, and again changes nothing |
| Player.AdvanceMovesByOne | discord_bot.py:331-346 | elsewhere the cursor moves by exactly one; the flag is cleared exactly on a failed connect; the queue and searches are kept; the history changes only when a track starts, and then by the insert |
| Player.AdvancePlaysNextSlot | discord_bot.py:339-343 | from inside the queue, a connection starts the next slot's track |
| Player.AfterInsertSucceeds | database.py:61-72 | an insert with a quote-free id and URL always commits |
| Player.EnqueueAppendsOneSlot | discord_bot.py:204-226 | no change exactly when the video has no stream; otherwise exactly one slot is appended and earlier slots are untouched, and it advances exactly when nothing was playing |
| Player.EnqueueWhenIdleStartsPlaying | discord_bot.py:222-226 | enqueueing onto an idle queue at its end starts the new track at once |
| Player.FirstEnqueuePlaysSlotZero | discord_bot.py:222-226 | a first track on a fresh session plays from slot 0 |
| Player.SkipWithoutArgumentIsSkipOne | discord_bot.py:135-138 | no argument, a non-numeric one and "1" give the same skip |
| Player.SkipRequestAsWritten | discord_bot.py:133-138 | as written: the amount is 0 for every argument, because the converted argument's text is never numeric |
| Player.SkipAsWrittenSkipsOne | discord_bot.py:133-144 | as written: `skip` never moves the cursor, so the stop's advance is the advance from the unchanged session and every `!skip N` skips one track |
| Player.SkipTwoAsWrittenScenario | discord_bot.py:133-144 | as written: three slots, first playing, `!skip 2`: the cursor stays on slot 0 and the stop's advance plays slot 1 |
| Player.SkipMovesOnlyTheCursor | discord_bot.py:139-143 | corrected: without a voice client nothing changes; with one only the cursor moves, forward and not past the last slot |
| Player.SkipClampAsWrittenMovesOnlyTheCursor | discord_bot.py:139-143 | number read as intended, clamp as written: without a voice client nothing changes; with one only the cursor moves, and from the second slot on a forward skip can put it up to two past the last slot |
| Player.SkipTwoScenario | discord_bot.py:133-144 | corrected: three slots, first playing, `!skip 2`: the cursor goes to slot 1 and the stop's advance plays slot 2 |
| Player.SkipClampAsWrittenStrandsQueue | discord_bot.py:139-142 | number read as intended, clamp as written: `!skip 4` over three slots from slot 1 makes the next advance raise IndexError with the flag still set, so later enqueues never start playback |
| Player.InRangeAdvanceReadsSlot | discord_bot.py:327-340 | from a cursor in range, advancing never raises IndexError and keeps the cursor in range |
| Player.EnqueueKeepsCursorInRange | discord_bot.py:222-226 | enqueueing keeps the cursor in range |
| Player.SkipKeepsCursorInRange | discord_bot.py:139-142 | corrected: a forward skip keeps the cursor in range |
| Player.SkipZeroMovesBack | discord_bot.py:135-136 | corrected: with the number read as intended, `!skip 0` moves the cursor back one slot |
| Player.AutoLeaveResetsOnlyWhenAbandoned | discord_bot.py:70-82 | queue emptied, cursor -1 and not playing when the bot was left alone in its channel; otherwise nothing changes |
| Player.AutoLeaveThenEnqueue | discord_bot.py:80-82 | after the reset the view says "Queue empty" and the next enqueue plays from slot 0 |
| Player.NoResetWithHumanOrElsewhere | discord_bot.py:74-79 | a human left in the channel, or a channel the bot is not in, never resets |
| Player.ReactionEnqueuesChoice | discord_bot.py:255-276 | a reaction changes the session exactly when a human in the bot channel picks an existing candidate, and then enqueues it |
| Player.ReactAfterSearch | discord_bot.py:262-276 | right after a search, the second accepted emoji enqueues the second candidate |
| Player.YouTubePlayer.constructor | discord_bot.py:49-57 | empty queue, cursor -1, not playing, no voice client, no searches |
| Player.YouTubePlayer.AutoLeave | discord_bot.py:65-86 | performs the auto-leave step |
| Player.YouTubePlayer.RegisterSearch | discord_bot.py:99-119 | registers the top three under the user name and schedules the expiry under the display name |
| Player.YouTubePlayer.Expire | discord_bot.py:89-96 | performs the expiry step |
| Player.YouTubePlayer.Skip | discord_bot.py:133-144 | performs the skip step, with the number read as intended and the corrected clamp |
| Player.YouTubePlayer.QueueView | discord_bot.py:147-162 | sends the queue view's message, with the marker as discord_bot.py:157 spells it |
| Player.YouTubePlayer.Advance | discord_bot.py:309-346 | performs the advance step, history insert included |
| Player.YouTubePlayer.OnFinished | discord_bot.py:344-346 | the completion callback performs the advance step again |
| Player.YouTubePlayer.Enqueue | discord_bot.py:181-226 | performs the enqueue step, with the corrected stream scans |
| Player.YouTubePlayer.OnReaction | discord_bot.py:254-276 | performs the reaction step for a search menu |

## Left out

- Discord I/O is not modelled: every `send`, `delete` and `add_reaction`, message purging, `get_context`, and the `restart` command. These are side effects on the chat server.
- The channel and guild filters of `on_message` and `on_reaction_add` are not modelled beyond a boolean `inBotChannel`.
- Parsing the search id out of the reaction message with a regex is left out; the id arrives as an optional input.
- The `disconnect` command is left out. It only closes the voice connection and leaves the queue as it is.
- Threads are left out, because they are concurrency: the `threaded` decorator, `time.sleep` and `asyncio.run_coroutine_threadsafe`. They become the explicit calls `Expire` and `OnFinished`.
- pytube, yt_dlp and FFmpeg are foreign libraries. Their search results and stream lists are inputs, and a stream's `abr` and `resolution` are the text labels these libraries report.
- `contains_url` (main.py:32-37) is a large URL regex. Which search path runs is chosen by the caller.
- The bulk `list=` path of `on_message` appends raw video objects rather than slots.
- The history reaction path of `on_reaction_add` is left out.
- The `history` command's message layout is left out; its data comes from `History.RecentHistory`.
- Legacy.RemovePlaylistInfoSingleLine: proved for single-line input only. On text with line breaks the substitution is defined line by line, but nothing is proved about it.
- `int()` parsing of chat messages in main.py is left out; a selection arrives as an integer.
- The playlist-table functions, `print_history_entries` and `YoutubeSearchResult.__hash__` are left out. They are unused by the core, and the hash is ill-typed.
- Timestamps are integers and the 7-day bound is the parameter `cutoff`; `datetime.now()` strings are not modelled.
- SQL statements are modelled by their effect on the rows. Only text literals are parsed.
- SQLite's order among rows with equal timestamps is taken to be table order.
- Advance does not model `connect()` returning `None`, which ends the call neither connected nor failed. A connect is either a success or an exception.
- A connect to a member who is not in any voice channel is modelled as a failed connection.
- `str.isnumeric` is modelled for the ASCII digits 0-9 only.
- Player.YouTubePlayer.Skip: reads the word's own number (Player.SkipRequest) and uses the corrected clamp (Skipping.ClampSkipIntended). As written the amount is always 0 (Player.SkipRequestAsWritten), and Player.SkipStepAsWritten applies that amount with the clamp as written.
- Player.SkipTwoScenario: reads the number as intended. As written, `!skip 2` leaves the cursor on slot 0 and slot 1 plays (Player.SkipTwoAsWrittenScenario).
- Player.SkipZeroMovesBack: reads the number as intended. As written, `!skip 0` gives amount 0, like every other argument.
- Player.SkipClampAsWrittenStrandsQueue: reads the number as intended, so the clamp as written is reached with amount 3. As written, the command never reaches the clamp with a positive amount.
- Player.SkipClampAsWrittenMovesOnlyTheCursor: the overshoot needs the number read as intended. As written, the cursor never moves (Player.SkipAsWrittenSkipsOne).
- PyStr.TupleText: escapes only the quote and the backslash. Python's escapes of unprintable characters are not modelled; they cannot make the text numeric.
- The converter of discord.py's command framework is foreign code. The model takes it to call `tuple(word)` for an argument declared `tuple`.
- Player.YouTubePlayer.Enqueue: uses the numeric stream scans. The text scans as written are Streams.BestAudioStream and Streams.BestVideoStream.
- Player.SkipKeepsCursorInRange: reads the number as intended and uses the corrected clamp; with the clamp as written a forward skip can leave the range (Player.SkipClampAsWrittenStrandsQueue). It also covers forward skips only, because `!skip 0` moves the cursor back and can leave the range (Player.SkipZeroMovesBack).
- Player.SkipMovesOnlyTheCursor: reads the number as intended, and "not past the last slot" holds for the corrected clamp only. The clamp as written is covered by Player.SkipClampAsWrittenMovesOnlyTheCursor.
- Streams.PreferredStream: compares bitrates and resolutions as numbers, the corrected half of the stream-label findings. The preference as written is Streams.PreferredStreamAsWritten.
- History.FirstWithId: its `None` stands for the StopIteration that `next` raises at database.py:134 when no row matches. So the early return at database.py:135-136 is never taken.
- History.InsertQuotedUrlFails: SQL injection is not modelled. A literal that a quote ends early is modelled as a failed statement, although text after the quote can make a valid statement (a watch URL `x' OR '1'='1` refreshes every row).
- History.UnescapedQuotes: proves two examples only, for the same reason: a quote that ends a literal early makes the statement fail in the model.

## Findings

| source | as written | input that shows it | evidently intended | confidence | as-written member | corrected member |
|---|---|---|---|---|---|---|
| discord_bot.py:190 | `stream_.abr > best_stream.abr` compares the bitrate labels as text | audio streams labelled "160kbps" and "70kbps": the 70 kbps stream is chosen | the stream of highest bitrate | high, not executed | Streams.BestAudioStream, Streams.AbrLabelsCompareAsText | Streams.BestAudioStreamByBitrate |
| discord_bot.py:200 | `stream_.resolution > best_stream.resolution` compares the resolution labels as text | progressive streams labelled "1080p" and "720p": the 720p stream is chosen | the stream of highest resolution | high, not executed | Streams.BestVideoStream, Streams.ResolutionLabelsCompareAsText | Streams.BestVideoStreamByResolution |
| discord_bot.py:133-136 | the argument is declared `*args: tuple`, so `str(args[0])` is the text of a tuple, which is never numeric | 3 slots, cursor 0, `!skip 2`: the amount is 0, the cursor stays on slot 0 and only one song is skipped | read the typed number, so `!skip N` skips N songs | medium (rests on the framework calling the annotation on the word), not executed | Player.SkipRequestAsWritten, Player.SkipAsWrittenSkipsOne, Player.SkipTwoAsWrittenScenario | Player.SkipRequest, Player.SkipTwoScenario |
| discord_bot.py:139-140 | the skip amount is clamped by `len(playlist[cursor - 1:])`, which counts from one slot before the playing one; reached with a positive amount only once the number is read as intended | with the number read as intended: 3 slots, cursor 1, `!skip 4`: amount 3, the cursor reaches 4, the next advance raises IndexError with the playing flag set; 4 slots, cursor 0, `!skip 3` skips only one song | clamp by the slots after the playing one, so the cursor stops at the last slot | high, not executed | Skipping.ClampSkip, Skipping.ClampSkipCounterexample, Player.SkipClampAsWrittenStrandsQueue | Skipping.ClampSkipIntended |
