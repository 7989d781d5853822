/**
 * The playback session of discord_bot.py (`YouTubePlayer`): a queue of
 * one-entry slots, a cursor that starts at -1, a playing flag, whether a
 * voice client has been made, the outstanding searches and the history
 * table. Each command and callback is a step function on `Session`, and the
 * class methods are proved to perform exactly those steps.
 *
 * Whether connecting (or moving) to the voice channel succeeds is an input;
 * so are the clock (`now`) and the seven-day bound of the history purge
 * (`cutoff`). The stop-then-callback path of `skip` and the end of a track
 * are the explicit `OnFinished` call; the 30 second timer is `Expire`.
 */
module Player {
  import opened Wrappers
  import opened PyList
  import opened PyStr
  import opened Tracks
  import opened Streams
  import opened Registry
  import opened QueueText
  import opened Skipping
  import opened History

  datatype Session = Session(
    playlist: seq<Slot>,
    cursor: int,
    isPlaying: bool,
    hasVoiceClient: bool,
    searches: Searches,
    history: seq<Row>)

  /** How a call of `play_youtube_audio` ends. */
  datatype AdvanceOutcome =
    | WentIdle                      // the cursor was on the last slot
    | ConnectFailed                 // the voice connection failed; caught and logged
    | IndexOutOfRange               // the cursor left the queue: IndexError escapes
    | HistoryWriteFailed            // the history statement failed: the error escapes
    | NowPlaying(track: SearchResult)

  /** How `play_selected_track` ends: no stream to play, or queued (and the advance it triggered, if any). */
  datatype EnqueueOutcome = NoPlayableStream | Queued(advanced: Option<AdvanceOutcome>)

  /** The channel a member has just left, with the members still in it. */
  datatype VoiceChannel = VoiceChannel(id: int, members: seq<Member>)

  /** The expiry timer scheduled by a search: the key it will delete under and the search id. */
  datatype Expiry = Expiry(key: string, searchId: string)

  /** A fresh session over an existing history table. */
  function Initial(history: seq<Row>): Session
  {
    Session([], -1, false, false, map[], history)
  }

  // ---------------------------------------------------------------- advance

  /** `play_youtube_audio`: move to the next slot, connect, record the track in the history, start it. */
  function AdvanceStep(s: Session, connectOk: bool, now: int, cutoff: int): (Session, AdvanceOutcome)
  {
    if s.cursor == |s.playlist| - 1 then (s.(isPlaying := false), WentIdle)
    else
      var moved := s.(isPlaying := true, cursor := s.cursor + 1);
      if !connectOk then (moved.(isPlaying := false), ConnectFailed)
      else
        var linked := moved.(hasVoiceClient := true);
        if !PyIndexOk(|s.playlist|, linked.cursor) then (linked, IndexOutOfRange)
        else
          var track := s.playlist[PyIndex(|s.playlist|, linked.cursor)].track;
          match AfterInsert(s.history, track, now, cutoff)
          case None => (linked, HistoryWriteFailed)
          case Some(rows) => (linked.(history := rows), NowPlaying(track))
  }

  /** On the last slot, advancing only clears the playing flag, and doing it again changes nothing. */
  lemma AdvanceAtEnd(s: Session, connectOk: bool, now: int, cutoff: int, connectOk': bool, now': int, cutoff': int)
    requires s.cursor == |s.playlist| - 1
    ensures AdvanceStep(s, connectOk, now, cutoff) == (s.(isPlaying := false), WentIdle)
    ensures var t := AdvanceStep(s, connectOk, now, cutoff).0;
      AdvanceStep(t, connectOk', now', cutoff') == (t, WentIdle)
  {
  }

  /**
   * Elsewhere, advancing moves the cursor by exactly one before connecting;
   * a failed connection clears the playing flag and keeps the moved cursor;
   * otherwise the flag stays set, also when the slot read or the history
   * write raises. The queue and the searches never change, and the history
   * changes only when a track starts.
   */
  lemma AdvanceMovesByOne(s: Session, connectOk: bool, now: int, cutoff: int)
    requires s.cursor != |s.playlist| - 1
    ensures var (t, o) := AdvanceStep(s, connectOk, now, cutoff);
      t.cursor == s.cursor + 1 && t.playlist == s.playlist && t.searches == s.searches
      && (o == ConnectFailed <==> !connectOk)
      && (t.isPlaying <==> connectOk)
      && t.hasVoiceClient == (s.hasVoiceClient || connectOk)
      && (o == IndexOutOfRange <==> connectOk && !PyIndexOk(|s.playlist|, s.cursor + 1))
      && (o.NowPlaying? ==>
            PyIndexOk(|s.playlist|, s.cursor + 1)
            && o.track == s.playlist[PyIndex(|s.playlist|, s.cursor + 1)].track
            && AfterInsert(s.history, o.track, now, cutoff) == Some(t.history))
      && (!o.NowPlaying? ==> t.history == s.history)
  {
  }

  /**
   * From a cursor inside the queue and short of its end, a successful
   * connection starts the next slot's track and records it in the history,
   * provided its search id and watch URL hold no quote.
   */
  lemma AdvancePlaysNextSlot(s: Session, now: int, cutoff: int)
    requires -1 <= s.cursor < |s.playlist| - 1
    requires !HasQuote(s.playlist[s.cursor + 1].track.uuid) && !HasQuote(s.playlist[s.cursor + 1].track.watchUrl)
    ensures AdvanceStep(s, true, now, cutoff).1 == NowPlaying(s.playlist[s.cursor + 1].track)
  {
    AfterInsertSucceeds(s.history, s.playlist[s.cursor + 1].track, now, cutoff);
  }

  /** An insert whose unescaped fields hold no quote always commits. */
  lemma AfterInsertSucceeds(rows: seq<Row>, item: SearchResult, now: int, cutoff: int)
    requires !HasQuote(item.uuid) && !HasQuote(item.watchUrl)
    ensures AfterInsert(rows, item, now, cutoff).Some?
  {
    RawLiteralRoundTrip(item.watchUrl);
    InsertedRowFields(item, now);
  }

  // ---------------------------------------------------------------- enqueue

  /** The record queued for a selected video and its chosen stream. */
  function QueuedTrack(video: Video, stream: Stream, searchId: string, user: Member): SearchResult
  {
    SearchResult(uuid := searchId, addedBy := user.displayName, uploaderName := video.author,
                 title := video.title, url := Some(stream.url), watchUrl := video.watchUrl)
  }

  /**
   * `play_selected_track`: pick the stream, append one slot, and advance if
   * nothing is playing. With no stream at all, reading its URL raises and
   * nothing changes.
   */
  function EnqueueStep(s: Session, video: Video, searchId: string, user: Member,
                       connectOk: bool, now: int, cutoff: int): (Session, EnqueueOutcome)
  {
    match PreferredStream(video)
    case None => (s, NoPlayableStream)
    case Some(stream) =>
      var queued := s.(playlist := s.playlist + [Slot(searchId, QueuedTrack(video, stream, searchId, user))]);
      if queued.isPlaying then (queued, Queued(None))
      else
        var step := AdvanceStep(queued, connectOk, now, cutoff);
        (step.0, Queued(Some(step.1)))
  }

  /**
   * Enqueueing appends exactly one slot, the selected video under its search
   * id, and leaves the earlier slots as they were; it advances exactly when
   * nothing was playing. A video without streams changes nothing.
   */
  lemma EnqueueAppendsOneSlot(s: Session, video: Video, searchId: string, user: Member,
                              connectOk: bool, now: int, cutoff: int)
    ensures var (t, o) := EnqueueStep(s, video, searchId, user, connectOk, now, cutoff);
      (o == NoPlayableStream <==> video.audioStreams == [] && video.progressiveStreams == [])
      && (o == NoPlayableStream ==> t == s)
      && (o.Queued? ==>
            |t.playlist| == |s.playlist| + 1
            && t.playlist[..|s.playlist|] == s.playlist
            && t.playlist[|s.playlist|] == Slot(searchId, QueuedTrack(video, PreferredStream(video).value, searchId, user))
            && (o.advanced.None? <==> s.isPlaying)
            && (s.isPlaying ==> t == s.(playlist := t.playlist)))
  {
    match PreferredStream(video)
    case None =>
    case Some(stream) =>
      var queued := s.playlist + [Slot(searchId, QueuedTrack(video, stream, searchId, user))];
      assert queued[..|s.playlist|] == s.playlist;
  }

  /**
   * Enqueueing onto an idle queue whose cursor sits on its last slot starts
   * the new track at once, given a connection and a quote-free id and URL.
   */
  lemma EnqueueWhenIdleStartsPlaying(s: Session, video: Video, searchId: string, user: Member,
                                     now: int, cutoff: int)
    requires !s.isPlaying && s.cursor == |s.playlist| - 1
    requires video.audioStreams != [] || video.progressiveStreams != []
    requires !HasQuote(searchId) && !HasQuote(video.watchUrl)
    ensures var (t, o) := EnqueueStep(s, video, searchId, user, true, now, cutoff);
      var track := QueuedTrack(video, PreferredStream(video).value, searchId, user);
      o == Queued(Some(NowPlaying(track)))
      && t.isPlaying && t.cursor == |s.playlist| && t.playlist == s.playlist + [Slot(searchId, track)]
  {
    var track := QueuedTrack(video, PreferredStream(video).value, searchId, user);
    var queued := s.(playlist := s.playlist + [Slot(searchId, track)]);
    AdvancePlaysNextSlot(queued, now, cutoff);
  }

  /** Scenario: enqueueing a first track on a fresh session plays it from slot 0. */
  lemma FirstEnqueuePlaysSlotZero(history: seq<Row>, video: Video, searchId: string, user: Member,
                                  now: int, cutoff: int)
    requires video.audioStreams != [] || video.progressiveStreams != []
    requires !HasQuote(searchId) && !HasQuote(video.watchUrl)
    ensures var (t, o) := EnqueueStep(Initial(history), video, searchId, user, true, now, cutoff);
      o.Queued? && o.advanced.Some? && o.advanced.value.NowPlaying?
      && t.isPlaying && t.cursor == 0 && t.hasVoiceClient && |t.playlist| == 1
  {
    EnqueueWhenIdleStartsPlaying(Initial(history), video, searchId, user, now, cutoff);
  }

  // ---------------------------------------------------------------- skip

  /**
   * The amount a `skip` argument asks for as written. The argument is
   * declared `*args: tuple`, so the command framework converts the word
   * with `tuple(word)`, and `str(args[0])` is the text of that tuple (such
   * as "('4',)"). That text is never numeric, so the amount is always 0.
   */
  function SkipRequestAsWritten(arg: Option<string>): (amount: int)
    ensures amount == 0
  {
    match arg
    case None => 0
    case Some(word) =>
      var text := TupleText(word);
      if IsNumeric(text) then LeadingNumber(text) - 1 else 0
  }

  /**
   * The amount as evidently intended: the word's own number k asks for k-1,
   * anything else (or nothing) for 0.
   */
  function SkipRequest(arg: Option<string>): int
  {
    match arg
    case None => 0
    case Some(a) => if IsNumeric(a) then DecimalValue(a) - 1 else 0
  }

  /**
   * `skip` with the number read as intended and the clamp as intended: move
   * the cursor by the clamped amount, but only with a voice client; the
   * stop is `OnFinished`.
   */
  function SkipStep(s: Session, arg: Option<string>): Session
  {
    var amount := ClampSkipIntended(SkipRequest(arg), |s.playlist|, s.cursor);
    if s.hasVoiceClient then s.(cursor := s.cursor + amount) else s
  }

  /** `skip` as written: the converted argument and the clamp as written. */
  function SkipStepAsWritten(s: Session, arg: Option<string>): Session
  {
    var amount := ClampSkip(SkipRequestAsWritten(arg), |s.playlist|, s.cursor);
    if s.hasVoiceClient then s.(cursor := s.cursor + amount) else s
  }

  /** `skip` with the number read as intended but the clamp as written. */
  function SkipStepClampAsWritten(s: Session, arg: Option<string>): Session
  {
    var amount := ClampSkip(SkipRequest(arg), |s.playlist|, s.cursor);
    if s.hasVoiceClient then s.(cursor := s.cursor + amount) else s
  }

  /**
   * As written, `skip` never moves the cursor, whatever the argument: the
   * stop's advance then plays the very next slot, so every `!skip N` skips
   * exactly one track.
   */
  lemma SkipAsWrittenSkipsOne(s: Session, arg: Option<string>, connectOk: bool, now: int, cutoff: int)
    ensures SkipStepAsWritten(s, arg) == s
    ensures AdvanceStep(SkipStepAsWritten(s, arg), connectOk, now, cutoff) == AdvanceStep(s, connectOk, now, cutoff)
  {
  }

  /**
   * Scenario as written: three slots, the first playing, `!skip 2`: the
   * cursor stays on slot 0, and the stop's advance starts the second slot.
   */
  lemma SkipTwoAsWrittenScenario(a: Slot, b: Slot, c: Slot, searches: Searches, history: seq<Row>, now: int, cutoff: int)
    requires !HasQuote(b.track.uuid) && !HasQuote(b.track.watchUrl)
    ensures var s := Session([a, b, c], 0, true, true, searches, history);
      var skipped := SkipStepAsWritten(s, Some("2"));
      skipped.cursor == 0
      && AdvanceStep(skipped, true, now, cutoff).0.cursor == 1
      && AdvanceStep(skipped, true, now, cutoff).1 == NowPlaying(b.track)
  {
    var s := Session([a, b, c], 0, true, true, searches, history);
    AdvancePlaysNextSlot(SkipStepAsWritten(s, Some("2")), now, cutoff);
  }

  /** `skip` with no argument, with a non-numeric one and with "1" all do the same. */
  lemma SkipWithoutArgumentIsSkipOne(s: Session, text: string)
    requires !IsNumeric(text)
    ensures SkipStep(s, None) == SkipStep(s, Some("1")) == SkipStep(s, Some(text))
  {
    assert "1"[..0] == "";
    assert DecimalValue("1") == 1;
  }

  /**
   * With the number read as intended and the corrected clamp: without a
   * voice client `skip` changes nothing;
   * with one it changes the cursor only, never backwards and never past the
   * last slot on a forward skip.
   */
  lemma SkipMovesOnlyTheCursor(s: Session, arg: Option<string>)
    ensures !s.hasVoiceClient ==> SkipStep(s, arg) == s
    ensures SkipStep(s, arg) == s.(cursor := SkipStep(s, arg).cursor)
    ensures s.hasVoiceClient && -1 <= s.cursor && 0 <= SkipRequest(arg) ==>
              s.cursor <= SkipStep(s, arg).cursor <= Max(s.cursor, |s.playlist| - 1)
  {
  }

  /**
   * With the number read as intended but the clamp as written, `skip` also
   * changes the cursor only, but from the second slot on a forward skip can
   * put it up to two past the last slot.
   */
  lemma SkipClampAsWrittenMovesOnlyTheCursor(s: Session, arg: Option<string>)
    ensures !s.hasVoiceClient ==> SkipStepClampAsWritten(s, arg) == s
    ensures SkipStepClampAsWritten(s, arg) == s.(cursor := SkipStepClampAsWritten(s, arg).cursor)
    ensures s.hasVoiceClient && 1 <= s.cursor <= |s.playlist| - 1 && 0 <= SkipRequest(arg) ==>
              s.cursor <= SkipStepClampAsWritten(s, arg).cursor <= |s.playlist| + 1
  {
    if s.hasVoiceClient && 1 <= s.cursor <= |s.playlist| - 1 {
      ClampSkipOvershoot(SkipRequest(arg), |s.playlist|, s.cursor);
    }
  }

  /**
   * Scenario with the number read as intended: three slots, the first
   * playing, `!skip 2`: the cursor moves to the second slot and the stop's
   * advance starts the third.
   */
  lemma SkipTwoScenario(a: Slot, b: Slot, c: Slot, searches: Searches, history: seq<Row>, now: int, cutoff: int)
    requires !HasQuote(c.track.uuid) && !HasQuote(c.track.watchUrl)
    ensures var s := Session([a, b, c], 0, true, true, searches, history);
      var skipped := SkipStep(s, Some("2"));
      skipped.cursor == 1
      && AdvanceStep(skipped, true, now, cutoff).0.cursor == 2
      && AdvanceStep(skipped, true, now, cutoff).1 == NowPlaying(c.track)
  {
    assert "2"[..0] == "";
    assert DecimalValue("2") == 2;
    var s := Session([a, b, c], 0, true, true, searches, history);
    AdvancePlaysNextSlot(SkipStep(s, Some("2")), now, cutoff);
  }

  /**
   * With the number read as intended but the clamp as written: three slots,
   * the second playing, `!skip 4` puts the cursor on 4; the stop's advance
   * then raises IndexError and leaves the playing flag set, so later
   * enqueues no longer start playback.
   */
  lemma SkipClampAsWrittenStrandsQueue(a: Slot, b: Slot, c: Slot, video: Video, searchId: string, user: Member,
                                  searches: Searches, history: seq<Row>, now: int, cutoff: int)
    requires video.audioStreams != []
    ensures var s := Session([a, b, c], 1, true, true, searches, history);
      var skipped := SkipStepClampAsWritten(s, Some("4"));
      var stuck := AdvanceStep(skipped, true, now, cutoff);
      skipped.cursor == 4
      && stuck.1 == IndexOutOfRange && stuck.0.isPlaying
      && EnqueueStep(stuck.0, video, searchId, user, true, now, cutoff).1 == Queued(None)
  {
    assert "4"[..0] == "";
    assert DecimalValue("4") == 4;
  }

  // ---------------------------------------------------------------- the cursor stays in the queue

  /** The cursor is -1 or on a slot. */
  predicate CursorInRange(s: Session)
  {
    -1 <= s.cursor <= |s.playlist| - 1
  }

  /** From a cursor in range, advancing never raises IndexError. */
  lemma InRangeAdvanceReadsSlot(s: Session, connectOk: bool, now: int, cutoff: int)
    requires CursorInRange(s)
    ensures AdvanceStep(s, connectOk, now, cutoff).1 != IndexOutOfRange
    ensures CursorInRange(AdvanceStep(s, connectOk, now, cutoff).0)
  {
  }

  /** Enqueueing keeps the cursor in range. */
  lemma EnqueueKeepsCursorInRange(s: Session, video: Video, searchId: string, user: Member,
                                  connectOk: bool, now: int, cutoff: int)
    requires CursorInRange(s)
    ensures CursorInRange(EnqueueStep(s, video, searchId, user, connectOk, now, cutoff).0)
  {
  }

  /**
   * With the number read as intended and the corrected clamp, skipping forward (any argument but a number 0)
   * keeps the cursor in range, so the advance that follows the stop finds a slot or goes idle.
   */
  lemma SkipKeepsCursorInRange(s: Session, arg: Option<string>)
    requires CursorInRange(s) && SkipRequest(arg) >= 0
    ensures CursorInRange(SkipStep(s, arg))
  {
  }

  /** With the number read as intended, `!skip 0` asks for -1 and moves the cursor back by one: it can leave the range. */
  lemma SkipZeroMovesBack(s: Session)
    requires s.hasVoiceClient
    ensures SkipStep(s, Some("0")).cursor == s.cursor - 1
  {
    assert "0"[..0] == "";
    assert DecimalValue("0") == 0;
  }

  // ---------------------------------------------------------------- auto-leave

  /** Every member left in the channel is a bot. */
  predicate OnlyBots(members: seq<Member>)
  {
    forall i :: 0 <= i < |members| ==> members[i].isBot
  }

  /** The channel just left is one the bot is in, has at most two members, and no human. */
  predicate Abandoned(before: Option<VoiceChannel>, botChannels: set<int>)
  {
    before.Some? && |before.value.members| - 1 <= 1 && before.value.id in botChannels
    && OnlyBots(before.value.members)
  }

  /** `on_voice_state_update`: reset the queue when the bot was left alone. */
  function AutoLeaveStep(s: Session, before: Option<VoiceChannel>, botChannels: set<int>): Session
  {
    if Abandoned(before, botChannels) then s.(playlist := [], isPlaying := false, cursor := -1) else s
  }

  /**
   * Auto-leave empties the queue, rewinds the cursor and clears the playing
   * flag when the bot was left alone, and otherwise changes nothing; the
   * searches, the history and the voice client are kept either way.
   */
  lemma AutoLeaveResetsOnlyWhenAbandoned(s: Session, before: Option<VoiceChannel>, botChannels: set<int>)
    ensures var t := AutoLeaveStep(s, before, botChannels);
      t.searches == s.searches && t.history == s.history && t.hasVoiceClient == s.hasVoiceClient
      && (Abandoned(before, botChannels) ==> t.playlist == [] && t.cursor == -1 && !t.isPlaying)
      && (!Abandoned(before, botChannels) ==> t == s)
  {
  }

  /**
   * After a reset the queue view is "Queue empty", and the next enqueue, once
   * connected, plays its track from slot 0.
   */
  lemma AutoLeaveThenEnqueue(s: Session, before: Option<VoiceChannel>, botChannels: set<int>,
                             video: Video, searchId: string, user: Member, now: int, cutoff: int)
    requires Abandoned(before, botChannels)
    requires video.audioStreams != [] || video.progressiveStreams != []
    requires !HasQuote(searchId) && !HasQuote(video.watchUrl)
    ensures var t := AutoLeaveStep(s, before, botChannels);
      QueueMessage(Titles(t.playlist), t.cursor, t.isPlaying, BotMarker) == Some(EmptyText)
      && EnqueueStep(t, video, searchId, user, true, now, cutoff).0.cursor == 0
      && EnqueueStep(t, video, searchId, user, true, now, cutoff).0.isPlaying
  {
    var t := AutoLeaveStep(s, before, botChannels);
    QueueEmptyExactly(Titles(t.playlist), t.cursor, t.isPlaying, BotMarker);
    EnqueueWhenIdleStartsPlaying(t, video, searchId, user, now, cutoff);
  }

  /** A human still in the channel, or a channel the bot is not in, never triggers the reset. */
  lemma NoResetWithHumanOrElsewhere(s: Session, ch: VoiceChannel, botChannels: set<int>, k: nat)
    requires (k < |ch.members| && !ch.members[k].isBot) || ch.id !in botChannels
    ensures AutoLeaveStep(s, Some(ch), botChannels) == s
  {
  }

  // ---------------------------------------------------------------- reactions

  /**
   * `on_reaction_add` for a search menu: bots, other channels and messages
   * without a search id are ignored; otherwise the emoji picks a candidate
   * of the reacting user's search, which is enqueued. A missing search, an
   * emoji that is not one of the accepted spellings, or a missing candidate
   * change nothing.
   */
  function ReactionStep(s: Session, user: Member, inBotChannel: bool, searchId: Option<string>, emoji: string,
                        connectOk: bool, now: int, cutoff: int): (Session, Option<EnqueueOutcome>)
  {
    if user.isBot || !inBotChannel || searchId.None? then (s, None)
    else
      match SelectCandidate(s.searches, user.name, searchId.value, emoji)
      case None => (s, None)
      case Some(video) =>
        var step := EnqueueStep(s, video, searchId.value, user, connectOk, now, cutoff);
        (step.0, Some(step.1))
  }

  /**
   * A reaction changes the session exactly when a human in the bot channel
   * picks an existing candidate; it then enqueues that candidate.
   */
  lemma ReactionEnqueuesChoice(s: Session, user: Member, inBotChannel: bool, searchId: Option<string>, emoji: string,
                               connectOk: bool, now: int, cutoff: int)
    ensures var (t, o) := ReactionStep(s, user, inBotChannel, searchId, emoji, connectOk, now, cutoff);
      (o.Some? <==> !user.isBot && inBotChannel && searchId.Some?
                    && SelectCandidate(s.searches, user.name, searchId.value, emoji).Some?)
      && (o.None? ==> t == s)
      && (o.Some? ==>
            var video := s.searches[user.name][searchId.value][EmojiChoice(emoji).value];
            (t, o.value) == EnqueueStep(s, video, searchId.value, user, connectOk, now, cutoff))
  {
  }

  /** Scenario: right after a search, the second accepted emoji enqueues its second candidate. */
  lemma ReactAfterSearch(s: Session, user: Member, searchId: string, results: seq<Video>,
                         connectOk: bool, now: int, cutoff: int)
    requires !user.isBot && |Top3(results)| >= 2
    ensures var registered := s.(searches := Registered(s.searches, user.name, searchId, Top3(results)));
      ReactionStep(registered, user, true, Some(searchId), KeycapEmojis[1], connectOk, now, cutoff).1
      == Some(EnqueueStep(registered, Top3(results)[1], searchId, user, connectOk, now, cutoff).1)
  {
    SelectAfterRegister(s.searches, user.name, searchId, Top3(results), 1);
  }

  // ---------------------------------------------------------------- the session object

  class YouTubePlayer {
    var playlist: seq<Slot>
    var cursor: int
    var isPlaying: bool
    var hasVoiceClient: bool
    var searches: Searches
    const history: HistoryStore

    ghost function State(): Session
      reads this, history
    {
      Session(playlist, cursor, isPlaying, hasVoiceClient, searches, history.rows)
    }

    /** `__init__`: an empty queue, cursor -1, not playing, no voice client, no searches; the history table is kept. */
    constructor (store: HistoryStore)
      ensures history == store
      ensures State() == Initial(store.rows)
    {
      playlist := [];
      cursor := -1;
      isPlaying := false;
      hasVoiceClient := false;
      searches := map[];
      history := store;
    }

    /** `on_voice_state_update`. */
    method AutoLeave(before: Option<VoiceChannel>, botChannels: set<int>)
      modifies this
      ensures State() == AutoLeaveStep(old(State()), before, botChannels)
    {
      if before.None? {
        return;
      }
      var channel := before.value;
      if |channel.members| - 1 > 1 || channel.id !in botChannels {
        return;
      }
      if exists i :: 0 <= i < |channel.members| && !channel.members[i].isBot {
        return;
      }
      playlist := [];
      isPlaying := false;
      cursor := -1;
    }

    /**
     * The registry part of `search_yt`: store the first three unrestricted
     * results under the requester's user name, and schedule the expiry under
     * the display name.
     */
    method RegisterSearch(requester: Member, results: seq<Video>, searchId: string) returns (expiry: Expiry)
      modifies this
      ensures State() == old(State()).(searches := Registered(old(searches), requester.name, searchId, Top3(results)))
      ensures expiry == Expiry(requester.displayName, searchId)
    {
      var top3 := Top3(results);
      if requester.name in searches && searches[requester.name] != map[] {
        searches := searches[requester.name := searches[requester.name][searchId := top3]];
      } else {
        searches := searches[requester.name := map[searchId := top3]];
      }
      expiry := Expiry(requester.displayName, searchId);
    }

    /** `delete_expired_search`, once its timer has run out. */
    method Expire(e: Expiry)
      modifies this
      ensures State() == old(State()).(searches := Expired(old(searches), e.key, e.searchId))
    {
      if e.key !in searches || searches[e.key] == map[] {
        return;
      }
      if e.searchId !in searches[e.key] || searches[e.key][e.searchId] == [] {
        return;
      }
      searches := searches[e.key := searches[e.key] - {e.searchId}];
    }

    /**
     * `skip`, with the number read as intended and the corrected clamp: the
     * cursor moves by the clamped amount when there is a voice client; the
     * stop is `OnFinished`.
     */
    method Skip(arg: Option<string>)
      modifies this
      ensures State() == SkipStep(old(State()), arg)
    {
      var amount := 0;
      if arg.Some? && IsNumeric(arg.value) {
        amount := DecimalValue(arg.value) - 1;
      }
      amount := ClampSkipIntended(amount, |playlist|, cursor);
      if hasVoiceClient {
        cursor := cursor + amount;
      }
    }

    /** `queue`: the text sent, or `None` when reading a title raises IndexError. */
    method QueueView() returns (msg: Option<string>)
      ensures msg == QueueMessage(Titles(playlist), cursor, isPlaying, BotMarker)
    {
      msg := BuildQueueText(Titles(playlist), cursor, isPlaying, BotMarker);
    }

    /** `play_youtube_audio`. */
    method Advance(connectOk: bool, now: int, cutoff: int) returns (outcome: AdvanceOutcome)
      modifies this, history
      ensures (State(), outcome) == AdvanceStep(old(State()), connectOk, now, cutoff)
    {
      if cursor == |playlist| - 1 {
        isPlaying := false;
        return WentIdle;
      }
      isPlaying := true;
      cursor := cursor + 1;
      if !connectOk {
        isPlaying := false;
        return ConnectFailed;
      }
      hasVoiceClient := true;
      if !PyIndexOk(|playlist|, cursor) {
        return IndexOutOfRange;
      }
      var track := playlist[PyIndex(|playlist|, cursor)].track;
      var ok := history.Insert(track, now, cutoff);
      if !ok {
        return HistoryWriteFailed;
      }
      return NowPlaying(track);
    }

    /** The completion callback of the playing track (also fired by the stop of `skip`): advance again. */
    method OnFinished(connectOk: bool, now: int, cutoff: int) returns (outcome: AdvanceOutcome)
      modifies this, history
      ensures (State(), outcome) == AdvanceStep(old(State()), connectOk, now, cutoff)
    {
      outcome := Advance(connectOk, now, cutoff);
    }

    /** `play_selected_track`, with stream selection by numeric bitrate and height. */
    method Enqueue(video: Video, searchId: string, user: Member, connectOk: bool, now: int, cutoff: int)
      returns (outcome: EnqueueOutcome)
      modifies this, history
      ensures (State(), outcome) == EnqueueStep(old(State()), video, searchId, user, connectOk, now, cutoff)
    {
      var stream: Option<Stream>;
      if video.audioStreams != [] {
        stream := BestAudioStreamByBitrate(video.audioStreams);
      } else {
        stream := BestVideoStreamByResolution(video.progressiveStreams);
      }
      if stream.None? {
        return NoPlayableStream;
      }
      var track := QueuedTrack(video, stream.value, searchId, user);
      playlist := playlist + [Slot(searchId, track)];
      if !isPlaying {
        var advanced := Advance(connectOk, now, cutoff);
        return Queued(Some(advanced));
      }
      return Queued(None);
    }

    /** `on_reaction_add`, for a search menu. */
    method OnReaction(user: Member, inBotChannel: bool, searchId: Option<string>, emoji: string,
                      connectOk: bool, now: int, cutoff: int) returns (outcome: Option<EnqueueOutcome>)
      modifies this, history
      ensures (State(), outcome) == ReactionStep(old(State()), user, inBotChannel, searchId, emoji, connectOk, now, cutoff)
    {
      if user.isBot || !inBotChannel || searchId.None? {
        return None;
      }
      var choice := SelectCandidate(searches, user.name, searchId.value, emoji);
      if choice.None? {
        return None;
      }
      var queued := Enqueue(choice.value, searchId.value, user, connectOk, now, cutoff);
      return Some(queued);
    }
  }
}
