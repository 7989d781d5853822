/**
 * The older bot of main.py, whose session lives in module-level globals:
 * the queue of `{title, url}` items, the cursor, `is_playing`, `is_paused`,
 * the voice client and each user's last name-search results. The globals
 * become the fields of one `GlobalSession` object; each handler is a step
 * function on `LegacyState` that its method is proved to perform.
 */
module Legacy {
  import opened Wrappers
  import opened PyList
  import opened PyStr
  import opened QueueText
  import opened Skipping

  /** A queued item: its title and the stream URL `get_format` found, if any. */
  datatype Item = Item(title: string, url: Option<string>)

  /** One format of an extracted entry: its note (such as "360p"), its audio channel count (absent for none) and URL. */
  datatype Format = Format(formatNote: string, audioChannels: Option<int>, url: string)

  /** One extracted search entry. */
  datatype Entry = Entry(title: string, formats: seq<Format>)

  // ---------------------------------------------------------------- get_format

  /** The quality tiers `get_format` tries, in order. */
  const Tiers: seq<string> := ["144p", "240p", "360p", "480p", "720p"]

  /** A format qualifies for a tier when its note mentions the tier and it has audio channels. */
  predicate Qualifies(f: Format, tier: string)
  {
    Contains(f.formatNote, tier) && f.audioChannels.Some? && f.audioChannels.value != 0
  }

  /** No format of the list qualifies for the tier. */
  predicate NoneQualify(formats: seq<Format>, tier: string)
  {
    forall j :: 0 <= j < |formats| ==> !Qualifies(formats[j], tier)
  }

  /** The first format, in list order, that qualifies for the tier. */
  function FirstQualifying(formats: seq<Format>, tier: string): (r: Option<nat>)
    ensures r.None? <==> NoneQualify(formats, tier)
    ensures r.Some? ==> r.value < |formats| && Qualifies(formats[r.value], tier)
                        && forall j :: 0 <= j < r.value ==> !Qualifies(formats[j], tier)
    decreases |formats|
  {
    if formats == [] then None
    else if Qualifies(formats[0], tier) then Some(0)
    else match FirstQualifying(formats[1..], tier)
      case None => None
      case Some(k) => Some(k + 1)
  }

  /** The URL from the first of `tiers` that some format qualifies for. */
  function FirstTierUrl(formats: seq<Format>, tiers: seq<string>): Option<string>
    decreases |tiers|
  {
    if tiers == [] then None
    else match FirstQualifying(formats, tiers[0])
      case Some(j) => Some(formats[j].url)
      case None => FirstTierUrl(formats, tiers[1..])
  }

  /** The tier `t` is the first one some format qualifies for, and format `j` the first qualifying one in it. */
  predicate FirstHit(formats: seq<Format>, tiers: seq<string>, t: int, j: int)
  {
    0 <= t < |tiers| && 0 <= j < |formats| && Qualifies(formats[j], tiers[t])
    && (forall u :: 0 <= u < t ==> NoneQualify(formats, tiers[u]))
    && (forall i :: 0 <= i < j ==> !Qualifies(formats[i], tiers[t]))
  }

  /**
   * The tiers are tried in order and the formats in list order: the result
   * is absent exactly when no format qualifies for any tier, and otherwise
   * the URL of the first qualifying format of the first tier that has one.
   */
  lemma {:induction false} FirstTierUrlPicks(formats: seq<Format>, tiers: seq<string>)
    ensures FirstTierUrl(formats, tiers).None? <==> forall t :: 0 <= t < |tiers| ==> NoneQualify(formats, tiers[t])
    ensures FirstTierUrl(formats, tiers).Some? ==>
              exists t, j :: FirstHit(formats, tiers, t, j) && FirstTierUrl(formats, tiers).value == formats[j].url
    decreases |tiers|
  {
    if tiers != [] {
      var first := FirstQualifying(formats, tiers[0]);
      if first.Some? {
        assert FirstHit(formats, tiers, 0, first.value);
      } else {
        var rest := tiers[1..];
        FirstTierUrlPicks(formats, rest);
        assert forall u :: 0 <= u < |rest| ==> rest[u] == tiers[u + 1];
        if FirstTierUrl(formats, rest).Some? {
          var t, j :| FirstHit(formats, rest, t, j) && FirstTierUrl(formats, rest).value == formats[j].url;
          assert FirstHit(formats, tiers, t + 1, j);
        } else {
          forall t | 0 <= t < |tiers|
            ensures NoneQualify(formats, tiers[t])
          {
            if t > 0 {
              assert tiers[t] == rest[t - 1];
            }
          }
        }
      }
    }
  }

  /** `get_format`: the URL of the first format with audio in the lowest tier that has one; `None` when no tier matches. */
  function GetFormat(formats: seq<Format>): Option<string>
  {
    FirstTierUrl(formats, Tiers)
  }

  /** A note of the tier's own length mentions the tier exactly when it is the tier. */
  lemma SameLengthContains(note: string, tier: string)
    requires |note| == |tier|
    ensures Contains(note, tier) <==> note == tier
  {
    if note == tier {
      assert OccursAt(note, tier, 0);
    }
  }

  /**
   * `get_format` prefers the lower tier over list order: a 720p, a silent
   * 144p and a 360p format give the 360p URL.
   */
  lemma GetFormatPrefersLowerTier()
    ensures GetFormat([Format("720p", Some(2), "hd"), Format("144p", None, "mute"), Format("360p", Some(2), "sd")])
            == Some("sd")
  {
    var fs := [Format("720p", Some(2), "hd"), Format("144p", None, "mute"), Format("360p", Some(2), "sd")];
    SameLengthContains("720p", "144p");
    SameLengthContains("720p", "240p");
    SameLengthContains("720p", "360p");
    SameLengthContains("360p", "144p");
    SameLengthContains("360p", "240p");
    SameLengthContains("360p", "360p");
    assert NoneQualify(fs, "144p");
    assert NoneQualify(fs, "240p");
    assert FirstQualifying(fs, "360p") == Some(2);
    assert Tiers[1..] == ["240p", "360p", "480p", "720p"];
    assert Tiers[1..][1..] == ["360p", "480p", "720p"];
  }

  // ---------------------------------------------------------------- remove_playlist_info

  const PpMarker: string := "&pp="

  /** `s` from its first line break on, or empty when it has none. */
  function FromLineBreak(s: string): (r: string)
    ensures |r| <= |s| && r == s[|s| - |r|..]
    ensures r == [] || r[0] == '\n'
    ensures '\n' !in s[..|s| - |r|]
    decreases |s|
  {
    if s == [] then []
    else if s[0] == '\n' then s
    else
      var r := FromLineBreak(s[1..]);
      assert s[..|s| - |r|] == [s[0]] + s[1..][..|s[1..]| - |r|];
      r
  }

  /** `re.sub(r"&pp=.*", "", s)`: every line loses the text from its first "&pp=" to its end. */
  function RemovePlaylistInfo(s: string): string
    decreases |s|
  {
    if s == [] then []
    else if StartsWith(s, PpMarker) then
      assert s[0] == '&';
      RemovePlaylistInfo(FromLineBreak(s))
    else [s[0]] + RemovePlaylistInfo(s[1..])
  }

  /** The index of the first "&pp=" in `s`, or `|s|` when there is none. */
  function FirstPp(s: string): (k: nat)
    ensures k <= |s|
    ensures k < |s| ==> OccursAt(s, PpMarker, k)
    ensures forall i :: 0 <= i < k ==> !OccursAt(s, PpMarker, i)
    decreases |s|
  {
    if s == [] then 0
    else if StartsWith(s, PpMarker) then 0
    else
      var k := FirstPp(s[1..]);
      assert forall i :: 1 <= i < k + 1 ==> (OccursAt(s, PpMarker, i) <==> OccursAt(s[1..], PpMarker, i - 1));
      assert k < |s[1..]| ==> s[1..][k..k + 4] == s[k + 1..k + 5];
      k + 1
  }

  /** A "&pp=" is found exactly when there is one. */
  lemma FirstPpFound(s: string)
    ensures FirstPp(s) < |s| <==> Contains(s, PpMarker)
  {
    if FirstPp(s) < |s| {
      assert OccursAt(s, PpMarker, FirstPp(s));
    }
  }

  lemma {:induction false} SingleLineCut(s: string)
    requires '\n' !in s
    ensures RemovePlaylistInfo(s) == s[..FirstPp(s)]
    decreases |s|
  {
    if s != [] && !StartsWith(s, PpMarker) {
      SingleLineCut(s[1..]);
      assert s[..FirstPp(s)] == [s[0]] + s[1..][..FirstPp(s[1..])];
    }
  }

  /**
   * On one line, `remove_playlist_info` keeps exactly the text before the
   * first "&pp=" (all of it when there is none), which holds no "&pp=", and
   * applying it again changes nothing.
   */
  lemma RemovePlaylistInfoSingleLine(s: string)
    requires '\n' !in s
    ensures var r := RemovePlaylistInfo(s);
      r == s[..FirstPp(s)]
      && (!Contains(s, PpMarker) ==> r == s)
      && !Contains(r, PpMarker)
      && RemovePlaylistInfo(r) == r
  {
    SingleLineCut(s);
    var r := s[..FirstPp(s)];
    FirstPpFound(s);
    MarkerFreePrefix(s, FirstPp(s));
    assert '\n' !in r by {
      assert forall c :: c in r ==> c in s;
    }
    SingleLineCut(r);
    FirstPpFound(r);
  }

  /** A prefix that ends before every occurrence of "&pp=" in `s` holds none itself. */
  lemma MarkerFreePrefix(s: string, k: nat)
    requires k <= |s|
    requires forall i :: 0 <= i < k ==> !OccursAt(s, PpMarker, i)
    ensures !Contains(s[..k], PpMarker)
  {
    var r := s[..k];
    forall i | 0 <= i <= |r|
      ensures !OccursAt(r, PpMarker, i)
    {
      if OccursAt(r, PpMarker, i) {
        assert s[i..i + 4] == r[i..i + 4];
        assert OccursAt(s, PpMarker, i);
      }
    }
  }

  // ---------------------------------------------------------------- the session

  datatype LegacyState = LegacyState(
    playlist: seq<Item>,
    cursor: int,
    isPlaying: bool,
    isPaused: bool,
    hasVoiceClient: bool,
    results: map<string, seq<Item>>)

  /** How a call of main.py's `play_youtube_audio` ends. */
  datatype AdvanceOutcome =
    | WentIdle                      // the cursor was on the last item
    | ConnectFailed                 // connecting raised; nothing catches it
    | IndexOutOfRange               // the cursor left the queue: IndexError escapes
    | NowPlaying(item: Item)

  /** How `play_user_selected_item` ends. */
  datatype SelectOutcome = InvalidSelection | Selected(advanced: Option<AdvanceOutcome>)

  function InitialState(): LegacyState
  {
    LegacyState([], -1, false, false, false, map[])
  }

  function Titles(playlist: seq<Item>): (ts: seq<string>)
    ensures |ts| == |playlist|
    ensures forall i :: 0 <= i < |playlist| ==> ts[i] == playlist[i].title
  {
    seq(|playlist|, i requires 0 <= i < |playlist| => playlist[i].title)
  }

  /** `play_youtube_audio` of main.py. Unlike the newer bot, a failed connection leaves the playing flag set. */
  function AdvanceStep(s: LegacyState, connectOk: bool): (LegacyState, AdvanceOutcome)
  {
    if s.cursor == |s.playlist| - 1 then (s.(isPlaying := false), WentIdle)
    else
      var moved := s.(isPlaying := true, cursor := s.cursor + 1);
      if !connectOk then (moved, ConnectFailed)
      else
        var linked := moved.(hasVoiceClient := true);
        if !PyIndexOk(|s.playlist|, linked.cursor) then (linked, IndexOutOfRange)
        else (linked, NowPlaying(s.playlist[PyIndex(|s.playlist|, linked.cursor)]))
  }

  /**
   * On the last item advancing only clears the playing flag. Elsewhere it
   * moves the cursor by one and sets the playing flag before connecting, and
   * the flag stays set whatever happens next; the pause flag is untouched.
   */
  lemma LegacyAdvance(s: LegacyState, connectOk: bool)
    ensures s.cursor == |s.playlist| - 1 ==> AdvanceStep(s, connectOk) == (s.(isPlaying := false), WentIdle)
    ensures s.cursor != |s.playlist| - 1 ==>
              var (t, o) := AdvanceStep(s, connectOk);
              t.cursor == s.cursor + 1 && t.isPlaying && t.isPaused == s.isPaused
              && t.playlist == s.playlist && t.results == s.results
              && (o == ConnectFailed <==> !connectOk)
              && (o.NowPlaying? <==> connectOk && PyIndexOk(|s.playlist|, s.cursor + 1))
              && (o.NowPlaying? && -1 <= s.cursor ==> o.item == s.playlist[s.cursor + 1])
  {
  }

  /**
   * Advancing while paused keeps the pause flag, so the session can be both
   * playing and paused; the next `pause` or `resume` makes the flags
   * exclusive again.
   */
  lemma AdvanceWhilePaused(s: LegacyState, connectOk: bool)
    requires s.isPaused && -1 <= s.cursor < |s.playlist| - 1
    ensures var t := AdvanceStep(s, connectOk).0;
      t.isPlaying && t.isPaused
      && !(PauseStep(t).isPlaying && PauseStep(t).isPaused) && !(ResumeStep(t).isPlaying && ResumeStep(t).isPaused)
  {
  }

  /** `pause`: playing becomes paused, paused becomes playing, otherwise nothing. */
  function PauseStep(s: LegacyState): LegacyState
  {
    if s.isPlaying then s.(isPlaying := false, isPaused := true)
    else if s.isPaused then s.(isPaused := false, isPlaying := true)
    else s
  }

  /** `resume`: only a paused session resumes. */
  function ResumeStep(s: LegacyState): LegacyState
  {
    if s.isPaused then s.(isPaused := false, isPlaying := true) else s
  }

  /**
   * `pause` touches only the two flags, never leaves both set, swaps them
   * when exactly one is set, and undoes itself; `resume` undoes a pause.
   */
  lemma PauseToggles(s: LegacyState)
    ensures var t := PauseStep(s);
      t == s.(isPlaying := t.isPlaying, isPaused := t.isPaused)
      && !(t.isPlaying && t.isPaused)
      && (s.isPlaying ==> !t.isPlaying && t.isPaused)
      && (!s.isPlaying && s.isPaused ==> t.isPlaying && !t.isPaused)
      && (!s.isPlaying && !s.isPaused ==> t == s)
      && (s.isPlaying != s.isPaused ==> PauseStep(t) == s)
      && (s.isPlaying && !s.isPaused ==> ResumeStep(t) == s)
  {
  }

  /** `resume` acts only on a paused session, swapping the flags; it is idempotent. */
  lemma ResumeOnlyWhenPaused(s: LegacyState)
    ensures !s.isPaused ==> ResumeStep(s) == s
    ensures s.isPaused ==> ResumeStep(s) == s.(isPaused := false, isPlaying := true)
    ensures ResumeStep(ResumeStep(s)) == ResumeStep(s)
  {
  }

  /** `play_user_selected_item`: validate the 1-based selection, append the item, advance if idle. */
  function SelectStep(s: LegacyState, user: string, selection: int, connectOk: bool): (LegacyState, SelectOutcome)
  {
    if user !in s.results || s.results[user] == [] || selection <= 0 || selection > |s.results[user]| then
      (s, InvalidSelection)
    else
      var queued := s.(playlist := s.playlist + [s.results[user][selection - 1]]);
      if queued.isPlaying then (queued, Selected(None))
      else
        var step := AdvanceStep(queued, connectOk);
        (step.0, Selected(Some(step.1)))
  }

  /**
   * A selection is rejected, with nothing changed, exactly when the user has
   * no results or it is out of 1..count; otherwise exactly the chosen item
   * is appended, and playback is started exactly when nothing was playing.
   */
  lemma SelectionValidated(s: LegacyState, user: string, selection: int, connectOk: bool)
    ensures var (t, o) := SelectStep(s, user, selection, connectOk);
      (o == InvalidSelection <==>
         user !in s.results || s.results[user] == [] || selection <= 0 || selection > |s.results[user]|)
      && (o == InvalidSelection ==> t == s)
      && (o.Selected? ==>
            t.playlist == s.playlist + [s.results[user][selection - 1]]
            && (o.advanced.None? <==> s.isPlaying))
  {
  }

  /** What `skip` ends with. */
  datatype LegacySkipOutcome =
    | SkipTypeError      // the argument test raised TypeError
    | SkipStopped        // the track was stopped; its completion callback advances
    | SkipNoVoiceClient  // nothing to stop

  /**
   * `skip`. A command argument arrives as text, and the test `skip_amount > 0`
   * compares it with a number, which raises TypeError before anything
   * changes. Without an argument the amount is 0, which the clamp (acting on
   * positive amounts only) leaves alone; the cursor moves by it and the track
   * is stopped when there is a voice client.
   */
  function SkipStep(s: LegacyState, arg: Option<string>): (LegacyState, LegacySkipOutcome)
  {
    if arg.Some? then (s, SkipTypeError)
    else
      var amount := ClampSkip(0, |s.playlist|, s.cursor);
      if s.hasVoiceClient then (s.(cursor := s.cursor + amount), SkipStopped) else (s, SkipNoVoiceClient)
  }

  /**
   * `skip` leaves the whole state as it is: with an argument it raises
   * TypeError, without one it only stops the track, and only when there is
   * a voice client. A skip therefore always moves on by exactly one item,
   * through the completion callback.
   */
  lemma LegacySkip(s: LegacyState, arg: Option<string>)
    ensures SkipStep(s, arg).0 == s
    ensures SkipStep(s, arg).1 == SkipTypeError <==> arg.Some?
    ensures SkipStep(s, arg).1 == SkipStopped <==> arg.None? && s.hasVoiceClient
  {
  }

  /** The items a name search offers: each entry's title and the URL `get_format` picks. */
  function FoundItems(entries: seq<Entry>): (items: seq<Item>)
    ensures |items| == |entries|
    ensures forall i :: 0 <= i < |entries| ==> items[i] == Item(entries[i].title, GetFormat(entries[i].formats))
  {
    seq(|entries|, i requires 0 <= i < |entries| => Item(entries[i].title, GetFormat(entries[i].formats)))
  }

  /** The name-search part of `search_yt`: the user's results become the new items, replacing the old ones. */
  function NameSearchStep(s: LegacyState, user: string, entries: seq<Entry>): LegacyState
  {
    s.(results := s.results[user := FoundItems(entries)])
  }

  /**
   * A name search replaces the user's previous list entirely, keeps the
   * other users' lists, and changes nothing else; selecting k afterwards
   * picks the k-th new entry.
   */
  lemma NameSearchReplaces(s: LegacyState, user: string, entries: seq<Entry>, k: int, connectOk: bool)
    requires 1 <= k <= |entries|
    ensures var t := NameSearchStep(s, user, entries);
      t.results[user] == FoundItems(entries)
      && (forall u :: u in s.results && u != user ==> t.results[u] == s.results[u])
      && t == s.(results := t.results)
      && SelectStep(t, user, k, connectOk).0.playlist
         == s.playlist + [Item(entries[k - 1].title, GetFormat(entries[k - 1].formats))]
  {
  }

  /** The URL part of `search_yt`: an entry-less id is refused; otherwise the first entry (if any) is queued, then advance if idle. */
  function UrlStep(s: LegacyState, hasId: bool, entries: seq<Entry>, connectOk: bool): (LegacyState, Option<AdvanceOutcome>)
  {
    if !hasId then (s, None)
    else
      var queued := if entries != [] then s.(playlist := s.playlist + [FoundItems(entries)[0]]) else s;
      if queued.isPlaying then (queued, None)
      else
        var step := AdvanceStep(queued, connectOk);
        (step.0, Some(step.1))
  }

  /** A URL search queues at most one item, its first entry, and leaves the search results alone. */
  lemma UrlQueuesFirstEntry(s: LegacyState, hasId: bool, entries: seq<Entry>, connectOk: bool)
    requires hasId && entries != []
    ensures var t := UrlStep(s, hasId, entries, connectOk).0;
      t.playlist == s.playlist + [Item(entries[0].title, GetFormat(entries[0].formats))]
      && t.results == s.results
  {
  }

  class GlobalSession {
    var playlist: seq<Item>
    var cursor: int
    var isPlaying: bool
    var isPaused: bool
    var hasVoiceClient: bool
    var results: map<string, seq<Item>>

    ghost function State(): LegacyState
      reads this
    {
      LegacyState(playlist, cursor, isPlaying, isPaused, hasVoiceClient, results)
    }

    /** The module-level initial values. */
    constructor ()
      ensures State() == InitialState()
    {
      playlist := [];
      cursor := -1;
      isPlaying := false;
      isPaused := false;
      hasVoiceClient := false;
      results := map[];
    }

    /** `play_youtube_audio`. */
    method Advance(connectOk: bool) returns (outcome: AdvanceOutcome)
      modifies this
      ensures (State(), outcome) == AdvanceStep(old(State()), connectOk)
    {
      if cursor == |playlist| - 1 {
        isPlaying := false;
        return WentIdle;
      }
      isPlaying := true;
      cursor := cursor + 1;
      if !connectOk {
        return ConnectFailed;
      }
      hasVoiceClient := true;
      if !PyIndexOk(|playlist|, cursor) {
        return IndexOutOfRange;
      }
      return NowPlaying(playlist[PyIndex(|playlist|, cursor)]);
    }

    /** `play_user_selected_item`. */
    method PlayUserSelectedItem(user: string, selection: int, connectOk: bool) returns (outcome: SelectOutcome)
      modifies this
      ensures (State(), outcome) == SelectStep(old(State()), user, selection, connectOk)
    {
      if user !in results || results[user] == [] || selection <= 0 || selection > |results[user]| {
        return InvalidSelection;
      }
      var item := results[user][selection - 1];
      playlist := playlist + [item];
      if !isPlaying {
        var advanced := Advance(connectOk);
        return Selected(Some(advanced));
      }
      return Selected(None);
    }

    method Pause()
      modifies this
      ensures State() == PauseStep(old(State()))
    {
      if isPlaying {
        isPlaying := false;
        isPaused := true;
      } else if isPaused {
        isPaused := false;
        isPlaying := true;
      }
    }

    method Resume()
      modifies this
      ensures State() == ResumeStep(old(State()))
    {
      if isPaused {
        isPaused := false;
        isPlaying := true;
      }
    }

    /** `skip`; the stopped track's completion callback is `Advance`. */
    method Skip(arg: Option<string>) returns (outcome: LegacySkipOutcome)
      modifies this
      ensures (State(), outcome) == SkipStep(old(State()), arg)
    {
      if arg.Some? {
        return SkipTypeError;
      }
      var amount := ClampSkip(0, |playlist|, cursor);
      if !hasVoiceClient {
        return SkipNoVoiceClient;
      }
      cursor := cursor + amount;
      return SkipStopped;
    }

    /** `queue`: the text sent, or `None` when reading a title raises IndexError. */
    method QueueView() returns (msg: Option<string>)
      ensures msg == QueueMessage(Titles(playlist), cursor, isPlaying, LegacyMarker)
    {
      msg := BuildQueueText(Titles(playlist), cursor, isPlaying, LegacyMarker);
    }

    /** `search_yt` for a name: record the found items for the user. */
    method RegisterNameSearch(user: string, entries: seq<Entry>)
      modifies this
      ensures State() == NameSearchStep(old(State()), user, entries)
    {
      results := results[user := FoundItems(entries)];
    }

    /** `search_yt` for a URL. */
    method EnqueueFromUrl(hasId: bool, entries: seq<Entry>, connectOk: bool) returns (outcome: Option<AdvanceOutcome>)
      modifies this
      ensures (State(), outcome) == UrlStep(old(State()), hasId, entries, connectOk)
    {
      if !hasId {
        return None;
      }
      if entries != [] {
        playlist := playlist + [FoundItems(entries)[0]];
      }
      if !isPlaying {
        var advanced := Advance(connectOk);
        return Some(advanced);
      }
      return None;
    }
  }
}
