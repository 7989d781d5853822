/**
 * The text of the `queue` command, common to both bots: up to five titles
 * starting at the cursor, the one under the cursor marked while playing,
 * "Queue empty" when nothing is listed. The titles are read with Python's
 * negative-index rule, so a cursor below -len raises IndexError (`None`).
 */
module QueueText {
  import opened Wrappers
  import opened PyList

  const Header: string := "Playlist:\n"
  /** The mark before the playing title in main.py: "► ". */
  const LegacyMarker: string := "\U{25BA} "
  /**
   * The mark before the playing title in discord_bot.py, as that file spells
   * it: the UTF-8 bytes of "►" read as Mac OS Roman text ("‚ñ∫").
   */
  const BotMarker: string := "\U{201A}\U{F1}\U{222B} "
  const EmptyText: string := "Queue empty"

  /** The most entries the view lists. */
  const MaxShown: nat := 5

  datatype QueueLine = QueueLine(current: bool, title: string)

  /** One past the last index the listing loop visits. */
  function ShownEnd(n: nat, cursor: int, playing: bool): int
  {
    if cursor >= n - 1 && !playing then cursor else Min(n, cursor + MaxShown)
  }

  /** How many entries the listing loop visits. */
  function ShownCount(n: nat, cursor: int, playing: bool): (c: nat)
    ensures c <= MaxShown
  {
    Max(0, ShownEnd(n, cursor, playing) - cursor)
  }

  /** Every index the loop visits can be read without IndexError. */
  predicate Readable(n: nat, cursor: int, playing: bool)
  {
    ShownCount(n, cursor, playing) == 0 || 0 <= n + cursor
  }

  /** The entries listed for a queue whose titles are `titles`; none when a title read raises IndexError. */
  function QueueLines(titles: seq<string>, cursor: int, playing: bool): (r: Option<seq<QueueLine>>)
  {
    var n, c := |titles|, ShownCount(|titles|, cursor, playing);
    if !Readable(n, cursor, playing) then None
    else Some(seq(c, j requires 0 <= j < c =>
                     QueueLine(j == 0 && playing, titles[PyIndex(n, cursor + j)])))
  }

  function LineText(l: QueueLine, marker: string): string
  {
    (if l.current then marker else "") + l.title + "\n"
  }

  function JoinLines(ls: seq<QueueLine>, marker: string): (r: string)
    ensures |r| >= |ls|
    decreases |ls|
  {
    if ls == [] then "" else JoinLines(ls[..|ls| - 1], marker) + LineText(ls[|ls| - 1], marker)
  }

  /** The message sent for a list of entries. */
  function Render(ls: seq<QueueLine>, marker: string): string
  {
    if ls == [] then EmptyText else Header + JoinLines(ls, marker)
  }

  /** The message the `queue` command sends, or `None` when it raises IndexError. */
  function QueueMessage(titles: seq<string>, cursor: int, playing: bool, marker: string): Option<string>
  {
    match QueueLines(titles, cursor, playing)
    case None => None
    case Some(ls) => Some(Render(ls, marker))
  }

  /**
   * The shape of the listing: at most five entries, the titles of the slots
   * from the cursor on, in order, and the marker on the first entry exactly
   * when playing.
   */
  lemma QueueLinesShape(titles: seq<string>, cursor: int, playing: bool)
    requires QueueLines(titles, cursor, playing).Some?
    ensures var ls := QueueLines(titles, cursor, playing).value;
      |ls| <= MaxShown
      && (ls != [] ==> 0 <= |titles| + cursor && cursor + |ls| <= |titles|)
      && (forall j :: 0 <= j < |ls| ==> ls[j].title == titles[PyIndex(|titles|, cursor + j)])
      && (forall j :: 0 <= j < |ls| ==> (ls[j].current <==> j == 0 && playing))
  {
  }

  /** With at least five slots left from the cursor, exactly five entries are listed, playing or not. */
  lemma QueueShowsFive(titles: seq<string>, cursor: int, playing: bool)
    requires 0 <= cursor && cursor + MaxShown <= |titles|
    ensures QueueLines(titles, cursor, playing).Some?
    ensures |QueueLines(titles, cursor, playing).value| == MaxShown
  {
  }

  /**
   * The view is "Queue empty" exactly when the cursor is at or past the last
   * slot and nothing plays, or the cursor is past the end.
   */
  lemma QueueEmptyExactly(titles: seq<string>, cursor: int, playing: bool, marker: string)
    ensures QueueMessage(titles, cursor, playing, marker) == Some(EmptyText) <==>
              (cursor >= |titles| - 1 && !playing) || cursor >= |titles|
  {
    if QueueLines(titles, cursor, playing).Some? {
      RenderListed(QueueLines(titles, cursor, playing).value, marker);
    }
  }

  /** A non-empty listing never renders as "Queue empty": it starts with the header. */
  lemma RenderListed(ls: seq<QueueLine>, marker: string)
    ensures ls != [] ==> Render(ls, marker) != EmptyText && Render(ls, marker)[..|Header|] == Header
  {
    if ls != [] {
      assert Render(ls, marker)[0] == 'P' != EmptyText[0];
    }
  }

  /** The view raises IndexError exactly when it would list something and the cursor lies below -len. */
  lemma QueueIndexError(titles: seq<string>, cursor: int, playing: bool, marker: string)
    ensures QueueMessage(titles, cursor, playing, marker).None? <==>
              ShownCount(|titles|, cursor, playing) > 0 && |titles| + cursor < 0
  {
  }

  /** `lines` are the entries for the slots from the cursor on, marked as the view marks them. */
  predicate ListsFrom(titles: seq<string>, cursor: int, playing: bool, lines: seq<QueueLine>)
  {
    && (lines != [] ==> 0 <= |titles| + cursor && cursor + |lines| <= |titles|)
    && forall j :: 0 <= j < |lines| ==>
         lines[j] == QueueLine(j == 0 && playing, titles[PyIndex(|titles|, cursor + j)])
  }

  /** One more readable slot extends the entries by its own entry. */
  lemma ListsFromNext(titles: seq<string>, cursor: int, playing: bool, lines: seq<QueueLine>, line: QueueLine)
    requires ListsFrom(titles, cursor, playing, lines)
    requires PyIndexOk(|titles|, cursor + |lines|)
    requires line == QueueLine(|lines| == 0 && playing, titles[PyIndex(|titles|, cursor + |lines|)])
    ensures ListsFrom(titles, cursor, playing, lines + [line])
  {
  }

  /** A list of readable entries of the right count and contents is the listing. */
  lemma ListedLines(titles: seq<string>, cursor: int, playing: bool, lines: seq<QueueLine>)
    requires |lines| == ShownCount(|titles|, cursor, playing)
    requires ListsFrom(titles, cursor, playing, lines)
    ensures QueueLines(titles, cursor, playing) == Some(lines)
  {
    assert Readable(|titles|, cursor, playing);
    var listed := QueueLines(titles, cursor, playing).value;
    assert |listed| == |lines|;
    assert forall j :: 0 <= j < |lines| ==> listed[j] == lines[j];
    assert listed == lines;
  }

  /**
   * The listing loop of the `queue` command: walk the slots from the cursor,
   * stop after five or when the queue is idle at its end, mark the cursor
   * slot while playing. `None` when a title read raises IndexError.
   */
  method BuildQueueText(titles: seq<string>, cursor: int, playing: bool, marker: string) returns (msg: Option<string>)
    ensures msg == QueueMessage(titles, cursor, playing, marker)
  {
    var n := |titles|;
    ghost var c := ShownCount(n, cursor, playing);
    ghost var lines: seq<QueueLine> := [];
    var text := Header;
    var i := cursor;
    while i < n
      invariant i == cursor + |lines| && |lines| <= c
      invariant lines != [] ==> !(cursor >= n - 1 && !playing)
      invariant ListsFrom(titles, cursor, playing, lines)
      invariant text == Header + JoinLines(lines, marker)
      decreases n - i
    {
      if cursor >= n - 1 && !playing {
        ExitCount(n, cursor, playing, |lines|);
        break;
      }
      if i > cursor + 4 {
        ExitCount(n, cursor, playing, |lines|);
        break;
      }
      if !PyIndexOk(n, i) {
        return None;
      }
      ghost var before := text;
      if i == cursor && cursor < n && playing {
        text := text + marker;
      }
      text := text + titles[PyIndex(n, i)] + "\n";
      ghost var line := QueueLine(i == cursor && playing, titles[PyIndex(n, i)]);
      AppendLine(before, text, lines, line, marker);
      ListsFromNext(titles, cursor, playing, lines, line);
      lines := lines + [line];
      i := i + 1;
    }
    if i >= n {
      ExitCount(n, cursor, playing, |lines|);
    }
    ListedLines(titles, cursor, playing, lines);
    RenderedText(lines, text, marker);
    if text != Header {
      msg := Some(text);
    } else {
      msg := Some(EmptyText);
    }
  }

  /** The listing loop stops after exactly the number of entries the view shows. */
  lemma ExitCount(n: nat, cursor: int, playing: bool, k: nat)
    requires k <= ShownCount(n, cursor, playing)
    requires (k == 0 && cursor >= n - 1 && !playing) || k == MaxShown || cursor + k >= n
    ensures k == ShownCount(n, cursor, playing)
  {
  }

  /** The accumulated text is still the bare header exactly when no entry was listed. */
  lemma RenderedText(lines: seq<QueueLine>, text: string, marker: string)
    requires text == Header + JoinLines(lines, marker)
    ensures Render(lines, marker) == if text != Header then text else EmptyText
  {
    assert |text| == |Header| + |JoinLines(lines, marker)|;
  }

  /** Appending one entry's text to the rendering of the earlier entries renders them all. */
  lemma AppendLine(before: string, after: string, lines: seq<QueueLine>, line: QueueLine, marker: string)
    requires before == Header + JoinLines(lines, marker)
    requires after == before + (if line.current then marker else "") + line.title + "\n"
    ensures after == Header + JoinLines(lines + [line], marker)
  {
    assert (lines + [line])[..|lines|] == lines;
  }
}
