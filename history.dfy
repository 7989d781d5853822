/**
 * The play-history table of database.py, kept as the sequence of its rows in
 * table order. Timestamps are integers; the "7 days ago" bound of the purge
 * is passed in as `cutoff`. SQL statements are modelled by what they do to
 * the rows, and the text values they splice in by how SQLite reads a quoted
 * literal back.
 */
module History {
  import opened Wrappers
  import opened PyList
  import opened Tracks

  datatype Row = Row(
    searchId: string,
    addedBy: string,
    title: string,
    uploaderName: string,
    watchUrl: string,
    addedAt: int)

  predicate HasQuote(s: string) { '\'' in s }

  // ---------------------------------------------------------------- literals

  /** `s.replace("'", "''")`. */
  function Escape(s: string): (r: string)
    ensures !HasQuote(s) ==> r == s
    decreases |s|
  {
    if s == [] then []
    else (if s[0] == '\'' then "''" else [s[0]]) + Escape(s[1..])
  }

  /**
   * Reads an SQL string literal from just after its opening quote: a doubled
   * quote stands for one quote, a single quote closes the literal and must be
   * the last character. `None` when the text is not one well-formed literal.
   */
  function ParseLiteralBody(s: string): (r: Option<string>)
    decreases |s|
  {
    if |s| == 0 then None
    else if s[0] == '\'' then
      if |s| == 1 then Some("")
      else if s[1] == '\'' then
        match ParseLiteralBody(s[2..])
        case None => None
        case Some(t) => Some("'" + t)
      else None
    else
      match ParseLiteralBody(s[1..])
      case None => None
      case Some(t) => Some([s[0]] + t)
  }

  /** The value SQLite stores for the literal `'text'` that a statement builds around `text`. */
  function LiteralValue(text: string): Option<string>
  {
    ParseLiteralBody(text + "'")
  }

  /** Escaping makes any text survive its trip through an SQL literal. */
  lemma {:induction false} EscapeRoundTrip(s: string)
    ensures LiteralValue(Escape(s)) == Some(s)
    decreases |s|
  {
    if s != [] {
      EscapeRoundTrip(s[1..]);
      var rest := Escape(s[1..]) + "'";
      if s[0] == '\'' {
        assert Escape(s) + "'" == "''" + rest;
        assert ("''" + rest)[2..] == rest;
        assert "'" + s[1..] == s;
      } else {
        assert Escape(s) + "'" == [s[0]] + rest;
        assert ([s[0]] + rest)[1..] == rest;
        assert [s[0]] + s[1..] == s;
      }
    }
  }

  /** Text without a quote needs no escaping: its bare literal already reads back as itself. */
  lemma RawLiteralRoundTrip(s: string)
    requires !HasQuote(s)
    ensures LiteralValue(s) == Some(s)
  {
    EscapeRoundTrip(s);
  }

  /**
   * Two examples of an unescaped quote: a doubled quote is read back as one,
   * and a single quote ends the literal early, which here leaves text the
   * literal reader rejects.
   */
  lemma UnescapedQuotes()
    ensures LiteralValue("a''b") == Some("a'b")
    ensures LiteralValue("a'b") == None
  {
    assert "a''b" + "'" == "a''b'";
    assert "a''b'"[1..] == "''b'" && "''b'"[2..] == "b'" && "b'"[1..] == "'";
    assert ParseLiteralBody("'") == Some("");
    assert ['b'] + "" == "b" && "'" + "b" == "'b" && ['a'] + "'b" == "a'b";
    assert ParseLiteralBody("b'") == Some("b");
    assert ParseLiteralBody("''b'") == Some("'b");
    assert ParseLiteralBody("a''b'") == Some("a'b");
    assert "a'b" + "'" == "a'b'";
    assert "a'b'"[1..] == "'b'";
  }

  // ---------------------------------------------------------------- insert

  predicate HasUrl(rows: seq<Row>, url: string)
  {
    exists i :: 0 <= i < |rows| && rows[i].watchUrl == url
  }

  /** The UPDATE: every row with the watch URL gets the new timestamp; nothing else changes. */
  function Refreshed(rows: seq<Row>, url: string, now: int): (r: seq<Row>)
    ensures |r| == |rows|
    ensures forall i :: 0 <= i < |rows| ==>
              r[i] == if rows[i].watchUrl == url then rows[i].(addedAt := now) else rows[i]
  {
    seq(|rows|, i requires 0 <= i < |rows| =>
          if rows[i].watchUrl == url then rows[i].(addedAt := now) else rows[i])
  }

  /** The DELETE: drop the rows stamped at or before the cutoff, keep the rest in order. */
  function Purged(rows: seq<Row>, cutoff: int): (r: seq<Row>)
    ensures |r| <= |rows|
    ensures forall x :: x in r <==> x in rows && x.addedAt > cutoff
    decreases |rows|
  {
    if rows == [] then []
    else (if rows[0].addedAt > cutoff then [rows[0]] else []) + Purged(rows[1..], cutoff)
  }

  lemma {:induction false} PurgedAppend(a: seq<Row>, b: seq<Row>, cutoff: int)
    ensures Purged(a + b, cutoff) == Purged(a, cutoff) + Purged(b, cutoff)
    decreases |a|
  {
    if a != [] {
      assert (a + b)[1..] == a[1..] + b;
      PurgedAppend(a[1..], b, cutoff);
    } else {
      assert a + b == b;
    }
  }

  /** The row the INSERT statement stores, or `None` when one of its literals is malformed. */
  function InsertedRow(item: SearchResult, now: int): Option<Row>
  {
    var id := LiteralValue(item.uuid);
    var requester := LiteralValue(Escape(item.addedBy));
    var title := LiteralValue(Escape(item.title));
    var uploader := LiteralValue(Escape(item.uploaderName));
    var url := LiteralValue(item.watchUrl);
    if id.Some? && requester.Some? && title.Some? && uploader.Some? && url.Some? then
      Some(Row(id.value, requester.value, title.value, uploader.value, url.value, now))
    else None
  }

  /**
   * The INSERT keeps requester, title and uploader exactly as given; the
   * search id and watch URL, spliced in unescaped, come through unchanged
   * when they hold no quote.
   */
  lemma InsertedRowFields(item: SearchResult, now: int)
    requires !HasQuote(item.uuid) && !HasQuote(item.watchUrl)
    ensures InsertedRow(item, now)
            == Some(Row(item.uuid, item.addedBy, item.title, item.uploaderName, item.watchUrl, now))
  {
    RawLiteralRoundTrip(item.uuid);
    RawLiteralRoundTrip(item.watchUrl);
    EscapeRoundTrip(item.addedBy);
    EscapeRoundTrip(item.title);
    EscapeRoundTrip(item.uploaderName);
  }

  /**
   * The table after `insert_playlist_item_to_history_db`: refresh the rows
   * with the same watch URL or else append one row, then purge. `None` when
   * a statement is malformed; nothing is committed then.
   */
  function AfterInsert(rows: seq<Row>, item: SearchResult, now: int, cutoff: int): Option<seq<Row>>
  {
    match LiteralValue(item.watchUrl)
    case None => None
    case Some(url) =>
      if HasUrl(rows, url) then Some(Purged(Refreshed(rows, url, now), cutoff))
      else
        match InsertedRow(item, now)
        case None => None
        case Some(row) => Some(Purged(rows + [row], cutoff))
  }

  /** After any insert, no row stamped at or before the cutoff is left. */
  lemma InsertLeavesNoStaleRow(rows: seq<Row>, item: SearchResult, now: int, cutoff: int)
    requires AfterInsert(rows, item, now, cutoff).Some?
    ensures forall x :: x in AfterInsert(rows, item, now, cutoff).value ==> x.addedAt > cutoff
  {
  }

  /**
   * Inserting a watch URL that is already recorded adds no row: every row
   * afterwards is an old row, with its timestamp refreshed exactly when it
   * has that URL, and every fresh row with another URL is kept; each row
   * with that URL is kept too, stamped with the current time, unless the
   * current time is itself past the cutoff.
   */
  lemma InsertKnownUrl(rows: seq<Row>, item: SearchResult, now: int, cutoff: int)
    requires !HasQuote(item.watchUrl) && HasUrl(rows, item.watchUrl)
    ensures AfterInsert(rows, item, now, cutoff).Some?
    ensures var r := AfterInsert(rows, item, now, cutoff).value;
      |r| <= |rows|
      && (forall x :: x in r ==>
            (x in rows && x.watchUrl != item.watchUrl)
            || exists y :: y in rows && y.watchUrl == item.watchUrl && x == y.(addedAt := now))
      && (forall x :: x in rows && x.watchUrl != item.watchUrl && x.addedAt > cutoff ==> x in r)
      && (forall y :: y in rows && y.watchUrl == item.watchUrl && now > cutoff ==> y.(addedAt := now) in r)
  {
    RawLiteralRoundTrip(item.watchUrl);
    var url := item.watchUrl;
    var refreshed := Refreshed(rows, url, now);
    forall x | x in rows && x.watchUrl != url && x.addedAt > cutoff
      ensures x in Purged(refreshed, cutoff)
    {
      var i :| 0 <= i < |rows| && rows[i] == x;
      assert refreshed[i] == x;
    }
    forall y | y in rows && y.watchUrl == url && now > cutoff
      ensures y.(addedAt := now) in Purged(refreshed, cutoff)
    {
      var i :| 0 <= i < |rows| && rows[i] == y;
      assert refreshed[i] == y.(addedAt := now);
    }
    forall x | x in Purged(refreshed, cutoff)
      ensures (x in rows && x.watchUrl != url)
              || exists y :: y in rows && y.watchUrl == url && x == y.(addedAt := now)
    {
      var i :| 0 <= i < |refreshed| && refreshed[i] == x;
      assert rows[i] in rows;
    }
  }

  /**
   * Inserting a new watch URL appends exactly one row at the end (dropped
   * again only if it is itself older than the cutoff), after purging the old
   * rows; the row holds the item's fields and the current time.
   */
  lemma InsertNewUrl(rows: seq<Row>, item: SearchResult, now: int, cutoff: int)
    requires !HasQuote(item.watchUrl) && !HasQuote(item.uuid) && !HasUrl(rows, item.watchUrl)
    ensures AfterInsert(rows, item, now, cutoff)
            == Some(Purged(rows, cutoff)
                    + (if now > cutoff
                       then [Row(item.uuid, item.addedBy, item.title, item.uploaderName, item.watchUrl, now)]
                       else []))
  {
    RawLiteralRoundTrip(item.watchUrl);
    InsertedRowFields(item, now);
    var row := Row(item.uuid, item.addedBy, item.title, item.uploaderName, item.watchUrl, now);
    PurgedAppend(rows, [row], cutoff);
    assert Purged([row], cutoff) == if now > cutoff then [row] else [];
  }

  /**
   * For the watch URL "a'b", the quote ends the literal early and the
   * existence query cannot be read: the insert fails and the table is left
   * as it was.
   */
  lemma InsertQuotedUrlFails(rows: seq<Row>, item: SearchResult, now: int, cutoff: int)
    requires item.watchUrl == "a'b"
    ensures AfterInsert(rows, item, now, cutoff).None?
  {
    UnescapedQuotes();
  }

  class HistoryStore {
    var rows: seq<Row>

    /**
     * The history table after `initialize_history_table`: it is created
     * only if missing, so the rows already stored are kept.
     */
    constructor (initial: seq<Row>)
      ensures rows == initial
    {
      rows := initial;
    }

    /**
     * `insert_playlist_item_to_history_db`: look the watch URL up, refresh or
     * insert, then purge. Returns false when a statement fails; the table is
     * then unchanged, because nothing was committed.
     */
    method Insert(item: SearchResult, now: int, cutoff: int) returns (ok: bool)
      modifies this
      ensures ok == AfterInsert(old(rows), item, now, cutoff).Some?
      ensures rows == if ok then AfterInsert(old(rows), item, now, cutoff).value else old(rows)
    {
      var url := LiteralValue(item.watchUrl);
      if url.None? {
        return false;
      }
      if HasUrl(rows, url.value) {
        rows := Refreshed(rows, url.value, now);
      } else {
        var row := InsertedRow(item, now);
        if row.None? {
          return false;
        }
        rows := rows + [row.value];
      }
      rows := Purged(rows, cutoff);
      ok := true;
    }
  }

  // ---------------------------------------------------------------- reads

  /** The rows newest first (`ORDER BY ADDED_AT DESC`); rows with equal timestamps keep their table order. */
  predicate NewestFirstOrder(s: seq<Row>)
  {
    forall i, j :: 0 <= i < j < |s| ==> s[i].addedAt >= s[j].addedAt
  }

  function InsertByTime(sorted: seq<Row>, r: Row): (s: seq<Row>)
    ensures |s| == |sorted| + 1
    ensures multiset(s) == multiset(sorted) + multiset{r}
    ensures s[0] == if sorted != [] && sorted[0].addedAt >= r.addedAt then sorted[0] else r
    ensures NewestFirstOrder(sorted) ==> NewestFirstOrder(s)
    decreases |sorted|
  {
    if sorted == [] then [r]
    else if sorted[0].addedAt >= r.addedAt then
      assert sorted == [sorted[0]] + sorted[1..];
      var rest := InsertByTime(sorted[1..], r);
      PrependKeepsOrder(sorted[0], rest);
      [sorted[0]] + rest
    else
      PrependKeepsOrder(r, sorted);
      [r] + sorted
  }

  /** A row no older than the head of a newest-first listing can go in front of it. */
  lemma PrependKeepsOrder(x: Row, rest: seq<Row>)
    ensures NewestFirstOrder(rest) && (rest != [] ==> x.addedAt >= rest[0].addedAt) ==>
              NewestFirstOrder([x] + rest)
  {
    if NewestFirstOrder(rest) && (rest != [] ==> x.addedAt >= rest[0].addedAt) {
      var s := [x] + rest;
      forall i, j | 0 <= i < j < |s|
        ensures s[i].addedAt >= s[j].addedAt
      {
        if i > 0 {
          assert s[i] == rest[i - 1] && s[j] == rest[j - 1];
        } else {
          assert s[j] == rest[j - 1];
        }
      }
    }
  }

  function NewestFirst(rows: seq<Row>): (s: seq<Row>)
    ensures |s| == |rows|
    ensures multiset(s) == multiset(rows)
    ensures NewestFirstOrder(s)
    decreases |rows|
  {
    if rows == [] then []
    else
      assert rows == rows[..|rows| - 1] + [rows[|rows| - 1]];
      InsertByTime(NewestFirst(rows[..|rows| - 1]), rows[|rows| - 1])
  }

  /** `math.ceil(n / 10)`. */
  function PageCount(n: nat): nat
  {
    (n + 9) / 10
  }

  lemma PageCountIsCeiling(n: nat)
    ensures 10 * PageCount(n) >= n
    ensures PageCount(n) > 0 ==> 10 * (PageCount(n) - 1) < n
  {
  }

  /** Page p of a listing, ten entries per page, counted from 1 (Python's slice for other p). */
  function Page(s: seq<Row>, page: int): seq<Row>
  {
    PySlice(s, (page - 1) * 10, page * 10)
  }

  datatype HistoryPage = HistoryPage(items: seq<Row>, totalPages: nat)

  /** `get_recent_history_items(page)`: that page of the newest-first rows, and the number of pages. */
  function RecentHistory(rows: seq<Row>, page: int): HistoryPage
  {
    HistoryPage(Page(NewestFirst(rows), page), PageCount(|rows|))
  }

  /** A page holds at most ten rows, for any page number, negative ones included. */
  lemma PageHoldsAtMostTen(rows: seq<Row>, page: int)
    ensures |RecentHistory(rows, page).items| <= 10
  {
    PySliceWidth(NewestFirst(rows), (page - 1) * 10, page * 10);
  }

  /** Page p (from 1) is the window [(p-1)*10, p*10) of the listing, clipped to its end. */
  lemma PageIsWindow(s: seq<Row>, page: int)
    requires page >= 1
    ensures Page(s, page) == s[Min(|s|, (page - 1) * 10)..Min(|s|, page * 10)]
  {
  }

  /** Pages 1..k of a listing laid end to end. */
  function PagesUpTo(s: seq<Row>, k: nat): seq<Row>
  {
    if k == 0 then [] else PagesUpTo(s, k - 1) + Page(s, k)
  }

  lemma {:induction false} PagesUpToPrefix(s: seq<Row>, k: nat)
    ensures PagesUpTo(s, k) == s[..Min(|s|, k * 10)]
  {
    if k > 0 {
      var a, b := Min(|s|, (k - 1) * 10), Min(|s|, k * 10);
      PagesUpToPrefix(s, k - 1);
      PageIsWindow(s, k);
      assert s[..a] + s[a..b] == s[..b];
    }
  }

  /** Pages 1 to the page count, in order, hold every row exactly once, newest first. */
  lemma PagesCoverHistory(rows: seq<Row>)
    ensures PagesUpTo(NewestFirst(rows), RecentHistory(rows, 1).totalPages) == NewestFirst(rows)
  {
    PagesUpToPrefix(NewestFirst(rows), PageCount(|rows|));
    PageCountIsCeiling(|rows|);
  }

  /** The record `get_search_result_for_search_id` builds from a row; the stream URL is not stored. */
  function ResultOf(row: Row): SearchResult
  {
    SearchResult(uuid := row.searchId, addedBy := row.addedBy, uploaderName := row.uploaderName,
                 title := row.title, url := None, watchUrl := row.watchUrl)
  }

  /** The first row, in table order, with the search id. */
  function FirstWithId(rows: seq<Row>, id: string): (r: Option<SearchResult>)
    ensures r.None? <==> forall i :: 0 <= i < |rows| ==> rows[i].searchId != id
    ensures r.Some? ==> exists i :: 0 <= i < |rows| && rows[i].searchId == id && r.value == ResultOf(rows[i])
                                 && forall j :: 0 <= j < i ==> rows[j].searchId != id
    decreases |rows|
  {
    if rows == [] then None
    else if rows[0].searchId == id then Some(ResultOf(rows[0]))
    else
      var r := FirstWithId(rows[1..], id);
      assert r.Some? ==> exists i :: 1 <= i < |rows| && rows[i].searchId == id && r.value == ResultOf(rows[i])
                                 && forall j :: 0 <= j < i ==> rows[j].searchId != id;
      r
  }

  /**
   * `get_search_result_for_search_id`: the first matching row as a record.
   * `None` stands for the two ways the lookup raises: no row matches, so
   * `next` on the exhausted cursor raises StopIteration (the test for an
   * empty result after it therefore never succeeds), or the id breaks the
   * query.
   */
  function LookupBySearchId(rows: seq<Row>, searchId: string): Option<SearchResult>
  {
    match LiteralValue(searchId)
    case None => None
    case Some(id) => FirstWithId(rows, id)
  }

  lemma {:induction false} FirstWithIdAppend(a: seq<Row>, row: Row, id: string)
    requires forall i :: 0 <= i < |a| ==> a[i].searchId != id
    requires row.searchId == id
    ensures FirstWithId(a + [row], id) == Some(ResultOf(row))
    decreases |a|
  {
    if a != [] {
      assert (a + [row])[1..] == a[1..] + [row];
      FirstWithIdAppend(a[1..], row, id);
    }
  }

  /**
   * Recording a new track and looking its search id up gives the track back,
   * without its stream URL.
   */
  lemma InsertThenLookup(rows: seq<Row>, item: SearchResult, now: int, cutoff: int)
    requires !HasQuote(item.uuid) && !HasQuote(item.watchUrl)
    requires now > cutoff
    requires !HasUrl(rows, item.watchUrl)
    requires forall i :: 0 <= i < |rows| ==> rows[i].searchId != item.uuid
    ensures AfterInsert(rows, item, now, cutoff).Some?
    ensures LookupBySearchId(AfterInsert(rows, item, now, cutoff).value, item.uuid) == Some(item.(url := None))
  {
    InsertNewUrl(rows, item, now, cutoff);
    RawLiteralRoundTrip(item.uuid);
    var kept := Purged(rows, cutoff);
    assert forall i :: 0 <= i < |kept| ==> kept[i] in rows;
    FirstWithIdAppend(kept, Row(item.uuid, item.addedBy, item.title, item.uploaderName, item.watchUrl, now), item.uuid);
  }
}
