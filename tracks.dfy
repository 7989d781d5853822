/**
 * The values the playback core passes around: the queued track record
 * (`YoutubeSearchResult` in data_classes.py), a queue slot, and the shape in
 * which the media library hands over a video and its streams.
 */
module Tracks {
  import opened Wrappers

  /** A track as queued and recorded in the history; `url` is the resolved stream URL, absent when re-read from the history table. */
  datatype SearchResult = SearchResult(
    uuid: string,
    addedBy: string,
    uploaderName: string,
    title: string,
    url: Option<string>,
    watchUrl: string)

  /** One queue slot: a one-entry mapping `{search_id: track}`. */
  datatype Slot = Slot(searchId: string, track: SearchResult)

  /**
   * A media stream as the bot reads it. The media library reports the
   * bitrate and the resolution as text labels such as "128kbps" and "720p".
   */
  datatype Stream = Stream(abr: string, resolution: string, url: string)

  /** A video returned by a search: its metadata and its audio-only and progressive (audio+video) streams. */
  datatype Video = Video(
    title: string,
    author: string,
    watchUrl: string,
    ageRestricted: bool,
    audioStreams: seq<Stream>,
    progressiveStreams: seq<Stream>)

  /** A guild member as the bot sees one: user name, display name, and whether it is a bot account. */
  datatype Member = Member(name: string, displayName: string, isBot: bool)

  /** The titles of the queue slots, in order. */
  function Titles(playlist: seq<Slot>): (ts: seq<string>)
    ensures |ts| == |playlist|
    ensures forall i :: 0 <= i < |playlist| ==> ts[i] == playlist[i].track.title
  {
    seq(|playlist|, i requires 0 <= i < |playlist| => playlist[i].track.title)
  }
}
