/**
 * Choosing the stream to play (`get_best_audio_stream` and
 * `get_best_video_stream` in discord_bot.py): a single pass that keeps the
 * first stream whose label compares greatest.
 *
 * The labels are text ("128kbps", "720p"), and `>` on text is lexicographic,
 * so the scans as written rank "70kbps" above "160kbps" and "720p" above
 * "1080p". `BestAudioStream` and `BestVideoStream` model the scans as written;
 * `BestAudioStreamByBitrate` and `BestVideoStreamByResolution` compare the
 * numbers the labels start with, which is what "best" is meant to be, and are
 * the ones the player uses.
 */
module Streams {
  import opened Wrappers
  import opened PyStr
  import opened Tracks

  function Abrs(s: seq<Stream>): (ks: seq<string>)
    ensures |ks| == |s| && forall i :: 0 <= i < |s| ==> ks[i] == s[i].abr
  {
    seq(|s|, i requires 0 <= i < |s| => s[i].abr)
  }

  function Resolutions(s: seq<Stream>): (ks: seq<string>)
    ensures |ks| == |s| && forall i :: 0 <= i < |s| ==> ks[i] == s[i].resolution
  {
    seq(|s|, i requires 0 <= i < |s| => s[i].resolution)
  }

  /** Bitrates in kbps, read off the labels. */
  function Bitrates(s: seq<Stream>): (ks: seq<int>)
    ensures |ks| == |s| && forall i :: 0 <= i < |s| ==> ks[i] == LeadingNumber(s[i].abr)
  {
    seq(|s|, i requires 0 <= i < |s| => LeadingNumber(s[i].abr))
  }

  /** Vertical resolutions in lines, read off the labels. */
  function Heights(s: seq<Stream>): (ks: seq<int>)
    ensures |ks| == |s| && forall i :: 0 <= i < |s| ==> ks[i] == LeadingNumber(s[i].resolution)
  {
    seq(|s|, i requires 0 <= i < |s| => LeadingNumber(s[i].resolution))
  }

  /** Among the first `n` keys, `k` holds a greatest one (Python text order) and every earlier key is strictly smaller. */
  predicate FirstMaxStrUpTo(keys: seq<string>, n: int, k: int)
  {
    0 <= k < n <= |keys|
    && (forall j :: 0 <= j < n ==> !StrLess(keys[k], keys[j]))
    && (forall j :: 0 <= j < k ==> StrLess(keys[j], keys[k]))
  }

  predicate IsFirstMaxStr(keys: seq<string>, k: int)
  {
    FirstMaxStrUpTo(keys, |keys|, k)
  }

  /** The same, for numeric keys. */
  predicate FirstMaxNumUpTo(keys: seq<int>, n: int, k: int)
  {
    0 <= k < n <= |keys|
    && (forall j :: 0 <= j < n ==> keys[j] <= keys[k])
    && (forall j :: 0 <= j < k ==> keys[j] < keys[k])
  }

  predicate IsFirstMaxNum(keys: seq<int>, k: int)
  {
    FirstMaxNumUpTo(keys, |keys|, k)
  }

  /** One step of the scan under text order: a strictly greater key takes over, any other key leaves the choice alone. */
  lemma FirstMaxStrStep(keys: seq<string>, n: int, k: int)
    requires FirstMaxStrUpTo(keys, n, k) && n < |keys|
    ensures StrLess(keys[k], keys[n]) ==> FirstMaxStrUpTo(keys, n + 1, n)
    ensures !StrLess(keys[k], keys[n]) ==> FirstMaxStrUpTo(keys, n + 1, k)
  {
    if StrLess(keys[k], keys[n]) {
      forall j | 0 <= j < n
        ensures StrLess(keys[j], keys[n]) && !StrLess(keys[n], keys[j])
      {
        StrLessTotal(keys[j], keys[k]);
        if keys[j] != keys[k] {
          StrLessTransitive(keys[j], keys[k], keys[n]);
        }
        StrLessAsymmetric(keys[j], keys[n]);
      }
      StrLessIrreflexive(keys[n]);
    }
  }

  /** At most one position is the first maximum. */
  lemma FirstMaxStrUnique(keys: seq<string>, k1: int, k2: int)
    requires IsFirstMaxStr(keys, k1) && IsFirstMaxStr(keys, k2)
    ensures k1 == k2
  {
    assert !StrLess(keys[k1], keys[k2]) && !StrLess(keys[k2], keys[k1]);
  }

  lemma FirstMaxNumUnique(keys: seq<int>, k1: int, k2: int)
    requires IsFirstMaxNum(keys, k1) && IsFirstMaxNum(keys, k2)
    ensures k1 == k2
  {
    assert keys[k1] <= keys[k2] && keys[k2] <= keys[k1];
  }

  /** The position of the first greatest key under text order, computed the way the scan runs (front to back). */
  function FirstMaxStr(keys: seq<string>): (k: int)
    requires |keys| > 0
    ensures IsFirstMaxStr(keys, k)
    decreases |keys|
  {
    if |keys| == 1 then
      StrLessIrreflexive(keys[0]);
      0
    else
      var n := |keys| - 1;
      var k := FirstMaxStr(keys[..n]);
      FirstMaxStrPrefix(keys, n, k);
      FirstMaxStrStep(keys, n, k);
      if StrLess(keys[k], keys[n]) then n else k
  }

  /** A first maximum of a prefix is a first maximum of the keys up to that length. */
  lemma FirstMaxStrPrefix(keys: seq<string>, n: int, k: int)
    requires 0 <= n <= |keys| && IsFirstMaxStr(keys[..n], k)
    ensures FirstMaxStrUpTo(keys, n, k)
  {
    assert forall j :: 0 <= j < n ==> keys[..n][j] == keys[j];
  }

  /** The position of the first greatest numeric key, computed the way the scan runs (front to back). */
  function FirstMaxNum(keys: seq<int>): (k: int)
    requires |keys| > 0
    ensures IsFirstMaxNum(keys, k)
    decreases |keys|
  {
    if |keys| == 1 then 0
    else
      var k := FirstMaxNum(keys[..|keys| - 1]);
      if keys[k] < keys[|keys| - 1] then |keys| - 1 else k
  }

  /** `get_best_audio_stream` as written: the first audio stream whose `abr` label is greatest as text. */
  method BestAudioStream(streams: seq<Stream>) returns (best: Option<Stream>)
    ensures best.None? <==> streams == []
    ensures best.Some? ==> exists k :: IsFirstMaxStr(Abrs(streams), k) && best.value == streams[k]
  {
    best := None;
    ghost var k := -1;
    ghost var keys := Abrs(streams);
    for i := 0 to |streams|
      invariant best.None? <==> i == 0
      invariant best.Some? ==> FirstMaxStrUpTo(keys, i, k) && best.value == streams[k]
    {
      if best.None? {
        StrLessIrreflexive(keys[i]);
        best, k := Some(streams[i]), i;
      } else {
        FirstMaxStrStep(keys, i, k);
        if StrLess(best.value.abr, streams[i].abr) {
          best, k := Some(streams[i]), i;
        }
      }
    }
  }

  /** `get_best_video_stream` as written: the first progressive stream whose `resolution` label is greatest as text. */
  method BestVideoStream(streams: seq<Stream>) returns (best: Option<Stream>)
    ensures best.None? <==> streams == []
    ensures best.Some? ==> exists k :: IsFirstMaxStr(Resolutions(streams), k) && best.value == streams[k]
  {
    best := None;
    ghost var k := -1;
    ghost var keys := Resolutions(streams);
    for i := 0 to |streams|
      invariant best.None? <==> i == 0
      invariant best.Some? ==> FirstMaxStrUpTo(keys, i, k) && best.value == streams[k]
    {
      if best.None? {
        StrLessIrreflexive(keys[i]);
        best, k := Some(streams[i]), i;
      } else {
        FirstMaxStrStep(keys, i, k);
        if StrLess(best.value.resolution, streams[i].resolution) {
          best, k := Some(streams[i]), i;
        }
      }
    }
  }

  /** The audio scan with the intended comparison: the first stream of highest bitrate. */
  method BestAudioStreamByBitrate(streams: seq<Stream>) returns (best: Option<Stream>)
    ensures best.None? <==> streams == []
    ensures best.Some? ==> best.value == streams[FirstMaxNum(Bitrates(streams))]
  {
    best := None;
    ghost var k := -1;
    ghost var keys := Bitrates(streams);
    for i := 0 to |streams|
      invariant best.None? <==> i == 0
      invariant best.Some? ==> FirstMaxNumUpTo(keys, i, k) && best.value == streams[k]
    {
      if best.None? || LeadingNumber(best.value.abr) < LeadingNumber(streams[i].abr) {
        best, k := Some(streams[i]), i;
      }
    }
    if best.Some? {
      FirstMaxNumUnique(keys, k, FirstMaxNum(keys));
    }
  }

  /** The video scan with the intended comparison: the first stream of highest resolution. */
  method BestVideoStreamByResolution(streams: seq<Stream>) returns (best: Option<Stream>)
    ensures best.None? <==> streams == []
    ensures best.Some? ==> best.value == streams[FirstMaxNum(Heights(streams))]
  {
    best := None;
    ghost var k := -1;
    ghost var keys := Heights(streams);
    for i := 0 to |streams|
      invariant best.None? <==> i == 0
      invariant best.Some? ==> FirstMaxNumUpTo(keys, i, k) && best.value == streams[k]
    {
      if best.None? || LeadingNumber(best.value.resolution) < LeadingNumber(streams[i].resolution) {
        best, k := Some(streams[i]), i;
      }
    }
    if best.Some? {
      FirstMaxNumUnique(keys, k, FirstMaxNum(keys));
    }
  }

  /**
   * The stream the player picks for a video, with the intended numeric
   * comparison: the audio-only stream of highest bitrate if there is any,
   * otherwise the progressive stream of highest resolution, otherwise none.
   */
  function PreferredStream(v: Video): (s: Option<Stream>)
    ensures s.None? <==> v.audioStreams == [] && v.progressiveStreams == []
    ensures v.audioStreams != [] ==>
              (s.Some? && s.value in v.audioStreams
               && forall t :: t in v.audioStreams ==> LeadingNumber(t.abr) <= LeadingNumber(s.value.abr))
    ensures v.audioStreams == [] && s.Some? ==>
              (s.value in v.progressiveStreams
               && forall t :: t in v.progressiveStreams ==> LeadingNumber(t.resolution) <= LeadingNumber(s.value.resolution))
  {
    if v.audioStreams != [] then
      var k := FirstMaxNum(Bitrates(v.audioStreams));
      assert forall j :: 0 <= j < |v.audioStreams| ==> Bitrates(v.audioStreams)[j] <= Bitrates(v.audioStreams)[k];
      Some(v.audioStreams[k])
    else if v.progressiveStreams != [] then
      var k := FirstMaxNum(Heights(v.progressiveStreams));
      assert forall j :: 0 <= j < |v.progressiveStreams| ==> Heights(v.progressiveStreams)[j] <= Heights(v.progressiveStreams)[k];
      Some(v.progressiveStreams[k])
    else None
  }

  /**
   * The stream the player picks for a video as discord_bot.py is written:
   * the best audio-only stream under text order of the `abr` labels if there
   * is any, otherwise the best progressive stream under text order of the
   * `resolution` labels, otherwise none.
   */
  function PreferredStreamAsWritten(v: Video): (s: Option<Stream>)
    ensures s.None? <==> v.audioStreams == [] && v.progressiveStreams == []
    ensures v.audioStreams != [] ==>
              s.Some? && exists k :: IsFirstMaxStr(Abrs(v.audioStreams), k) && s.value == v.audioStreams[k]
    ensures v.audioStreams == [] && s.Some? ==>
              exists k :: IsFirstMaxStr(Resolutions(v.progressiveStreams), k) && s.value == v.progressiveStreams[k]
  {
    if v.audioStreams != [] then Some(v.audioStreams[FirstMaxStr(Abrs(v.audioStreams))])
    else if v.progressiveStreams != [] then Some(v.progressiveStreams[FirstMaxStr(Resolutions(v.progressiveStreams))])
    else None
  }

  /** The two preferences part ways on "160kbps" and "70kbps": as written the 70 kbps stream is played. */
  lemma PreferredStreamsDisagree(v: Video)
    requires v.audioStreams == [Stream("160kbps", "", "high"), Stream("70kbps", "", "low")]
    ensures PreferredStreamAsWritten(v) == Some(Stream("70kbps", "", "low"))
    ensures PreferredStream(v) == Some(Stream("160kbps", "", "high"))
  {
    AbrLabelsCompareAsText();
  }

  /** The digits in front of a unit are the label's digit prefix. */
  lemma {:induction false} DigitPrefixOfLabel(digits: string, unit: string)
    requires forall i :: 0 <= i < |digits| ==> IsDigit(digits[i])
    requires unit != [] && !IsDigit(unit[0])
    ensures DigitPrefix(digits + unit) == digits
    decreases |digits|
  {
    if digits != [] {
      assert (digits + unit)[1..] == digits[1..] + unit;
      DigitPrefixOfLabel(digits[1..], unit);
      assert [digits[0]] + digits[1..] == digits;
    } else {
      assert digits + unit == unit;
    }
  }

  lemma BitrateLabelValues()
    ensures LeadingNumber("160kbps") == 160 && LeadingNumber("70kbps") == 70
  {
    LeadingNumber160kbps();
    LeadingNumber70kbps();
  }

  lemma ResolutionLabelValues()
    ensures LeadingNumber("1080p") == 1080 && LeadingNumber("720p") == 720
  {
    LeadingNumber1080p();
    LeadingNumber720p();
  }

  lemma LeadingNumber160kbps()
    ensures LeadingNumber("160kbps") == 160
  {
    assert "160kbps" == "160" + "kbps";
    DigitPrefixOfLabel("160", "kbps");
    assert "160"[..2] == "16" && "16"[..1] == "1" && "1"[..0] == "";
  }

  lemma LeadingNumber70kbps()
    ensures LeadingNumber("70kbps") == 70
  {
    assert "70kbps" == "70" + "kbps";
    DigitPrefixOfLabel("70", "kbps");
    assert "70"[..1] == "7" && "7"[..0] == "";
  }

  lemma LeadingNumber1080p()
    ensures LeadingNumber("1080p") == 1080
  {
    assert "1080p" == "1080" + "p";
    DigitPrefixOfLabel("1080", "p");
    assert "1080"[..3] == "108" && "108"[..2] == "10" && "10"[..1] == "1" && "1"[..0] == "";
  }

  lemma LeadingNumber720p()
    ensures LeadingNumber("720p") == 720
  {
    assert "720p" == "720" + "p";
    DigitPrefixOfLabel("720", "p");
    assert "720"[..2] == "72" && "72"[..1] == "7" && "7"[..0] == "";
  }

  /**
   * Two keys in text order whose numbers run the other way: the text scan
   * keeps the second, the numeric scan the first.
   */
  lemma TextOrderAgainstNumbers(keys: seq<string>, nums: seq<int>)
    requires |keys| == 2 && |nums| == 2
    requires StrLess(keys[0], keys[1]) && nums[0] > nums[1]
    ensures forall k :: IsFirstMaxStr(keys, k) <==> k == 1
    ensures FirstMaxNum(nums) == 0
  {
    assert keys == [keys[0], keys[1]];
    TextScanKeepsSecond(keys[0], keys[1]);
    FirstMaxNumUnique(nums, 0, FirstMaxNum(nums));
  }

  /** Two labels in text order: `lo` sorts after `hi`, so the text scan over `[hi, lo]` keeps position 1 and no other. */
  lemma {:induction false} TextScanKeepsSecond(hi: string, lo: string)
    requires StrLess(hi, lo)
    ensures forall k :: IsFirstMaxStr([hi, lo], k) <==> k == 1
  {
    StrLessAsymmetric(hi, lo);
    StrLessIrreflexive(lo);
    assert IsFirstMaxStr([hi, lo], 1);
    forall k | IsFirstMaxStr([hi, lo], k) ensures k == 1 {
      FirstMaxStrUnique([hi, lo], k, 1);
    }
  }

  /** With the labels "160kbps" and "70kbps", the scan as written keeps the 70 kbps stream; by bitrate it is the 160 kbps one. */
  lemma AbrLabelsCompareAsText()
    ensures var s := [Stream("160kbps", "", "high"), Stream("70kbps", "", "low")];
      (forall k :: IsFirstMaxStr(Abrs(s), k) <==> k == 1)
      && FirstMaxNum(Bitrates(s)) == 0
  {
    var s := [Stream("160kbps", "", "high"), Stream("70kbps", "", "low")];
    BitrateLabelValues();
    assert StrLess("160kbps", "70kbps");
    TextOrderAgainstNumbers(Abrs(s), Bitrates(s));
  }

  /** With the labels "1080p" and "720p", the scan as written keeps the 720p stream; by resolution it is the 1080p one. */
  lemma ResolutionLabelsCompareAsText()
    ensures var s := [Stream("", "1080p", "high"), Stream("", "720p", "low")];
      (forall k :: IsFirstMaxStr(Resolutions(s), k) <==> k == 1)
      && FirstMaxNum(Heights(s)) == 0
  {
    var s := [Stream("", "1080p", "high"), Stream("", "720p", "low")];
    ResolutionLabelValues();
    assert StrLess("1080p", "720p");
    TextOrderAgainstNumbers(Resolutions(s), Heights(s));
  }
}
