/**
 * YouTube link handling: finding the video id in a pasted link, and the
 * caption result built around it, including the `[m:ss] text` transcript.
 */
module YouTube {
  import opened Wrappers
  import opened Text
  import Seqs

  /** The character class `[a-zA-Z0-9_-]` of video ids. */
  predicate IsIdChar(c: char) {
    ('a' <= c <= 'z') || ('A' <= c <= 'Z') || ('0' <= c <= '9') || c == '_' || c == '-'
  }

  /** The quantifier `{6,}`: an id is at least this long. */
  const MinIdLength: nat := 6

  const WatchPrefix: string := "youtube.com/watch?v="
  const ShortLinkPrefix: string := "youtu.be/"
  const ShortsPrefix: string := "youtube.com/shorts/"

  /** The three link shapes, in the order they are tried. */
  const Prefixes: seq<string> := [WatchPrefix, ShortLinkPrefix, ShortsPrefix]

  /** The longest run of id characters starting at position k (a greedy `[a-zA-Z0-9_-]+`). */
  function IdRun(s: string, k: nat): (r: string)
    requires k <= |s|
    ensures k + |r| <= |s| && r == s[k..k + |r|]
    ensures forall i :: 0 <= i < |r| ==> IsIdChar(r[i])
    ensures k + |r| == |s| || !IsIdChar(s[k + |r|])
    decreases |s| - k
  {
    if k < |s| && IsIdChar(s[k]) then
      var rest := IdRun(s, k + 1);
      assert s[k..k + 1 + |rest|] == [s[k]] + s[k + 1..k + 1 + |rest|];
      [s[k]] + rest
    else []
  }

  /** The pattern `prefix([a-zA-Z0-9_-]{6,})` matches at position p. */
  predicate MatchesAt(s: string, prefix: string, p: nat)
    requires p <= |s|
  {
    p + |prefix| <= |s| && s[p..p + |prefix|] == prefix && |IdRun(s, p + |prefix|)| >= MinIdLength
  }

  /** The leftmost position at or after p where the pattern matches, as an unanchored search finds it. */
  function SearchFrom(s: string, prefix: string, p: nat): (r: Option<nat>)
    requires p <= |s|
    ensures r.None? <==> forall q :: p <= q <= |s| ==> !MatchesAt(s, prefix, q)
    ensures r.Some? ==> p <= r.value <= |s| && MatchesAt(s, prefix, r.value)
    ensures r.Some? ==> forall q :: p <= q < r.value ==> !MatchesAt(s, prefix, q)
    decreases |s| - p
  {
    if MatchesAt(s, prefix, p) then Some(p)
    else if p == |s| then None
    else SearchFrom(s, prefix, p + 1)
  }

  /** `s.match(pattern)?.[1]` for the pattern built on `prefix`: the id run after the leftmost match. */
  function MatchPattern(s: string, prefix: string): Option<string> {
    var q := SearchFrom(s, prefix, 0);
    if q.None? then None else Some(IdRun(s, q.value + |prefix|))
  }

  /** The id found by the first pattern, in list order, that matches. */
  function FirstMatch(s: string, prefixes: seq<string>): Option<string> {
    if prefixes == [] then None
    else
      var m := MatchPattern(s, prefixes[0]);
      if m.Some? then m else FirstMatch(s, prefixes[1..])
  }

  /** What `extractYouTubeId` returns: nothing for blank input, else the first pattern's match on the trimmed text. */
  function YouTubeIdOf(url: string): Option<string> {
    var trimmed := Trim(url);
    if trimmed == [] then None else FirstMatch(trimmed, Prefixes)
  }

  /** `extractYouTubeId`: trims, then tries the patterns in order and returns at the first match. */
  method ExtractYouTubeId(url: string) returns (r: Option<string>)
    ensures r == YouTubeIdOf(url)
  {
    var trimmed := Trim(url);
    if trimmed == [] {
      return None;
    }
    var i := 0;
    while i < |Prefixes|
      invariant 0 <= i <= |Prefixes|
      invariant FirstMatch(trimmed, Prefixes[i..]) == FirstMatch(trimmed, Prefixes)
    {
      var m := MatchPattern(trimmed, Prefixes[i]);
      if m.Some? {
        return m;
      }
      assert Prefixes[i..][1..] == Prefixes[i + 1..];
      i := i + 1;
    }
    return None;
  }

  /** The word w occurs in s at position j. */
  predicate OccursAt(s: string, w: string, j: int) {
    0 <= j && j + |w| <= |s| && s[j..j + |w|] == w
  }

  /** Empty or whitespace-only input has no id. */
  lemma BlankHasNoId(url: string)
    requires IsBlank(url)
    ensures YouTubeIdOf(url) == None
  {
    TrimEmptyIffBlank(url);
  }

  /** A match is a run of at least six id characters that occurs in the searched text. */
  lemma {:induction false} FirstMatchShape(s: string, prefixes: seq<string>)
    ensures var r := FirstMatch(s, prefixes);
      r.Some? ==>
        |r.value| >= MinIdLength && (forall i :: 0 <= i < |r.value| ==> IsIdChar(r.value[i]))
        && exists j :: OccursAt(s, r.value, j)
  {
    if prefixes != [] {
      var q := SearchFrom(s, prefixes[0], 0);
      if q.Some? {
        assert OccursAt(s, FirstMatch(s, prefixes).value, q.value + |prefixes[0]|);
      } else {
        FirstMatchShape(s, prefixes[1..]);
      }
    }
  }

  /** A found id has only id characters, is at least six long, and occurs in the trimmed input. */
  lemma IdShape(url: string)
    ensures var r := YouTubeIdOf(url);
      r.Some? ==>
        |r.value| >= MinIdLength && (forall i :: 0 <= i < |r.value| ==> IsIdChar(r.value[i]))
        && exists j :: OccursAt(Trim(url), r.value, j)
  {
    var t := Trim(url);
    if t != [] {
      FirstMatchShape(t, Prefixes);
    }
  }

  /** The first pattern that matches decides the id, whatever the later patterns would find. */
  lemma {:induction false} FirstPatternWins(s: string, prefixes: seq<string>, k: nat)
    requires k < |prefixes| && MatchPattern(s, prefixes[k]).Some?
    requires forall j :: 0 <= j < k ==> MatchPattern(s, prefixes[j]).None?
    ensures FirstMatch(s, prefixes) == MatchPattern(s, prefixes[k])
  {
    if k > 0 {
      assert MatchPattern(s, prefixes[0]).None?;
      forall j | 0 <= j < k - 1 ensures MatchPattern(s, prefixes[1..][j]).None? {
        assert prefixes[1..][j] == prefixes[j + 1];
      }
      FirstPatternWins(s, prefixes[1..], k - 1);
    }
  }

  /** No id is found exactly when no pattern matches. */
  lemma {:induction false} NoPatternNoId(s: string, prefixes: seq<string>)
    ensures FirstMatch(s, prefixes).None? <==> forall j :: 0 <= j < |prefixes| ==> MatchPattern(s, prefixes[j]).None?
  {
    if prefixes != [] {
      NoPatternNoId(s, prefixes[1..]);
      if MatchPattern(s, prefixes[0]).None? {
        forall j | 0 < j < |prefixes| ensures prefixes[j] == prefixes[1..][j - 1] {
        }
      }
    }
  }

  /** One caption segment: its start, in whole seconds, and its text. */
  datatype CaptionSegment = CaptionSegment(startSec: nat, text: string)

  datatype ExtractedCaptionResult = ExtractedCaptionResult(videoId: string, transcript: string, segments: seq<CaptionSegment>)

  const InvalidUrlMessage: string := "유효한 YouTube URL이 아닙니다."

  /** `m:ss` for a number of seconds: whole minutes, then the seconds of the minute on two digits. */
  function Timestamp(sec: nat): string {
    Decimal(sec / 60) + ":" + PadStart2(Decimal(sec % 60))
  }

  /** One transcript line: `[m:ss] text`. */
  function SegmentLine(seg: CaptionSegment): string {
    "[" + Timestamp(seg.startSec) + "] " + seg.text
  }

  /** The transcript: one line per segment, in order, joined by line feeds. */
  function Transcript(segments: seq<CaptionSegment>): string {
    Join(Seqs.Map(segments, SegmentLine), "\n")
  }

  /**
   * A timestamp reads back as the time it shows: its minutes part is the
   * decimal of the minutes, its seconds part is exactly two digits, and
   * minutes * 60 + seconds gives the start again.
   */
  lemma TimestampRoundTrip(sec: nat)
    ensures var m, ss := Decimal(sec / 60), PadStart2(Decimal(sec % 60));
      Timestamp(sec) == m + ":" + ss && |ss| == 2
      && (forall i :: 0 <= i < 2 ==> IsDigit(ss[i]))
      && DecimalValue(m) * 60 + DecimalValue(ss) == sec
  {
    var d := Decimal(sec % 60);
    DecimalRoundTrip(sec / 60);
    DecimalRoundTrip(sec % 60);
    DecimalBelowHundred(sec % 60);
    if sec % 60 < 10 {
      assert PadStart2(d) == ['0'] + d;
      LeadingZeroValue(d);
    } else {
      assert PadStart2(d) == d;
    }
  }

  /** Numbers below a hundred print as one digit below ten and as two digits otherwise. */
  lemma DecimalBelowHundred(n: nat)
    requires n < 100
    ensures |Decimal(n)| == if n < 10 then 1 else 2
  {
    if n >= 10 {
      assert Decimal(n) == Decimal(n / 10) + [DigitChar(n % 10)];
    }
  }

  /** A transcript line has a line feed only where its text has one. */
  lemma SegmentLineNoLineFeed(seg: CaptionSegment)
    requires '\n' !in seg.text
    ensures '\n' !in SegmentLine(seg)
  {
    var m, ss := Decimal(seg.startSec / 60), PadStart2(Decimal(seg.startSec % 60));
    TimestampRoundTrip(seg.startSec);
    assert SegmentLine(seg) == "[" + m + ":" + ss + "] " + seg.text;
    assert '\n' !in m;
    assert '\n' !in ss;
  }

  /** The transcript has one line per segment, when no segment text contains a line feed. */
  lemma TranscriptLines(segments: seq<CaptionSegment>)
    requires segments != []
    requires forall i :: 0 <= i < |segments| ==> '\n' !in segments[i].text
    ensures Split(Transcript(segments), '\n') == Seqs.Map(segments, SegmentLine)
  {
    var lines := Seqs.Map(segments, SegmentLine);
    forall i | 0 <= i < |lines| ensures '\n' !in lines[i] {
      SegmentLineNoLineFeed(segments[i]);
    }
    SplitJoin(lines, '\n');
  }

  /**
   * `extractCaptionsFromYouTubeUrl` over given segments: fails exactly when
   * no id is found; otherwise carries that id, the segments and their
   * transcript.
   */
  function ExtractCaptions(url: string, segments: seq<CaptionSegment>): (r: Result<ExtractedCaptionResult, string>)
    ensures r.Failure? <==> YouTubeIdOf(url).None?
    ensures r.Failure? ==> r.error == InvalidUrlMessage
    ensures r.Success? ==>
      r.value.videoId == YouTubeIdOf(url).value && r.value.segments == segments && r.value.transcript == Transcript(segments)
  {
    var videoId := YouTubeIdOf(url);
    if videoId.None? then Failure(InvalidUrlMessage)
    else Success(ExtractedCaptionResult(videoId.value, Transcript(segments), segments))
  }

  /** The sample captions that stand in for a real caption download. */
  const SampleSegments: seq<CaptionSegment> := [
    CaptionSegment(0, "오늘 강의 주제는 운영체제의 프로세스 스케줄링입니다."),
    CaptionSegment(18, "먼저 FCFS와 SJF를 비교하며 평균 대기 시간을 계산합니다."),
    CaptionSegment(41, "Round Robin에서는 타임퀀텀 설정이 응답 시간에 큰 영향을 줍니다."),
    CaptionSegment(65, "실무에서는 워크로드 특성에 따라 멀티레벨 큐를 함께 사용합니다.")
  ]

  /** `extractCaptionsFromYouTubeUrl` as the application runs it, with the sample captions. */
  function ExtractCaptionsFromYouTubeUrl(url: string): (r: Result<ExtractedCaptionResult, string>)
    ensures r.Failure? <==> YouTubeIdOf(url).None?
    ensures r.Failure? ==> r.error == InvalidUrlMessage
    ensures r.Success? ==>
      r.value.videoId == YouTubeIdOf(url).value && r.value.segments == SampleSegments
      && r.value.transcript == Transcript(SampleSegments)
  {
    ExtractCaptions(url, SampleSegments)
  }
}
