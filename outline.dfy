/**
 * The line normalisation shared by the slide-outline and problem parsers:
 * split the model's text into lines, trim them, drop the blank ones, then
 * strip the leading list marker (the regular expression `/^[-*\d.\s]+/`) and
 * trim again.
 */
module Outline {
  import opened Text
  import Seqs

  /** The character class `[-*\d.\s]`: '-', '*', an ASCII digit, '.', or whitespace. */
  predicate IsMarkerChar(c: char) {
    c == '-' || c == '*' || IsDigit(c) || c == '.' || IsWhitespace(c)
  }

  /** `s.replace(/^[-*\d.\s]+/, '')`: drop the longest prefix of marker characters. */
  function StripMarkers(s: string): (r: string)
    ensures |r| <= |s|
    ensures r == [] || !IsMarkerChar(r[0])
  {
    if s != [] && IsMarkerChar(s[0]) then StripMarkers(s[1..]) else s
  }

  /** What StripMarkers keeps is a suffix, and every character it drops is a marker character. */
  lemma {:induction false} StripMarkersSplits(s: string)
    ensures s == s[..|s| - |StripMarkers(s)|] + StripMarkers(s)
    ensures forall i :: 0 <= i < |s| - |StripMarkers(s)| ==> IsMarkerChar(s[i])
  {
    if s != [] && IsMarkerChar(s[0]) {
      StripMarkersSplits(s[1..]);
      assert forall i :: 1 <= i < |s| - |StripMarkers(s)| ==> s[i] == s[1..][i - 1];
    }
  }

  /** `line.replace(/^[-*\d.\s]+/, '').trim()`: the entry text of one line. */
  function Normalize(line: string): (r: string)
    ensures r == [] || IsEntry(r)
    ensures r != [] ==> !IsWhitespace(r[|r| - 1])
  {
    var stripped := StripMarkers(line);
    if stripped == [] then Trim(stripped)
    else
      assert TrimStart(stripped) == stripped;
      TrimEndSplits(stripped);
      Trim(stripped)
  }

  /**
   * The entry is the middle of the line: what comes before it is marker
   * characters only, and what comes after it is whitespace only.
   */
  lemma NormalizeSplits(line: string)
    ensures exists a, b ::
      line == a + Normalize(line) + b && (forall i :: 0 <= i < |a| ==> IsMarkerChar(a[i])) && IsBlank(b)
  {
    var k := NormalizeAt(line);
    var a, n, b := line[..k], Normalize(line), line[k + |Normalize(line)|..];
    assert line == a + n + b by {
      assert line == line[..k] + line[k..k + |n|] + line[k + |n|..];
    }
  }

  /** Where the entry sits in the line, as an index: markers before it, whitespace after it. */
  lemma NormalizeAt(line: string) returns (k: nat)
    ensures k + |Normalize(line)| <= |line| && line[k..k + |Normalize(line)|] == Normalize(line)
    ensures forall i :: 0 <= i < k ==> IsMarkerChar(line[i])
    ensures IsBlank(line[k + |Normalize(line)|..])
  {
    var stripped := StripMarkers(line);
    StripMarkersSplits(line);
    TrimEndSplits(stripped);
    assert TrimStart(stripped) == stripped;
    assert Normalize(line) == TrimEnd(stripped);
    k := |line| - |stripped|;
    assert line[k..] == stripped;
    assert line[k + |Normalize(line)|..] == stripped[|TrimEnd(stripped)|..];
  }

  /** A numbered line "d. text" normalises to its text. */
  lemma NormalizeNumbered(line: string, d: char, text: string)
    requires IsDigit(d) && line == [d, '.', ' '] + text
    requires text != [] && !IsMarkerChar(text[0]) && !IsWhitespace(text[|text| - 1])
    ensures Normalize(line) == text
  {
    var l1 := ['.', ' '] + text;
    var l2 := [' '] + text;
    assert line[1..] == l1 && l1[1..] == l2 && l2[1..] == text;
    assert StripMarkers(l2) == text;
    assert StripMarkers(l1) == StripMarkers(l2);
    assert StripMarkers(line) == StripMarkers(l1);
    assert TrimStart(text) == text;
    assert TrimEnd(text) == text;
  }

  /** A line made only of marker characters (a bare "-", "1.", "* ") yields no entry. */
  lemma {:induction false} NormalizeMarkerOnly(line: string)
    requires forall i :: 0 <= i < |line| ==> IsMarkerChar(line[i])
    ensures Normalize(line) == []
  {
    StripMarkersAll(line);
  }

  lemma {:induction false} StripMarkersAll(s: string)
    requires forall i :: 0 <= i < |s| ==> IsMarkerChar(s[i])
    ensures StripMarkers(s) == []
  {
    if s != [] {
      assert forall i :: 0 <= i < |s[1..]| ==> s[1..][i] == s[i + 1];
      StripMarkersAll(s[1..]);
    }
  }

  predicate NonEmpty(s: string) {
    s != []
  }

  /** The pieces, each trimmed, with the empty ones dropped. */
  function TrimmedLines(pieces: seq<string>): (r: seq<string>)
    ensures |r| <= |pieces|
    ensures forall k :: 0 <= k < |r| ==> r[k] != []
  {
    if pieces == [] then []
    else
      var t := Trim(pieces[0]);
      (if t == [] then [] else [t]) + TrimmedLines(pieces[1..])
  }

  /** Trimming then dropping the empty pieces is the map-then-filter of the source. */
  lemma {:induction false} TrimmedLinesAsFilter(pieces: seq<string>)
    ensures TrimmedLines(pieces) == Seqs.Filter(Seqs.Map(pieces, Trim), NonEmpty)
  {
    if pieces != [] {
      TrimmedLinesAsFilter(pieces[1..]);
      assert Seqs.Map(pieces, Trim)[1..] == Seqs.Map(pieces[1..], Trim);
    }
  }

  /** The lines of `raw`, split at line feeds, trimmed, blank ones dropped. */
  function NonBlankLines(raw: string): seq<string> {
    TrimmedLines(Split(raw, '\n'))
  }

  /** An entry is non-empty and does not start with a marker character. */
  predicate IsEntry(s: string) {
    s != [] && !IsMarkerChar(s[0])
  }

  /** The entry of one line, if it has one. */
  function EntryOf(line: string): (r: seq<string>)
    ensures |r| <= 1
    ensures forall k :: 0 <= k < |r| ==> IsEntry(r[k])
  {
    var n := Normalize(line);
    if n == [] then [] else [n]
  }

  /** The entries the parsers keep, in line order: the non-empty normalised lines. */
  function Entries(lines: seq<string>): (r: seq<string>)
    ensures |r| <= |lines|
    ensures forall k :: 0 <= k < |r| ==> IsEntry(r[k])
  {
    if lines == [] then [] else Entries(lines[..|lines| - 1]) + EntryOf(lines[|lines| - 1])
  }

  /** Taking one more line adds that line's entry, if it has one, at the end. */
  lemma EntriesSnoc(lines: seq<string>, i: nat)
    requires i < |lines|
    ensures Entries(lines[..i + 1]) == Entries(lines[..i]) + EntryOf(lines[i])
  {
    assert lines[..i + 1][..i] == lines[..i];
  }

  /** The entries of a prefix of the lines are a prefix of the entries of all lines. */
  lemma {:induction false} EntriesPrefix(lines: seq<string>, i: nat)
    requires i <= |lines|
    ensures Entries(lines[..i]) <= Entries(lines)
  {
    if i < |lines| {
      EntriesPrefix(lines[..|lines| - 1], i);
      assert lines[..|lines| - 1][..i] == lines[..i];
    } else {
      assert lines[..i] == lines;
    }
  }

  /**
   * The entries are exactly `lines.map(normalize).filter(Boolean)`, the
   * source's own formulation as array combinators.
   */
  lemma {:induction false} EntriesAsFilter(lines: seq<string>)
    ensures Entries(lines) == Seqs.Filter(Seqs.Map(lines, Normalize), NonEmpty)
  {
    if lines != [] {
      var init, last := lines[..|lines| - 1], lines[|lines| - 1];
      assert lines == init + [last];
      EntriesAsFilter(init);
      Seqs.MapConcat(init, [last], Normalize);
      var a, b := Seqs.Map(init, Normalize), Seqs.Map([last], Normalize);
      Seqs.FilterConcat(a, b, NonEmpty);
      FilterOne(Normalize(last));
      assert b == [Normalize(last)];
    }
  }

  lemma FilterOne(n: string)
    ensures Seqs.Filter([n], NonEmpty) == if n == [] then [] else [n]
  {
    assert [n][1..] == [];
  }

  /** `s.slice(0, n)` on a list: at most the first n elements. */
  function Take<T>(xs: seq<T>, n: nat): (r: seq<T>)
    ensures |r| == if |xs| <= n then |xs| else n
    ensures forall i :: 0 <= i < |r| ==> r[i] == xs[i]
  {
    if |xs| <= n then xs else xs[..n]
  }

  /** Taking n elements of a list that starts with n given elements yields those. */
  lemma TakeFull<T>(a: seq<T>, b: seq<T>, n: nat)
    requires a <= b && |a| == n
    ensures Take(b, n) == a
  {
  }
}
