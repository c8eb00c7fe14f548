/**
 * The pure parts of the slide exporter: the plain-text rendering of a deck
 * and the file-name base derived from the deck's title.
 */
module SlideExport {
  import opened Text
  import opened Slides
  import Seqs

  /** One bullet line: `- ${bullet}`. */
  function BulletLine(bullet: string): string {
    "- " + bullet
  }

  /** A slide's header line: `# ${order}. ${title}`. */
  function HeaderLine(s: SlideItem): string {
    "# " + Decimal(s.order) + ". " + s.title
  }

  /** A slide's block: the header line, a line feed, then the bullet lines joined by line feeds. */
  function SlideBlock(s: SlideItem): string {
    HeaderLine(s) + "\n" + Join(Seqs.Map(s.bullets, BulletLine), "\n")
  }

  /** `buildPlainText`: the slides' blocks in deck order, separated by a blank line. */
  function BuildPlainText(deck: SlideDeck): (r: string)
    ensures deck.slides == [] ==> r == []
    ensures |deck.slides| == 1 ==> r == SlideBlock(deck.slides[0])
  {
    Join(Seqs.Map(deck.slides, SlideBlock), "\n\n")
  }

  /** The text of a deck is the first slide's block, then, if more follow, a blank line and the text of the rest. */
  lemma PlainTextCons(deck: SlideDeck)
    requires |deck.slides| >= 2
    ensures BuildPlainText(deck) == SlideBlock(deck.slides[0]) + "\n\n" + BuildPlainText(deck.(slides := deck.slides[1..]))
  {
    var blocks := Seqs.Map(deck.slides, SlideBlock);
    assert blocks[1..] == Seqs.Map(deck.slides[1..], SlideBlock);
  }

  /** A slide without bullets renders as its header line and a bare line feed. */
  lemma NoBulletsBlock(s: SlideItem)
    requires s.bullets == []
    ensures SlideBlock(s) == HeaderLine(s) + "\n"
  {
  }

  /**
   * When neither the title nor any bullet contains a line feed, the block's
   * lines are exactly the header line and one `- ` line per bullet, in order:
   * the rendering loses nothing.
   */
  lemma BlockLines(s: SlideItem)
    requires '\n' !in s.title
    requires forall i :: 0 <= i < |s.bullets| ==> '\n' !in s.bullets[i]
    ensures Split(SlideBlock(s), '\n') == [HeaderLine(s)] + (if s.bullets == [] then [[]] else Seqs.Map(s.bullets, BulletLine))
  {
    var h := HeaderLine(s);
    var lines := Seqs.Map(s.bullets, BulletLine);
    DecimalHasNoLineFeed(s.order);
    assert '\n' !in h by {
      assert h == "# " + Decimal(s.order) + ". " + s.title;
    }
    forall i | 0 <= i < |lines| ensures '\n' !in lines[i] {
      assert lines[i] == "- " + s.bullets[i];
    }
    if s.bullets == [] {
      SplitAround(h, '\n', []);
    } else {
      SplitAround(h, '\n', Join(lines, "\n"));
      SplitJoin(lines, '\n');
    }
  }

  lemma DecimalHasNoLineFeed(n: nat)
    ensures '\n' !in Decimal(n)
  {
    var d := Decimal(n);
    forall i | 0 <= i < |d| ensures d[i] != '\n' {
      assert IsDigit(d[i]);
    }
  }

  /** The characters a file-name base keeps: ASCII letters and digits, the Hangul syllables, '_' and '-'. */
  predicate IsFileNameChar(c: char) {
    ('a' <= c <= 'z') || ('A' <= c <= 'Z') || ('0' <= c <= '9') || ('가' <= c <= '힣') || c == '_' || c == '-'
  }

  /** `replace(/[^a-zA-Z0-9가-힣_-]/g, '_')` on one code unit. */
  function SanitizeChar(c: char): (r: char)
    ensures IsFileNameChar(r)
    ensures IsFileNameChar(c) ==> r == c
  {
    if IsFileNameChar(c) then c else '_'
  }

  /** At most this many code units of the sanitised title are kept. */
  const MaxBaseLength: nat := 32
  const DefaultBase: string := "slides"

  /** The sanitising replace: every code unit outside the allowed class becomes '_'. */
  function Sanitize(title: string): (r: string)
    ensures |r| == |title|
    ensures forall i :: 0 <= i < |r| ==> IsFileNameChar(r[i])
    ensures forall i :: 0 <= i < |r| ==> r[i] == SanitizeChar(title[i])
  {
    Seqs.Map(title, SanitizeChar)
  }

  /** `safeBase`: the sanitised title cut to 32 code units, or 'slides' when that is empty. */
  function SafeBase(title: string): (r: string)
    ensures 1 <= |r| <= MaxBaseLength
    ensures forall i :: 0 <= i < |r| ==> IsFileNameChar(r[i])
    ensures title != [] ==> r == SlicePrefix(Sanitize(title), MaxBaseLength)
    ensures title == [] ==> r == DefaultBase
  {
    var cut := SlicePrefix(Sanitize(title), MaxBaseLength);
    if cut == [] then DefaultBase else cut
  }

  /** A string already made of allowed characters is its own sanitisation. */
  lemma SanitizeKeepsAllowed(s: string)
    requires forall i :: 0 <= i < |s| ==> IsFileNameChar(s[i])
    ensures Sanitize(s) == s
  {
  }

  /** Sanitising an already safe base changes nothing. */
  lemma SafeBaseIdempotent(title: string)
    ensures SafeBase(SafeBase(title)) == SafeBase(title)
  {
    var b := SafeBase(title);
    SanitizeKeepsAllowed(b);
    assert SlicePrefix(b, MaxBaseLength) == b;
  }
}
