/**
 * The slide-outline store: `parseSlides` turns the model's outline text into
 * numbered slides, and the store keeps the generated decks, newest first,
 * together with the id of the deck being edited.
 */
module Slides {
  import opened Wrappers
  import opened Outline
  import Seqs

  datatype SlideItem = SlideItem(id: string, order: nat, title: string, bullets: seq<string>)

  datatype SlideDeck = SlideDeck(
    id: string,
    classId: Option<string>,
    title: string,
    topic: string,
    rawOutline: string,
    slides: seq<SlideItem>,
    createdAt: string)

  /** At most this many slides are parsed from one outline. */
  const MaxSlides: nat := 12

  /** The bullets every parsed slide starts with. */
  const ParsedBullets: seq<string> := ["핵심 개념 정리", "예시 또는 사례", "발표 시 강조 포인트"]

  const FallbackFirstTitle: string := "도입"
  const FallbackFirstBullets: seq<string> := ["주제 배경", "문제 정의", "목표"]
  const FallbackSecondTitle: string := "핵심 내용"
  const FallbackSecondBullets: seq<string> := ["핵심 아이디어 1", "핵심 아이디어 2", "핵심 아이디어 3"]

  /** Slide k (from 0) gets the k-th generated id, order k + 1, the k-th title and the fixed bullets. */
  function Numbered(titles: seq<string>, ids: seq<string>): (r: seq<SlideItem>)
    requires |titles| <= |ids|
    ensures |r| == |titles|
    ensures forall k :: 0 <= k < |r| ==> r[k] == SlideItem(ids[k], k + 1, titles[k], ParsedBullets)
  {
    if titles == [] then []
    else
      var n := |titles| - 1;
      assert forall k :: 0 <= k < n ==> titles[..n][k] == titles[k];
      Numbered(titles[..n], ids) + [SlideItem(ids[n], n + 1, titles[n], ParsedBullets)]
  }

  lemma NumberedSnoc(titles: seq<string>, t: string, ids: seq<string>)
    requires |titles| < |ids|
    ensures Numbered(titles + [t], ids) == Numbered(titles, ids) + [SlideItem(ids[|titles|], |titles| + 1, t, ParsedBullets)]
  {
    assert (titles + [t])[..|titles|] == titles;
  }

  /** The two slides returned when no line of the outline yields a title. */
  function FallbackSlides(ids: seq<string>): seq<SlideItem>
    requires |ids| >= 2
  {
    [SlideItem(ids[0], 1, FallbackFirstTitle, FallbackFirstBullets),
     SlideItem(ids[1], 2, FallbackSecondTitle, FallbackSecondBullets)]
  }

  /**
   * The slides made from the outline's entries: the first twelve entries as
   * numbered slides, or the two fallback slides when there is no entry.
   */
  function SlidesFromEntries(entries: seq<string>, ids: seq<string>): (r: seq<SlideItem>)
    requires |ids| >= MaxSlides
    requires forall k :: 0 <= k < |entries| ==> IsEntry(entries[k])
    ensures 1 <= |r| <= MaxSlides
    ensures forall k :: 0 <= k < |r| ==> r[k].order == k + 1 && r[k].id == ids[k]
    ensures entries == [] ==> r == FallbackSlides(ids)
    ensures entries != [] ==> |r| == if |entries| <= MaxSlides then |entries| else MaxSlides
    ensures entries != [] ==>
      forall k :: 0 <= k < |r| ==>
        r[k].title == entries[k] && IsEntry(r[k].title) && r[k].bullets == ParsedBullets
  {
    var titles := Take(entries, MaxSlides);
    if titles == [] then FallbackSlides(ids)
    else
      var r := Numbered(titles, ids);
      assert forall k :: 0 <= k < |r| ==> titles[k] == entries[k];
      r
  }

  /** What `parseSlides(raw)` returns when its successive `uid()` calls yield `ids`. */
  function ParsedSlides(raw: string, ids: seq<string>): (r: seq<SlideItem>)
    requires |ids| >= MaxSlides
  {
    SlidesFromEntries(Entries(NonBlankLines(raw)), ids)
  }

  /** The loop state of `parseSlides` after the first `i` lines: one slide per entry so far. */
  ghost predicate ParseInv(lines: seq<string>, i: nat, slides: seq<SlideItem>, ids: seq<string>)
    requires i <= |lines| && |ids| >= MaxSlides
  {
    var taken := Entries(lines[..i]);
    |taken| <= MaxSlides && slides == Numbered(taken, ids)
  }

  /** One more line keeps the loop state when it yields no title, and adds a slide when it does. */
  lemma ParseStep(lines: seq<string>, i: nat, slides: seq<SlideItem>, ids: seq<string>)
    requires i < |lines| && |ids| >= MaxSlides
    requires ParseInv(lines, i, slides, ids) && |slides| < MaxSlides
    ensures Normalize(lines[i]) == [] ==> ParseInv(lines, i + 1, slides, ids)
    ensures Normalize(lines[i]) != [] ==>
      ParseInv(lines, i + 1, slides + [SlideItem(ids[|slides|], |slides| + 1, Normalize(lines[i]), ParsedBullets)], ids)
  {
    EntriesSnoc(lines, i);
    var taken := Entries(lines[..i]);
    if Normalize(lines[i]) != [] {
      NumberedSnoc(taken, Normalize(lines[i]), ids);
    }
  }

  /** Once twelve slides are made, the remaining lines change nothing. */
  lemma ParseFull(lines: seq<string>, i: nat, slides: seq<SlideItem>, ids: seq<string>)
    requires i <= |lines| && |ids| >= MaxSlides
    requires ParseInv(lines, i, slides, ids) && |slides| >= MaxSlides
    ensures slides == Numbered(Take(Entries(lines), MaxSlides), ids)
  {
    EntriesPrefix(lines, i);
    TakeFull(Entries(lines[..i]), Entries(lines), MaxSlides);
  }

  /** After the last line the slides are those of the first twelve entries. */
  lemma ParseEnd(lines: seq<string>, slides: seq<SlideItem>, ids: seq<string>)
    requires |ids| >= MaxSlides
    requires ParseInv(lines, |lines|, slides, ids)
    ensures slides == Numbered(Take(Entries(lines), MaxSlides), ids)
  {
    assert lines[..|lines|] == lines;
  }

  /** The fallback applies exactly when no slide was made. */
  lemma ParseFallback(lines: seq<string>, slides: seq<SlideItem>, ids: seq<string>)
    requires |ids| >= MaxSlides
    requires slides == Numbered(Take(Entries(lines), MaxSlides), ids)
    ensures (if slides == [] then FallbackSlides(ids) else slides) == SlidesFromEntries(Entries(lines), ids)
  {
  }

  /**
   * The loop of `parseSlides` over the outline's lines; `ids` supplies the
   * `uid()` results in call order.
   */
  method CollectSlides(lines: seq<string>, ids: seq<string>) returns (slides: seq<SlideItem>)
    requires |ids| >= MaxSlides
    ensures slides == Numbered(Take(Entries(lines), MaxSlides), ids)
  {
    slides := [];
    var order := 1;
    ghost var full := false;
    for i := 0 to |lines|
      invariant ParseInv(lines, i, slides, ids)
      invariant order == |slides| + 1
      invariant !full
    {
      if |slides| >= MaxSlides {
        ParseFull(lines, i, slides, ids);
        full := true;
        break;
      }
      ParseStep(lines, i, slides, ids);
      var title := Normalize(lines[i]);
      if title == [] {
        continue;
      }
      slides := slides + [SlideItem(ids[order - 1], order, title, ParsedBullets)];
      order := order + 1;
    }
    if !full {
      ParseEnd(lines, slides, ids);
    }
  }

  /** `parseSlides`: the outline's slides, or the two fallback slides when it yields none. */
  method ParseSlides(raw: string, ids: seq<string>) returns (slides: seq<SlideItem>)
    requires |ids| >= MaxSlides
    ensures slides == ParsedSlides(raw, ids)
  {
    var lines := NonBlankLines(raw);
    slides := CollectSlides(lines, ids);
    ParseFallback(lines, slides, ids);
    if slides == [] {
      slides := [SlideItem(ids[0], 1, FallbackFirstTitle, FallbackFirstBullets),
                 SlideItem(ids[1], 2, FallbackSecondTitle, FallbackSecondBullets)];
    }
  }

  /** The fields an `updateSlide` patch may carry; an absent field is left as it is. */
  datatype SlidePatch = SlidePatch(title: Option<string>, bullets: Option<seq<string>>)

  /** `{ ...slide, ...patch }` */
  function PatchSlide(s: SlideItem, patch: SlidePatch): SlideItem {
    s.(title := if patch.title.Some? then patch.title.value else s.title,
       bullets := if patch.bullets.Some? then patch.bullets.value else s.bullets)
  }

  /** The decks after `updateSlide(deckId, slideId, patch)`. */
  function PatchDecks(decks: seq<SlideDeck>, deckId: string, slideId: string, patch: SlidePatch): seq<SlideDeck> {
    Seqs.Update(decks, (d: SlideDeck) => d.id == deckId,
      (d: SlideDeck) => d.(slides := Seqs.Update(d.slides, (s: SlideItem) => s.id == slideId, (s: SlideItem) => PatchSlide(s, patch))))
  }

  /** The decks after `removeDeck(deckId)`. */
  function RemainingDecks(decks: seq<SlideDeck>, deckId: string): seq<SlideDeck> {
    Seqs.Filter(decks, (d: SlideDeck) => d.id != deckId)
  }

  /** The active id after removing `deckId`: the new head's id (or none) if the removed deck was active. */
  function ActiveAfterRemoval(remaining: seq<SlideDeck>, active: Option<string>, deckId: string): Option<string> {
    if active == Some(deckId) then (if remaining == [] then None else Some(remaining[0].id)) else active
  }

  /** `getActiveDeck`: no active deck for a missing or empty active id, else the first deck with that id. */
  function ActiveDeckOf(decks: seq<SlideDeck>, active: Option<string>): (r: Option<SlideDeck>)
    ensures r.Some? <==> active.Some? && active.value != [] && exists i :: 0 <= i < |decks| && decks[i].id == active.value
    ensures r.Some? ==> r.value in decks && r.value.id == active.value
  {
    if active.None? || active.value == [] then None
    else Seqs.Find(decks, (d: SlideDeck) => d.id == active.value)
  }

  /** Removing an id no deck has changes nothing. */
  lemma RemoveDeckUnknown(decks: seq<SlideDeck>, deckId: string)
    requires forall i :: 0 <= i < |decks| ==> decks[i].id != deckId
    ensures RemainingDecks(decks, deckId) == decks
  {
    Seqs.FilterKeepsAll(decks, (d: SlideDeck) => d.id != deckId);
  }

  /** Removing the same deck twice is removing it once. */
  lemma RemoveDeckIdempotent(decks: seq<SlideDeck>, deckId: string)
    ensures RemainingDecks(RemainingDecks(decks, deckId), deckId) == RemainingDecks(decks, deckId)
  {
    Seqs.FilterIdempotent(decks, (d: SlideDeck) => d.id != deckId);
  }

  /**
   * If the active id named a deck, it still names one after a removal (or
   * there are no decks left); when the active deck was not the one removed,
   * the active id is unchanged.
   */
  lemma RemoveDeckKeepsActive(decks: seq<SlideDeck>, active: Option<string>, deckId: string)
    requires active.Some? ==> exists i :: 0 <= i < |decks| && decks[i].id == active.value
    ensures var remaining := RemainingDecks(decks, deckId);
      var next := ActiveAfterRemoval(remaining, active, deckId);
      (next.Some? ==> exists i :: 0 <= i < |remaining| && remaining[i].id == next.value)
      && (next.None? ==> active.None? || remaining == [])
      && (active != Some(deckId) ==> next == active)
  {
    var remaining := RemainingDecks(decks, deckId);
    var next := ActiveAfterRemoval(remaining, active, deckId);
    if active.Some? && active != Some(deckId) {
      var i :| 0 <= i < |decks| && decks[i].id == active.value;
      assert decks[i] in remaining;
    }
  }

  /** A patch touches only the matched slide of the matched deck, and only its title and bullets. */
  lemma PatchDecksOnlyTarget(decks: seq<SlideDeck>, deckId: string, slideId: string, patch: SlidePatch)
    ensures var r := PatchDecks(decks, deckId, slideId, patch);
      |r| == |decks|
      && forall i :: 0 <= i < |decks| ==>
        (decks[i].id != deckId ==> r[i] == decks[i])
        && (decks[i].id == deckId ==>
          r[i] == decks[i].(slides := r[i].slides) && |r[i].slides| == |decks[i].slides|
          && forall j :: 0 <= j < |decks[i].slides| ==>
            var s := decks[i].slides[j];
            r[i].slides[j] == (if s.id == slideId then PatchSlide(s, patch) else s)
            && r[i].slides[j].id == s.id && r[i].slides[j].order == s.order)
  {
  }

  /** Applying the same patch twice is applying it once. */
  lemma PatchDecksIdempotent(decks: seq<SlideDeck>, deckId: string, slideId: string, patch: SlidePatch)
    ensures PatchDecks(PatchDecks(decks, deckId, slideId, patch), deckId, slideId, patch) == PatchDecks(decks, deckId, slideId, patch)
  {
    var once := PatchDecks(decks, deckId, slideId, patch);
    var twice := PatchDecks(once, deckId, slideId, patch);
    forall i | 0 <= i < |decks| ensures twice[i] == once[i] {
      if decks[i].id == deckId {
        assert twice[i].slides == once[i].slides;
      }
    }
  }

  /** The slide-deck store: decks newest first and the id of the deck being edited. */
  class SlidesStore {
    var decks: seq<SlideDeck>
    var activeDeckId: Option<string>

    constructor()
      ensures decks == [] && activeDeckId == None
    {
      decks := [];
      activeDeckId := None;
    }

    /**
     * `createDeck`: `deckId` is the first `uid()` result, `slideIds` the ones
     * `parseSlides` draws after it, `now` the creation time.
     */
    method CreateDeck(classId: Option<string>, title: string, topic: string, rawOutline: string,
                      deckId: string, slideIds: seq<string>, now: string) returns (id: string)
      requires |slideIds| >= MaxSlides
      modifies this
      ensures id == deckId
      ensures decks == [SlideDeck(deckId, classId, title, topic, rawOutline, ParsedSlides(rawOutline, slideIds), now)] + old(decks)
      ensures activeDeckId == Some(deckId)
    {
      var slides := ParseSlides(rawOutline, slideIds);
      var deck := SlideDeck(deckId, classId, title, topic, rawOutline, slides, now);
      decks := [deck] + decks;
      activeDeckId := Some(deckId);
      id := deckId;
    }

    /** `setActiveDeck`: any id is accepted, whether or not a deck has it. */
    method SetActiveDeck(deckId: string)
      modifies this
      ensures activeDeckId == Some(deckId) && decks == old(decks)
    {
      activeDeckId := Some(deckId);
    }

    /** `removeDeck` */
    method RemoveDeck(deckId: string)
      modifies this
      ensures decks == RemainingDecks(old(decks), deckId)
      ensures activeDeckId == ActiveAfterRemoval(decks, old(activeDeckId), deckId)
    {
      var next := RemainingDecks(decks, deckId);
      var nextActive := if activeDeckId == Some(deckId) then (if next == [] then None else Some(next[0].id)) else activeDeckId;
      decks := next;
      activeDeckId := nextActive;
    }

    /** `updateSlide` */
    method UpdateSlide(deckId: string, slideId: string, patch: SlidePatch)
      modifies this
      ensures decks == PatchDecks(old(decks), deckId, slideId, patch)
      ensures activeDeckId == old(activeDeckId)
    {
      decks := PatchDecks(decks, deckId, slideId, patch);
    }

    /** `getActiveDeck` */
    function ActiveDeck(): (r: Option<SlideDeck>)
      reads this
      ensures r.Some? ==> r.value in decks && activeDeckId == Some(r.value.id)
      ensures r.None? <==> activeDeckId.None? || activeDeckId.value == [] || forall i :: 0 <= i < |decks| ==> decks[i].id != activeDeckId.value
    {
      ActiveDeckOf(decks, activeDeckId)
    }
  }
}
