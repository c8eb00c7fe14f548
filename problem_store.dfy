/**
 * The practice-problem store: `parseProblems` turns the model's text into at
 * most five numbered prompts, and the store keeps the generated sets and the
 * submitted attempts, each newest first.
 */
module Problems {
  import opened Wrappers
  import opened Outline
  import Seqs

  datatype ProblemItem = ProblemItem(id: string, prompt: string, order: nat)

  datatype ProblemSet = ProblemSet(
    id: string,
    classId: Option<string>,
    title: string,
    topic: string,
    rawText: string,
    problems: seq<ProblemItem>,
    createdAt: string)

  /** An attempt stores what it is given: the answers by problem id, a score and feedback. */
  datatype ProblemAttempt = ProblemAttempt(
    id: string,
    setId: string,
    answers: map<string, string>,
    score: real,
    feedback: string,
    createdAt: string)

  /** At most this many problems are parsed from one text. */
  const MaxProblems: nat := 5

  const FallbackPrompt: string := "생성 결과를 파싱하지 못해 기본 문제를 생성했습니다. 핵심 개념을 설명하세요."

  /** Problem k (from 0) gets the k-th generated id, the k-th prompt and order k + 1. */
  function Enumerated(prompts: seq<string>, ids: seq<string>): (r: seq<ProblemItem>)
    requires |prompts| <= |ids|
    ensures |r| == |prompts|
    ensures forall k :: 0 <= k < |r| ==> r[k] == ProblemItem(ids[k], prompts[k], k + 1)
  {
    if prompts == [] then []
    else
      var n := |prompts| - 1;
      assert forall k :: 0 <= k < n ==> prompts[..n][k] == prompts[k];
      Enumerated(prompts[..n], ids) + [ProblemItem(ids[n], prompts[n], n + 1)]
  }

  lemma EnumeratedSnoc(prompts: seq<string>, p: string, ids: seq<string>)
    requires |prompts| < |ids|
    ensures Enumerated(prompts + [p], ids) == Enumerated(prompts, ids) + [ProblemItem(ids[|prompts|], p, |prompts| + 1)]
  {
    assert (prompts + [p])[..|prompts|] == prompts;
  }

  /**
   * The problems made from the text's entries: the first five entries as
   * numbered problems, or the single fallback problem when there is no entry.
   */
  function ProblemsFromEntries(entries: seq<string>, ids: seq<string>): (r: seq<ProblemItem>)
    requires |ids| >= MaxProblems
    requires forall k :: 0 <= k < |entries| ==> IsEntry(entries[k])
    ensures 1 <= |r| <= MaxProblems
    ensures forall k :: 0 <= k < |r| ==> r[k].order == k + 1 && r[k].id == ids[k]
    ensures entries == [] ==> r == [ProblemItem(ids[0], FallbackPrompt, 1)]
    ensures entries != [] ==> |r| == if |entries| <= MaxProblems then |entries| else MaxProblems
    ensures entries != [] ==>
      forall k :: 0 <= k < |r| ==> r[k].prompt == entries[k] && IsEntry(r[k].prompt)
  {
    var prompts := Take(entries, MaxProblems);
    if prompts == [] then [ProblemItem(ids[0], FallbackPrompt, 1)]
    else
      var r := Enumerated(prompts, ids);
      assert forall k :: 0 <= k < |r| ==> prompts[k] == entries[k];
      r
  }

  /** What `parseProblems(raw)` returns when its successive `uid()` calls yield `ids`. */
  function ParsedProblems(raw: string, ids: seq<string>): seq<ProblemItem>
    requires |ids| >= MaxProblems
  {
    ProblemsFromEntries(Entries(NonBlankLines(raw)), ids)
  }

  /** The loop state of `parseProblems` after the first `i` lines: one problem per entry so far. */
  ghost predicate ParseInv(lines: seq<string>, i: nat, result: seq<ProblemItem>, ids: seq<string>)
    requires i <= |lines| && |ids| >= MaxProblems
  {
    var taken := Entries(lines[..i]);
    |taken| <= MaxProblems && result == Enumerated(taken, ids)
  }

  /** One more line keeps the loop state when it yields no prompt, and adds a problem when it does. */
  lemma ParseStep(lines: seq<string>, i: nat, result: seq<ProblemItem>, ids: seq<string>)
    requires i < |lines| && |ids| >= MaxProblems
    requires ParseInv(lines, i, result, ids) && |result| < MaxProblems
    ensures Normalize(lines[i]) == [] ==> ParseInv(lines, i + 1, result, ids)
    ensures Normalize(lines[i]) != [] ==>
      ParseInv(lines, i + 1, result + [ProblemItem(ids[|result|], Normalize(lines[i]), |result| + 1)], ids)
  {
    EntriesSnoc(lines, i);
    var taken := Entries(lines[..i]);
    if Normalize(lines[i]) != [] {
      EnumeratedSnoc(taken, Normalize(lines[i]), ids);
    }
  }

  /** Once five problems are made, the remaining lines change nothing. */
  lemma ParseFull(lines: seq<string>, i: nat, result: seq<ProblemItem>, ids: seq<string>)
    requires i <= |lines| && |ids| >= MaxProblems
    requires ParseInv(lines, i, result, ids) && |result| >= MaxProblems
    ensures result == Enumerated(Take(Entries(lines), MaxProblems), ids)
  {
    EntriesPrefix(lines, i);
    TakeFull(Entries(lines[..i]), Entries(lines), MaxProblems);
  }

  /** After the last line the problems are those of the first five entries. */
  lemma ParseEnd(lines: seq<string>, result: seq<ProblemItem>, ids: seq<string>)
    requires |ids| >= MaxProblems
    requires ParseInv(lines, |lines|, result, ids)
    ensures result == Enumerated(Take(Entries(lines), MaxProblems), ids)
  {
    assert lines[..|lines|] == lines;
  }

  /** The fallback applies exactly when no problem was made. */
  lemma ParseFallback(lines: seq<string>, result: seq<ProblemItem>, ids: seq<string>)
    requires |ids| >= MaxProblems
    requires result == Enumerated(Take(Entries(lines), MaxProblems), ids)
    ensures (if result == [] then [ProblemItem(ids[0], FallbackPrompt, 1)] else result) == ProblemsFromEntries(Entries(lines), ids)
  {
  }

  /**
   * The loop of `parseProblems` over the text's lines; `ids` supplies the
   * `uid()` results in call order.
   */
  method CollectProblems(lines: seq<string>, ids: seq<string>) returns (result: seq<ProblemItem>)
    requires |ids| >= MaxProblems
    ensures result == Enumerated(Take(Entries(lines), MaxProblems), ids)
  {
    result := [];
    var index := 1;
    ghost var full := false;
    for i := 0 to |lines|
      invariant ParseInv(lines, i, result, ids)
      invariant index == |result| + 1
      invariant !full
    {
      if |result| >= MaxProblems {
        ParseFull(lines, i, result, ids);
        full := true;
        break;
      }
      ParseStep(lines, i, result, ids);
      var normalized := Normalize(lines[i]);
      if normalized == [] {
        continue;
      }
      result := result + [ProblemItem(ids[index - 1], normalized, index)];
      index := index + 1;
    }
    if !full {
      ParseEnd(lines, result, ids);
    }
  }

  /** `parseProblems`: the text's problems, or the single fallback problem when it yields none. */
  method ParseProblems(raw: string, ids: seq<string>) returns (result: seq<ProblemItem>)
    requires |ids| >= MaxProblems
    ensures result == ParsedProblems(raw, ids)
  {
    var lines := NonBlankLines(raw);
    result := CollectProblems(lines, ids);
    ParseFallback(lines, result, ids);
    if result == [] {
      result := [ProblemItem(ids[0], FallbackPrompt, 1)];
    }
  }

  /** `getSetById` on a list of sets. */
  function SetById(sets: seq<ProblemSet>, setId: string): (r: Option<ProblemSet>)
    ensures r.None? <==> forall i :: 0 <= i < |sets| ==> sets[i].id != setId
    ensures r.Some? ==>
      exists i :: 0 <= i < |sets| && sets[i] == r.value && r.value.id == setId && forall j :: 0 <= j < i ==> sets[j].id != setId
  {
    Seqs.Find(sets, (s: ProblemSet) => s.id == setId)
  }

  /** `getAttemptsBySetId` on a list of attempts. */
  function AttemptsBySetId(attempts: seq<ProblemAttempt>, setId: string): seq<ProblemAttempt> {
    Seqs.Filter(attempts, (a: ProblemAttempt) => a.setId == setId)
  }

  /**
   * The attempts returned for a set are exactly those of that set, in store
   * order (newest first): the query over `[a] + rest` is the query over
   * `rest`, with `a` in front when it belongs to the set.
   */
  lemma AttemptsBySetIdPrepend(a: ProblemAttempt, rest: seq<ProblemAttempt>, setId: string)
    ensures AttemptsBySetId([a] + rest, setId) == (if a.setId == setId then [a] else []) + AttemptsBySetId(rest, setId)
  {
    assert ([a] + rest)[1..] == rest;
  }

  /** Every returned attempt belongs to the set, and every attempt of the set is returned. */
  lemma AttemptsBySetIdExact(attempts: seq<ProblemAttempt>, setId: string)
    ensures var r := AttemptsBySetId(attempts, setId);
      (forall i :: 0 <= i < |r| ==> r[i].setId == setId && r[i] in attempts)
      && (forall i :: 0 <= i < |attempts| && attempts[i].setId == setId ==> attempts[i] in r)
  {
  }

  /** The problem store. */
  class ProblemStore {
    var sets: seq<ProblemSet>
    var attempts: seq<ProblemAttempt>

    constructor()
      ensures sets == [] && attempts == []
    {
      sets := [];
      attempts := [];
    }

    /**
     * `createSet`: `setId` is the first `uid()` result, `problemIds` the ones
     * `parseProblems` draws after it, `now` the creation time.
     */
    method CreateSet(classId: Option<string>, title: string, topic: string, generatedRaw: string,
                     setId: string, problemIds: seq<string>, now: string) returns (id: string)
      requires |problemIds| >= MaxProblems
      modifies this
      ensures id == setId
      ensures sets == [ProblemSet(setId, classId, title, topic, generatedRaw, ParsedProblems(generatedRaw, problemIds), now)] + old(sets)
      ensures attempts == old(attempts)
    {
      var problems := ParseProblems(generatedRaw, problemIds);
      var item := ProblemSet(setId, classId, title, topic, generatedRaw, problems, now);
      sets := [item] + sets;
      id := setId;
    }

    /** `submitAttempt`: stores the attempt as given; nothing is scored here. */
    method SubmitAttempt(setId: string, answers: map<string, string>, score: real, feedback: string,
                         attemptId: string, now: string) returns (id: string)
      modifies this
      ensures id == attemptId
      ensures attempts == [ProblemAttempt(attemptId, setId, answers, score, feedback, now)] + old(attempts)
      ensures sets == old(sets)
    {
      attempts := [ProblemAttempt(attemptId, setId, answers, score, feedback, now)] + attempts;
      id := attemptId;
    }

    /** `getSetById` */
    function GetSetById(setId: string): (r: Option<ProblemSet>)
      reads this
      ensures r.Some? ==> r.value in sets && r.value.id == setId
      ensures r.None? <==> forall i :: 0 <= i < |sets| ==> sets[i].id != setId
    {
      SetById(sets, setId)
    }

    /** `getAttemptsBySetId` */
    function GetAttemptsBySetId(setId: string): (r: seq<ProblemAttempt>)
      reads this
      ensures forall i :: 0 <= i < |r| ==> r[i].setId == setId && r[i] in attempts
      ensures forall i :: 0 <= i < |attempts| && attempts[i].setId == setId ==> attempts[i] in r
    {
      AttemptsBySetId(attempts, setId)
    }
  }
}
