/** The video summary store: summaries of lecture videos, newest first. */
module VideoSummaries {
  import opened Wrappers
  import Seqs

  datatype VideoSummaryItem = VideoSummaryItem(
    id: string,
    classId: Option<string>,
    sourceUrl: string,
    videoId: string,
    transcript: string,
    summary: string,
    keyPoints: seq<string>,
    createdAt: string)

  /** What `addSummary` is given. */
  datatype SummaryInput = SummaryInput(
    classId: Option<string>,
    sourceUrl: string,
    videoId: string,
    transcript: string,
    summary: string,
    keyPoints: seq<string>)

  /** The item `addSummary` builds: the input fields verbatim. */
  function NewSummary(input: SummaryInput, id: string, now: string): (s: VideoSummaryItem)
    ensures s.id == id && s.createdAt == now
    ensures SummaryInput(s.classId, s.sourceUrl, s.videoId, s.transcript, s.summary, s.keyPoints) == input
  {
    VideoSummaryItem(id, input.classId, input.sourceUrl, input.videoId, input.transcript, input.summary, input.keyPoints, now)
  }

  /**
   * `getByClassId` on a list of summaries: a summary with no class never
   * matches, since an absent class is not equal to any class id.
   */
  function SummariesOfClass(summaries: seq<VideoSummaryItem>, classId: string): (r: seq<VideoSummaryItem>)
    ensures forall i :: 0 <= i < |r| ==> r[i].classId == Some(classId) && r[i] in summaries
    ensures forall i :: 0 <= i < |summaries| && summaries[i].classId == Some(classId) ==> summaries[i] in r
  {
    Seqs.Filter(summaries, (s: VideoSummaryItem) => s.classId == Some(classId))
  }

  /**
   * The query keeps store order, newest first: over `[s] + rest` it is the
   * query over `rest`, with `s` in front when it belongs to the class.
   */
  lemma SummariesOfClassPrepend(s: VideoSummaryItem, rest: seq<VideoSummaryItem>, classId: string)
    ensures SummariesOfClass([s] + rest, classId) == (if s.classId == Some(classId) then [s] else []) + SummariesOfClass(rest, classId)
  {
    assert ([s] + rest)[1..] == rest;
  }

  /** The video summary store. */
  class VideoSummaryStore {
    var summaries: seq<VideoSummaryItem>

    constructor()
      ensures summaries == []
    {
      summaries := [];
    }

    /** `addSummary`: prepends the new item, keeping the others in order, and returns its id. */
    method AddSummary(input: SummaryInput, id: string, now: string) returns (newId: string)
      modifies this
      ensures newId == id
      ensures summaries == [NewSummary(input, id, now)] + old(summaries)
    {
      summaries := [NewSummary(input, id, now)] + summaries;
      newId := id;
    }

    /** `getByClassId`: reads the store and changes nothing. */
    function GetByClassId(classId: string): (r: seq<VideoSummaryItem>)
      reads this
      ensures forall i :: 0 <= i < |r| ==> r[i].classId == Some(classId) && r[i] in summaries
      ensures forall i :: 0 <= i < |summaries| && summaries[i].classId == Some(classId) ==> summaries[i] in r
    {
      SummariesOfClass(summaries, classId)
    }
  }
}
