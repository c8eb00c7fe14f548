/** The meeting store: recorded meetings with their transcript and summary, newest first. */
module Meetings {
  import opened Wrappers
  import Seqs

  datatype MeetingRecord = MeetingRecord(
    id: string,
    classId: Option<string>,
    title: string,
    audioUri: string,
    durationMillis: int,
    transcript: string,
    summary: string,
    createdAt: string)

  /** What `addMeeting` is given. */
  datatype MeetingInput = MeetingInput(
    classId: Option<string>,
    title: string,
    audioUri: string,
    durationMillis: int,
    transcript: string,
    summary: string)

  /** The record `addMeeting` builds: the input fields verbatim. */
  function NewMeeting(input: MeetingInput, id: string, now: string): (m: MeetingRecord)
    ensures m.id == id && m.createdAt == now
    ensures MeetingInput(m.classId, m.title, m.audioUri, m.durationMillis, m.transcript, m.summary) == input
  {
    MeetingRecord(id, input.classId, input.title, input.audioUri, input.durationMillis, input.transcript, input.summary, now)
  }

  /** `getMeetingsByClassId` on a list of records. */
  function MeetingsOfClass(meetings: seq<MeetingRecord>, classId: string): (r: seq<MeetingRecord>)
    ensures forall i :: 0 <= i < |r| ==> r[i].classId == Some(classId) && r[i] in meetings
    ensures forall i :: 0 <= i < |meetings| && meetings[i].classId == Some(classId) ==> meetings[i] in r
  {
    Seqs.Filter(meetings, (m: MeetingRecord) => m.classId == Some(classId))
  }

  /** The query keeps store order, newest first. */
  lemma MeetingsOfClassPrepend(m: MeetingRecord, rest: seq<MeetingRecord>, classId: string)
    ensures MeetingsOfClass([m] + rest, classId) == (if m.classId == Some(classId) then [m] else []) + MeetingsOfClass(rest, classId)
  {
    assert ([m] + rest)[1..] == rest;
  }

  /** The meeting store. */
  class MeetingStore {
    var meetings: seq<MeetingRecord>

    constructor()
      ensures meetings == []
    {
      meetings := [];
    }

    /** `addMeeting`: prepends the new record, keeping the others in order, and returns its id. */
    method AddMeeting(input: MeetingInput, id: string, now: string) returns (newId: string)
      modifies this
      ensures newId == id
      ensures meetings == [NewMeeting(input, id, now)] + old(meetings)
    {
      meetings := [NewMeeting(input, id, now)] + meetings;
      newId := id;
    }

    /** `getMeetingsByClassId`: reads the store and changes nothing. */
    function GetMeetingsByClassId(classId: string): (r: seq<MeetingRecord>)
      reads this
      ensures forall i :: 0 <= i < |r| ==> r[i].classId == Some(classId) && r[i] in meetings
      ensures forall i :: 0 <= i < |meetings| && meetings[i].classId == Some(classId) ==> meetings[i] in r
    {
      MeetingsOfClass(meetings, classId)
    }
  }
}
