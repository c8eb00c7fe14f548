/**
 * The scheduler store: calendar events newest first, and one recommendation
 * text per date.
 */
module Scheduler {
  import opened Wrappers
  import Seqs

  datatype EventType = ClassEvent | Assignment | Exam | Meeting | Personal

  datatype SchedulerEvent = SchedulerEvent(
    id: string,
    classId: Option<string>,
    title: string,
    date: string,
    startTime: string,
    endTime: string,
    eventType: EventType,
    note: Option<string>,
    createdAt: string)

  /** What `addEvent` is given. */
  datatype EventInput = EventInput(
    classId: Option<string>,
    title: string,
    date: string,
    startTime: string,
    endTime: string,
    eventType: EventType,
    note: Option<string>)

  /** The event `addEvent` builds from its input, the `uid()` result and the clock. */
  function NewEvent(input: EventInput, id: string, now: string): (e: SchedulerEvent)
    ensures e.id == id && e.createdAt == now
    ensures EventInput(e.classId, e.title, e.date, e.startTime, e.endTime, e.eventType, e.note) == input
  {
    SchedulerEvent(id, input.classId, input.title, input.date, input.startTime, input.endTime, input.eventType, input.note, now)
  }

  predicate HasEvent(events: seq<SchedulerEvent>, id: string) {
    exists i :: 0 <= i < |events| && events[i].id == id
  }

  /** The events left by `removeEvent(id)`. */
  function EventsWithout(events: seq<SchedulerEvent>, id: string): seq<SchedulerEvent> {
    Seqs.Filter(events, (e: SchedulerEvent) => e.id != id)
  }

  /** `{ ...recommendationsByDate, [date]: text }` */
  function WithRecommendation(byDate: map<string, string>, date: string, text: string): (r: map<string, string>)
    ensures r.Keys == byDate.Keys + {date}
    ensures r[date] == text
    ensures forall d :: d in byDate && d != date ==> r[d] == byDate[d]
  {
    byDate[date := text]
  }

  /** A second recommendation for the same date replaces the first. */
  lemma RecommendationOverwrites(byDate: map<string, string>, date: string, first: string, second: string)
    ensures WithRecommendation(WithRecommendation(byDate, date, first), date, second) == WithRecommendation(byDate, date, second)
  {
  }

  /** Removing an id no event has changes nothing. */
  lemma RemoveEventUnknown(events: seq<SchedulerEvent>, id: string)
    requires !HasEvent(events, id)
    ensures EventsWithout(events, id) == events
  {
    Seqs.FilterKeepsAll(events, (e: SchedulerEvent) => e.id != id);
  }

  /** Removing twice is removing once, and what is left has no event with that id. */
  lemma RemoveEventIdempotent(events: seq<SchedulerEvent>, id: string)
    ensures EventsWithout(EventsWithout(events, id), id) == EventsWithout(events, id)
    ensures !HasEvent(EventsWithout(events, id), id)
  {
    Seqs.FilterIdempotent(events, (e: SchedulerEvent) => e.id != id);
  }

  /** Removing a freshly added event, whose id was new, gives back the events before it. */
  lemma RemoveUndoesAdd(events: seq<SchedulerEvent>, input: EventInput, id: string, now: string)
    requires !HasEvent(events, id)
    ensures EventsWithout([NewEvent(input, id, now)] + events, id) == events
  {
    Seqs.FilterPrepended(NewEvent(input, id, now), events, (e: SchedulerEvent) => e.id != id);
  }

  /** The scheduler store. */
  class SchedulerStore {
    var events: seq<SchedulerEvent>
    var recommendationsByDate: map<string, string>

    constructor()
      ensures events == [] && recommendationsByDate == map[]
    {
      events := [];
      recommendationsByDate := map[];
    }

    /** `addEvent`: prepends the new event and returns its id; recommendations are untouched. */
    method AddEvent(input: EventInput, id: string, now: string) returns (newId: string)
      modifies this
      ensures newId == id
      ensures events == [NewEvent(input, id, now)] + old(events)
      ensures recommendationsByDate == old(recommendationsByDate)
    {
      events := [NewEvent(input, id, now)] + events;
      newId := id;
    }

    /** `removeEvent`: recommendations are untouched. */
    method RemoveEvent(id: string)
      modifies this
      ensures events == EventsWithout(old(events), id)
      ensures recommendationsByDate == old(recommendationsByDate)
    {
      events := EventsWithout(events, id);
    }

    /** `setRecommendation`: events are untouched. */
    method SetRecommendation(date: string, text: string)
      modifies this
      ensures recommendationsByDate == WithRecommendation(old(recommendationsByDate), date, text)
      ensures events == old(events)
    {
      recommendationsByDate := WithRecommendation(recommendationsByDate, date, text);
    }
  }
}
