/**
 * The timetable store: the semester, the classes and their weekly slots.
 * Adding a class adds one slot for it; removing a class removes its slots too,
 * so every slot keeps naming an existing class.
 */
module Timetable {
  import opened Wrappers
  import Seqs

  datatype Weekday = Mon | Tue | Wed | Thu | Fri

  datatype ClassItem = ClassItem(
    id: string,
    name: string,
    professor: string,
    location: string,
    color: string,
    semester: string)

  /** Hours are whole hours of the day; the store itself does not check them. */
  datatype TimetableSlot = TimetableSlot(
    id: string,
    classId: string,
    day: Weekday,
    startHour: int,
    endHour: int)

  const Semester: string := "2026-1"
  const DefaultColor: string := "#60A5FA"

  const SeedClass: ClassItem := ClassItem("seed-algo", "알고리즘", "김교수", "공학관 301", "#38BDF8", "2026-1")
  const SeedSlot: TimetableSlot := TimetableSlot("seed-slot-1", "seed-algo", Tue, 10, 12)

  /** Some class has this id. */
  predicate HasClass(classes: seq<ClassItem>, classId: string) {
    exists j :: 0 <= j < |classes| && classes[j].id == classId
  }

  /** Every slot names an existing class. */
  predicate SlotsResolve(classes: seq<ClassItem>, slots: seq<TimetableSlot>) {
    forall i :: 0 <= i < |slots| ==> HasClass(classes, slots[i].classId)
  }

  /** Every slot ends after it starts. */
  predicate PositiveDurations(slots: seq<TimetableSlot>) {
    forall i :: 0 <= i < |slots| ==> slots[i].startHour < slots[i].endHour
  }

  /** The classes after `removeClass(classId)`. */
  function ClassesWithout(classes: seq<ClassItem>, classId: string): seq<ClassItem> {
    Seqs.Filter(classes, (c: ClassItem) => c.id != classId)
  }

  /** The slots after `removeClass(classId)`. */
  function SlotsWithout(slots: seq<TimetableSlot>, classId: string): seq<TimetableSlot> {
    Seqs.Filter(slots, (s: TimetableSlot) => s.classId != classId)
  }

  /** `getClassById` on a list of classes: the first class with that id. */
  function ClassById(classes: seq<ClassItem>, classId: string): (r: Option<ClassItem>)
    ensures r.None? <==> !HasClass(classes, classId)
    ensures r.Some? ==>
      exists j :: 0 <= j < |classes| && classes[j] == r.value && r.value.id == classId && forall k :: 0 <= k < j ==> classes[k].id != classId
  {
    Seqs.Find(classes, (c: ClassItem) => c.id == classId)
  }

  /** `getSlotsByClassId` on a list of slots. */
  function SlotsOf(slots: seq<TimetableSlot>, classId: string): seq<TimetableSlot> {
    Seqs.Filter(slots, (s: TimetableSlot) => s.classId == classId)
  }

  /** The seed state satisfies both invariants. */
  lemma SeedValid()
    ensures SlotsResolve([SeedClass], [SeedSlot]) && PositiveDurations([SeedSlot])
  {
    assert [SeedClass][0].id == [SeedSlot][0].classId;
  }

  /** Adding a class together with a slot that names it keeps every slot resolving. */
  lemma AddKeepsResolve(classes: seq<ClassItem>, slots: seq<TimetableSlot>, c: ClassItem, s: TimetableSlot)
    requires SlotsResolve(classes, slots) && s.classId == c.id
    ensures SlotsResolve(classes + [c], slots + [s])
  {
    var cs, ss := classes + [c], slots + [s];
    forall i | 0 <= i < |ss| ensures HasClass(cs, ss[i].classId) {
      if i < |slots| {
        var j :| 0 <= j < |classes| && classes[j].id == slots[i].classId;
        assert cs[j] == classes[j];
      } else {
        assert cs[|classes|] == c;
      }
    }
  }

  /** Removing a class and its slots keeps every remaining slot resolving; none names the removed id. */
  lemma RemoveKeepsResolve(classes: seq<ClassItem>, slots: seq<TimetableSlot>, classId: string)
    requires SlotsResolve(classes, slots)
    ensures SlotsResolve(ClassesWithout(classes, classId), SlotsWithout(slots, classId))
    ensures forall i :: 0 <= i < |SlotsWithout(slots, classId)| ==> SlotsWithout(slots, classId)[i].classId != classId
  {
    var cs, ss := ClassesWithout(classes, classId), SlotsWithout(slots, classId);
    forall i | 0 <= i < |ss| ensures HasClass(cs, ss[i].classId) {
      var k :| 0 <= k < |slots| && slots[k] == ss[i];
      var j :| 0 <= j < |classes| && classes[j].id == slots[k].classId;
      assert classes[j] in cs;
      var m :| 0 <= m < |cs| && cs[m] == classes[j];
    }
  }

  /** Removing a class keeps the remaining slots' durations. */
  lemma RemoveKeepsDurations(slots: seq<TimetableSlot>, classId: string)
    requires PositiveDurations(slots)
    ensures PositiveDurations(SlotsWithout(slots, classId))
  {
    var ss := SlotsWithout(slots, classId);
    forall i | 0 <= i < |ss| ensures ss[i].startHour < ss[i].endHour {
      var k :| 0 <= k < |slots| && slots[k] == ss[i];
    }
  }

  /**
   * Removing an id no class has changes nothing, and, while every slot
   * resolves, no slot has that id either.
   */
  lemma RemoveUnknownClass(classes: seq<ClassItem>, slots: seq<TimetableSlot>, classId: string)
    requires SlotsResolve(classes, slots) && !HasClass(classes, classId)
    ensures ClassesWithout(classes, classId) == classes && SlotsWithout(slots, classId) == slots
  {
    Seqs.FilterKeepsAll(classes, (c: ClassItem) => c.id != classId);
    forall i | 0 <= i < |slots| ensures slots[i].classId != classId {
      var j :| 0 <= j < |classes| && classes[j].id == slots[i].classId;
    }
    Seqs.FilterKeepsAll(slots, (s: TimetableSlot) => s.classId != classId);
  }

  /** Removing a class twice is removing it once. */
  lemma RemoveClassIdempotent(classes: seq<ClassItem>, slots: seq<TimetableSlot>, classId: string)
    ensures ClassesWithout(ClassesWithout(classes, classId), classId) == ClassesWithout(classes, classId)
    ensures SlotsWithout(SlotsWithout(slots, classId), classId) == SlotsWithout(slots, classId)
  {
    Seqs.FilterIdempotent(classes, (c: ClassItem) => c.id != classId);
    Seqs.FilterIdempotent(slots, (s: TimetableSlot) => s.classId != classId);
  }

  /**
   * A class's slots, removed, and the other slots, kept, partition the slot
   * list: together they are the same multiset of slots.
   */
  lemma SlotsOfAndWithout(slots: seq<TimetableSlot>, classId: string)
    ensures multiset(SlotsOf(slots, classId)) + multiset(SlotsWithout(slots, classId)) == multiset(slots)
    ensures |SlotsOf(slots, classId)| + |SlotsWithout(slots, classId)| == |slots|
    ensures forall i :: 0 <= i < |SlotsOf(slots, classId)| ==> SlotsOf(slots, classId)[i].classId == classId
  {
    Seqs.FilterComplement(slots, (s: TimetableSlot) => s.classId == classId, (s: TimetableSlot) => s.classId != classId);
  }

  /** The timetable store. */
  class TimetableStore {
    const semester: string
    var classes: seq<ClassItem>
    var slots: seq<TimetableSlot>

    /** The store's invariant: every slot names an existing class. */
    predicate Valid()
      reads this
    {
      SlotsResolve(classes, slots)
    }

    /** The seed state: one sample class with one Tuesday 10-12 slot. */
    constructor()
      ensures semester == Semester
      ensures classes == [SeedClass] && slots == [SeedSlot]
      ensures Valid() && PositiveDurations(slots)
    {
      semester := Semester;
      classes := [SeedClass];
      slots := [SeedSlot];
      SeedValid();
    }

    /**
     * `addClassWithSlot`: `classId` and `slotId` are the two `uid()` results;
     * `color` is the optional input color. The hours are stored as given.
     */
    method AddClassWithSlot(name: string, professor: string, location: string, day: Weekday,
                            startHour: int, endHour: int, color: Option<string>,
                            classId: string, slotId: string)
      requires Valid()
      modifies this
      ensures classes == old(classes) + [ClassItem(classId, name, professor, location,
                                                   if color.Some? then color.value else DefaultColor, semester)]
      ensures slots == old(slots) + [TimetableSlot(slotId, classId, day, startHour, endHour)]
      ensures Valid()
      ensures old(PositiveDurations(slots)) && startHour < endHour ==> PositiveDurations(slots)
    {
      var newClass := ClassItem(classId, name, professor, location, if color.Some? then color.value else DefaultColor, semester);
      var newSlot := TimetableSlot(slotId, classId, day, startHour, endHour);
      AddKeepsResolve(classes, slots, newClass, newSlot);
      classes := classes + [newClass];
      slots := slots + [newSlot];
    }

    /** `removeClass`: the class and all of its slots go. */
    method RemoveClass(classId: string)
      requires Valid()
      modifies this
      ensures classes == ClassesWithout(old(classes), classId)
      ensures slots == SlotsWithout(old(slots), classId)
      ensures Valid()
      ensures old(PositiveDurations(slots)) ==> PositiveDurations(slots)
    {
      RemoveKeepsResolve(classes, slots, classId);
      if PositiveDurations(slots) {
        RemoveKeepsDurations(slots, classId);
      }
      classes := ClassesWithout(classes, classId);
      slots := SlotsWithout(slots, classId);
    }

    /** `getClassById` */
    function GetClassById(classId: string): (r: Option<ClassItem>)
      reads this
      ensures r.None? <==> !HasClass(classes, classId)
      ensures r.Some? ==> r.value in classes && r.value.id == classId
    {
      ClassById(classes, classId)
    }

    /** `getSlotsByClassId`: the class's slots in store order. */
    function GetSlotsByClassId(classId: string): (r: seq<TimetableSlot>)
      reads this
      ensures forall i :: 0 <= i < |r| ==> r[i].classId == classId && r[i] in slots
      ensures forall i :: 0 <= i < |slots| && slots[i].classId == classId ==> slots[i] in r
    {
      SlotsOf(slots, classId)
    }
  }
}
