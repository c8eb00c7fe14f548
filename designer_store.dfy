/** The designer store: generated designs, newest first. */
module Designer {
  import opened Wrappers
  import Seqs

  datatype DesignItem = DesignItem(
    id: string,
    classId: Option<string>,
    title: string,
    prompt: string,
    style: string,
    imageUrl: Option<string>,
    notes: string,
    createdAt: string)

  /** What `addDesign` is given. */
  datatype DesignInput = DesignInput(
    classId: Option<string>,
    title: string,
    prompt: string,
    style: string,
    imageUrl: Option<string>,
    notes: string)

  /** The item `addDesign` builds: the input fields verbatim, an absent image included. */
  function NewDesign(input: DesignInput, id: string, now: string): (d: DesignItem)
    ensures d.id == id && d.createdAt == now
    ensures DesignInput(d.classId, d.title, d.prompt, d.style, d.imageUrl, d.notes) == input
  {
    DesignItem(id, input.classId, input.title, input.prompt, input.style, input.imageUrl, input.notes, now)
  }

  predicate HasDesign(designs: seq<DesignItem>, id: string) {
    exists i :: 0 <= i < |designs| && designs[i].id == id
  }

  /** The designs left by `removeDesign(id)`. */
  function DesignsWithout(designs: seq<DesignItem>, id: string): seq<DesignItem> {
    Seqs.Filter(designs, (d: DesignItem) => d.id != id)
  }

  /** Removing an id no design has changes nothing. */
  lemma RemoveDesignUnknown(designs: seq<DesignItem>, id: string)
    requires !HasDesign(designs, id)
    ensures DesignsWithout(designs, id) == designs
  {
    Seqs.FilterKeepsAll(designs, (d: DesignItem) => d.id != id);
  }

  /** Removing twice is removing once, and no design with that id is left. */
  lemma RemoveDesignIdempotent(designs: seq<DesignItem>, id: string)
    ensures DesignsWithout(DesignsWithout(designs, id), id) == DesignsWithout(designs, id)
    ensures !HasDesign(DesignsWithout(designs, id), id)
  {
    Seqs.FilterIdempotent(designs, (d: DesignItem) => d.id != id);
  }

  /** Removing a freshly added design, whose id was new, gives back the designs before it. */
  lemma RemoveUndoesAdd(designs: seq<DesignItem>, input: DesignInput, id: string, now: string)
    requires !HasDesign(designs, id)
    ensures DesignsWithout([NewDesign(input, id, now)] + designs, id) == designs
  {
    Seqs.FilterPrepended(NewDesign(input, id, now), designs, (d: DesignItem) => d.id != id);
  }

  /** The designer store. */
  class DesignerStore {
    var designs: seq<DesignItem>

    constructor()
      ensures designs == []
    {
      designs := [];
    }

    /** `addDesign`: prepends the new item, keeping the others in order, and returns its id. */
    method AddDesign(input: DesignInput, id: string, now: string) returns (newId: string)
      modifies this
      ensures newId == id
      ensures designs == [NewDesign(input, id, now)] + old(designs)
    {
      designs := [NewDesign(input, id, now)] + designs;
      newId := id;
    }

    /** `removeDesign` */
    method RemoveDesign(id: string)
      modifies this
      ensures designs == DesignsWithout(old(designs), id)
    {
      designs := DesignsWithout(designs, id);
    }
  }
}
