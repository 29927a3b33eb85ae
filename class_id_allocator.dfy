/** The process-wide type-id table behind `allocate_class_id`: a map from
    type to id and the next id to hand out. The C++ keeps both in function
    statics; here they are the fields of one object. */
module ClassIdAllocator {
  import opened ClassInfo

  class ClassIdAllocator {
    var ids: map<TypeInfo, nat>
    var nextId: nat

    /** Ids are dense and never collide: exactly the ids 0 .. nextId-1 are
        in use, each by one type. */
    ghost predicate Valid()
      reads this
    {
      && |ids| == nextId
      && (forall t :: t in ids ==> ids[t] < nextId)
      && (forall t, u :: t in ids && u in ids && t != u ==> ids[t] != ids[u])
    }

    /** The static table starts empty with `next_id == 0`. */
    constructor ()
      ensures Valid()
      ensures ids == map[] && nextId == 0
    {
      ids := map[];
      nextId := 0;
    }

    /** `ids.insert({cls, next_id})`: a known type gets its stored id back and
        nothing changes; a new type gets `next_id`, which then goes up by one. */
    method AllocateClassId(cls: TypeInfo) returns (id: nat)
      requires Valid()
      modifies this
      ensures Valid()
      ensures cls in old(ids) ==> id == old(ids)[cls] && ids == old(ids) && nextId == old(nextId)
      ensures cls !in old(ids) ==> id == old(nextId) && ids == old(ids)[cls := id] && nextId == old(nextId) + 1
      ensures cls in ids && ids[cls] == id
      ensures forall t :: t in ids && t != cls ==> ids[t] != id
    {
      if cls !in ids {
        ids := ids[cls := nextId];
        nextId := nextId + 1;
      }
      id := ids[cls];
    }
  }
}
