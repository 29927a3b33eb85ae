/** The per-Lua-state class registry: `registered_classes` finds, or creates
    on first use, the `class_info_map` stored in a Lua state's registry, and
    `registered_class_opt` / `registered_class` look a type up in it. The
    Lua registry itself is reduced to one optional slot. */
module ClassRegistry {
  import opened Wrappers
  import opened ClassInfo

  /** `class_info_map`: the registered classes of one Lua state, by type. */
  class ClassInfoMap {
    var classes: map<TypeInfo, ClassInfo>

    constructor ()
      ensures classes == map[]
    {
      classes := map[];
    }
  }

  /** A Lua state, reduced to the registry slot keyed by
      `class_info_map_key`; `null` until the map has been created. */
  class LuaState {
    var classInfoSlot: ClassInfoMap?

    constructor ()
      ensures classInfoSlot == null
    {
      classInfoSlot := null;
    }

    /** `registered_classes`: the stored map if there is one; otherwise a new
        empty map, which is stored in the slot. Either way the same map is
        returned by every later call. */
    method RegisteredClasses() returns (classes: ClassInfoMap)
      modifies this
      ensures classInfoSlot == classes
      ensures old(classInfoSlot) != null ==> classes == old(classInfoSlot)
      ensures old(classInfoSlot) == null ==> fresh(classes) && classes.classes == map[]
    {
      if classInfoSlot != null {
        return classInfoSlot;
      }
      classes := new ClassInfoMap();
      classInfoSlot := classes;
    }

    /** `registered_class_opt`: the entry for `cls` in this state's map, or
        nothing when the type was never registered (creating the map first
        if need be). */
    method RegisteredClassOpt(cls: TypeInfo) returns (info: Option<ClassInfo>)
      modifies this
      ensures classInfoSlot != null
      ensures old(classInfoSlot) != null ==> classInfoSlot == old(classInfoSlot)
      ensures old(classInfoSlot) == null ==> fresh(classInfoSlot) && classInfoSlot.classes == map[]
      ensures info.Some? <==> cls in classInfoSlot.classes
      ensures info.Some? ==> info.value == classInfoSlot.classes[cls]
    {
      var classes := RegisteredClasses();
      info := if cls in classes.classes then Some(classes.classes[cls]) else None;
    }

    /** `registered_class`: the entry for `cls`, which the caller must have
        registered before ("Use of unregistered class."). The state does not
        change. */
    method RegisteredClass(cls: TypeInfo) returns (info: ClassInfo)
      requires classInfoSlot != null && cls in classInfoSlot.classes
      modifies this
      ensures classInfoSlot == old(classInfoSlot)
      ensures info == classInfoSlot.classes[cls]
    {
      var found := RegisteredClassOpt(cls);
      info := found.value;
    }
  }
}
