/**
 * The broadcast-slot store: a cache of slots, the selected slot, a loading
 * flag and the last error. Every asynchronous action clears `error`, awaits
 * one service call, applies its change to the cache on success, records the
 * error on failure and always ends with `loading` false.
 */
module BroadcastSlots {
  import opened Remote
  import Cache

  datatype SlotStatus = AVAILABLE | OCCUPIED

  /** A broadcast slot; times are ISO 8601 strings as the server sends them. */
  datatype Slot = Slot(id: int, startTime: string, endTime: string, status: SlotStatus, radioStationId: int)

  function SlotId(s: Slot): int { s.id }

  /** The endpoint a load action reads; which one does not change how the store reacts. */
  datatype SlotQuery =
    | AllSlots
    | ByRadioStation(stationId: int)
    | ByStatus(status: SlotStatus)
    | AfterStartTime(stationId: int, startTime: string)
    | AvailableByPriority(stationId: int, highPriority: bool)
    | ByMonth(year: int, month: int)

  /**
   * JavaScript's `a < b` on strings: lexicographic order, a proper prefix
   * coming first.
   */
  predicate StrLess(a: string, b: string)
  {
    if b == [] then false
    else if a == [] then true
    else if a[0] != b[0] then a[0] < b[0]
    else StrLess(a[1..], b[1..])
  }

  /** JavaScript's `a <= b` on strings, which is `!(b < a)`. */
  predicate StrLessEq(a: string, b: string)
  {
    !StrLess(b, a)
  }

  /** No string is below itself, so every string is `<=` itself. */
  lemma {:induction false} StrLessIrreflexive(a: string)
    ensures !StrLess(a, a)
    ensures StrLessEq(a, a)
  {
    if a != [] {
      StrLessIrreflexive(a[1..]);
    }
  }

  /** Of two different strings exactly one is below the other. */
  lemma {:induction false} StrLessTrichotomy(a: string, b: string)
    ensures a == b || StrLess(a, b) != StrLess(b, a)
  {
    if a != [] && b != [] && a[0] == b[0] {
      StrLessTrichotomy(a[1..], b[1..]);
      if a[1..] == b[1..] {
        assert a == [a[0]] + a[1..] && b == [b[0]] + b[1..];
      }
    }
  }

  /**
   * Whether a cached slot survives `deleteSlotsAfterStartTime(stationId, t)`:
   * it belongs to another station or starts at or before `t`.
   */
  predicate Survives(s: Slot, stationId: int, t: string)
  {
    s.radioStationId != stationId || StrLessEq(s.startTime, t)
  }

  /** The cache after the local prediction of which slots the server removed. */
  function AfterStartTimeDeletion(slots: seq<Slot>, stationId: int, t: string): (r: seq<Slot>)
    ensures forall s :: s in r <==> s in slots && Survives(s, stationId, t)
    ensures forall s :: multiset(r)[s] == if Survives(s, stationId, t) then multiset(slots)[s] else 0
  {
    Cache.Keep(slots, s => Survives(s, stationId, t))
  }

  /** The prediction keeps survivors in order, including slots that start exactly at `t`. */
  lemma AfterStartTimeDeletionKeeps(slots: seq<Slot>, stationId: int, t: string)
    ensures Cache.Subseq(AfterStartTimeDeletion(slots, stationId, t), slots)
    ensures forall s :: s in slots && s.startTime == t ==> s in AfterStartTimeDeletion(slots, stationId, t)
    ensures forall s :: s in slots && s.radioStationId != stationId ==> s in AfterStartTimeDeletion(slots, stationId, t)
  {
    Cache.KeepIsSubseq(slots, s => Survives(s, stationId, t));
    StrLessIrreflexive(t);
  }

  /** A slot of the station that starts strictly after `t` is removed from the cache. */
  lemma AfterStartTimeDeletionDrops(slots: seq<Slot>, stationId: int, t: string, s: Slot)
    requires s.radioStationId == stationId && StrLess(t, s.startTime)
    ensures s !in AfterStartTimeDeletion(slots, stationId, t)
  {
  }

  /**
   * For the station's own slots the prediction is exact: a slot survives
   * iff it starts strictly before `t` or exactly at `t`.
   */
  lemma AfterStartTimeDeletionSplits(slots: seq<Slot>, stationId: int, t: string)
    ensures forall s :: s in slots && s.radioStationId == stationId ==>
              (s in AfterStartTimeDeletion(slots, stationId, t) <==> StrLess(s.startTime, t) || s.startTime == t)
  {
    forall s | s in slots && s.radioStationId == stationId
      ensures s in AfterStartTimeDeletion(slots, stationId, t) <==> StrLess(s.startTime, t) || s.startTime == t
    {
      StrLessTrichotomy(s.startTime, t);
      StrLessIrreflexive(t);
    }
  }

  class BroadcastSlotStore {
    var slots: seq<Slot>
    var selectedSlot: Option<Slot>
    var loading: bool
    var error: Option<ErrorValue>

    /** The store's initial state. */
    constructor ()
      ensures slots == [] && selectedSlot == None && !loading && error == None
    {
      slots := [];
      selectedSlot := None;
      loading := false;
      error := None;
    }

    /**
     * `loadAllSlots`, `loadSlotsByRadioStation`, `loadSlotsByStatus`,
     * `loadSlotsAfterStartTime`, `loadAvailableSlotsByPriority`, `loadSlotsByMonth`:
     * the server's list replaces the cache and is returned; on failure `[]`.
     */
    method Load(query: SlotQuery, reply: Outcome<seq<Slot>>) returns (r: seq<Slot>)
      modifies this
      ensures !loading && selectedSlot == old(selectedSlot)
      ensures reply.Ok? ==> slots == reply.value && r == reply.value && error == None
      ensures reply.Fail? ==> slots == old(slots) && r == [] && error == Some(Reported(reply.failure))
    {
      loading := true;
      error := None;
      match reply {
        case Ok(fetched) =>
          slots := fetched;
          r := slots;
        case Fail(f) =>
          error := Some(Reported(f));
          r := [];
      }
      loading := false;
    }

    /** `loadSlotById`: only the selection changes; on failure `null`. */
    method LoadSlotById(id: int, reply: Outcome<Slot>) returns (r: Option<Slot>)
      modifies this
      ensures !loading && slots == old(slots)
      ensures reply.Ok? ==> selectedSlot == Some(reply.value) && r == Some(reply.value) && error == None
      ensures reply.Fail? ==> selectedSlot == old(selectedSlot) && r == None && error == Some(Reported(reply.failure))
    {
      loading := true;
      error := None;
      match reply {
        case Ok(slot) =>
          selectedSlot := Some(slot);
          r := Some(slot);
        case Fail(f) =>
          error := Some(Reported(f));
          r := None;
      }
      loading := false;
    }

    /** `createSlotsFromExcel`: the slots created from the file replace the whole cache. */
    method CreateSlotsFromExcel(stationId: int, reply: Outcome<seq<Slot>>) returns (r: seq<Slot>)
      modifies this
      ensures !loading && selectedSlot == old(selectedSlot)
      ensures reply.Ok? ==> slots == reply.value && r == reply.value && error == None
      ensures reply.Fail? ==> slots == old(slots) && r == [] && error == Some(Reported(reply.failure))
    {
      loading := true;
      error := None;
      match reply {
        case Ok(newSlots) =>
          slots := newSlots;
          r := newSlots;
        case Fail(f) =>
          error := Some(Reported(f));
          r := [];
      }
      loading := false;
    }

    /** `createSlot`: the created slot is pushed at the end of the cache. */
    method CreateSlot(reply: Outcome<Slot>) returns (r: Option<Slot>)
      modifies this
      ensures !loading && selectedSlot == old(selectedSlot)
      ensures reply.Ok? ==> slots == old(slots) + [reply.value] && r == Some(reply.value) && error == None
      ensures reply.Ok? ==> |slots| == |old(slots)| + 1 && slots[..|old(slots)|] == old(slots)
      ensures reply.Fail? ==> slots == old(slots) && r == None && error == Some(Reported(reply.failure))
    {
      loading := true;
      error := None;
      match reply {
        case Ok(slot) =>
          slots := slots + [slot];
          r := Some(slot);
        case Fail(f) =>
          error := Some(Reported(f));
          r := None;
      }
      loading := false;
    }

    /**
     * The step shared by `updateSlot`, `updateSlotStatus`, `updateSlotEndTime`
     * and `splitSlot`: the slot the server returns replaces the first cached
     * slot with its id, and is returned even when no cached slot has that id.
     */
    method ApplyReturnedSlot(reply: Outcome<Slot>) returns (r: Option<Slot>)
      modifies this
      ensures !loading && selectedSlot == old(selectedSlot)
      ensures reply.Ok? ==> slots == Cache.ReplaceFirst(old(slots), reply.value, SlotId)
      ensures reply.Ok? ==> r == Some(reply.value) && error == None
      ensures reply.Fail? ==> slots == old(slots) && r == None && error == Some(Reported(reply.failure))
    {
      loading := true;
      error := None;
      match reply {
        case Ok(slot) =>
          var idx := Cache.IndexOf(slots, slot.id, SlotId);
          if idx >= 0 {
            slots := slots[idx := slot];
          }
          r := Some(slot);
        case Fail(f) =>
          error := Some(Reported(f));
          r := None;
      }
      loading := false;
    }

    /** `updateSlot(slotDto)`. */
    method UpdateSlot(slotDto: Slot, reply: Outcome<Slot>) returns (r: Option<Slot>)
      modifies this
      ensures !loading && selectedSlot == old(selectedSlot)
      ensures reply.Ok? ==> slots == Cache.ReplaceFirst(old(slots), reply.value, SlotId) && r == Some(reply.value) && error == None
      ensures reply.Fail? ==> slots == old(slots) && r == None && error == Some(Reported(reply.failure))
    {
      r := ApplyReturnedSlot(reply);
    }

    /** `updateSlotStatus(id, status)`. */
    method UpdateSlotStatus(id: int, status: SlotStatus, reply: Outcome<Slot>) returns (r: Option<Slot>)
      modifies this
      ensures !loading && selectedSlot == old(selectedSlot)
      ensures reply.Ok? ==> slots == Cache.ReplaceFirst(old(slots), reply.value, SlotId) && r == Some(reply.value) && error == None
      ensures reply.Fail? ==> slots == old(slots) && r == None && error == Some(Reported(reply.failure))
    {
      r := ApplyReturnedSlot(reply);
    }

    /** `updateSlotEndTime(id, endTime)`. */
    method UpdateSlotEndTime(id: int, endTime: string, reply: Outcome<Slot>) returns (r: Option<Slot>)
      modifies this
      ensures !loading && selectedSlot == old(selectedSlot)
      ensures reply.Ok? ==> slots == Cache.ReplaceFirst(old(slots), reply.value, SlotId) && r == Some(reply.value) && error == None
      ensures reply.Fail? ==> slots == old(slots) && r == None && error == Some(Reported(reply.failure))
    {
      r := ApplyReturnedSlot(reply);
    }

    /** `splitSlot(slotId, audioId)`. */
    method SplitSlot(slotId: int, audioId: int, reply: Outcome<Slot>) returns (r: Option<Slot>)
      modifies this
      ensures !loading && selectedSlot == old(selectedSlot)
      ensures reply.Ok? ==> slots == Cache.ReplaceFirst(old(slots), reply.value, SlotId) && r == Some(reply.value) && error == None
      ensures reply.Fail? ==> slots == old(slots) && r == None && error == Some(Reported(reply.failure))
    {
      r := ApplyReturnedSlot(reply);
    }

    /** `deleteSlot(id)`: every cached slot with that id is dropped. */
    method DeleteSlot(id: int, reply: Outcome<()>)
      modifies this
      ensures !loading && selectedSlot == old(selectedSlot)
      ensures reply.Ok? ==> slots == Cache.RemoveKey(old(slots), id, SlotId) && error == None
      ensures reply.Fail? ==> slots == old(slots) && error == Some(Reported(reply.failure))
    {
      loading := true;
      error := None;
      match reply {
        case Ok(_) =>
          slots := Cache.RemoveKey(slots, id, SlotId);
        case Fail(f) =>
          error := Some(Reported(f));
      }
      loading := false;
    }

    /**
     * `deleteSlotsAfterStartTime(stationId, startTime)`: after the server
     * deletes, the cache drops the slots it predicts were removed.
     */
    method DeleteSlotsAfterStartTime(stationId: int, startTime: string, reply: Outcome<()>)
      modifies this
      ensures !loading && selectedSlot == old(selectedSlot)
      ensures reply.Ok? ==> slots == AfterStartTimeDeletion(old(slots), stationId, startTime) && error == None
      ensures reply.Fail? ==> slots == old(slots) && error == Some(Reported(reply.failure))
    {
      loading := true;
      error := None;
      match reply {
        case Ok(_) =>
          slots := AfterStartTimeDeletion(slots, stationId, startTime);
        case Fail(f) =>
          error := Some(Reported(f));
      }
      loading := false;
    }

    /** `selectSlot(slot)`: a synchronous action; only the selection changes. */
    method SelectSlot(slot: Option<Slot>)
      modifies this
      ensures selectedSlot == slot
      ensures slots == old(slots) && loading == old(loading) && error == old(error)
    {
      selectedSlot := slot;
    }
  }
}
