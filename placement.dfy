/**
 * The placement store. Besides the usual actions it can gather the
 * placements of a list of slots with one lookup per slot, where a failed
 * lookup only means that slot has no placement.
 */
module Placements {
  import opened Remote
  import Cache
  import BroadcastSlots

  /** The assignment of one audio recording to one broadcast slot. */
  datatype Placement = Placement(id: int, broadcastSlotId: int, audioRecordingId: int, placementDate: string)

  function PlacementId(p: Placement): int { p.id }

  /**
   * What one per-slot lookup contributes after `.catch(() => null)` and
   * `filter(p => p)`: a placement if the call succeeded with a non-null body.
   */
  function Present(o: Outcome<Option<Placement>>): (r: seq<Placement>)
    ensures |r| <= 1
    ensures r != [] <==> o.Ok? && o.value.Some?
    ensures r != [] ==> r[0] == o.value.value
  {
    match o
    case Ok(Some(p)) => [p]
    case _ => []
  }

  /**
   * `Promise.all(slots.map(slot => lookup(slot.id).catch(() => null)))`
   * followed by `filter(p => p)`: the placements found, in slot order.
   * `lookup` is the server's answer for a broadcast-slot id.
   */
  function Gathered(slots: seq<BroadcastSlots.Slot>, lookup: int -> Outcome<Option<Placement>>): (r: seq<Placement>)
    ensures |r| <= |slots|
  {
    if slots == [] then []
    else Present(lookup(slots[0].id)) + Gathered(slots[1..], lookup)
  }

  /** A placement is gathered exactly when the lookup of some slot's id found it. */
  lemma {:induction false} GatheredMembers(slots: seq<BroadcastSlots.Slot>, lookup: int -> Outcome<Option<Placement>>)
    ensures forall p :: p in Gathered(slots, lookup) <==>
                        exists i :: 0 <= i < |slots| && lookup(slots[i].id) == Ok(Some(p))
  {
    if slots != [] {
      GatheredMembers(slots[1..], lookup);
      assert forall i :: 0 <= i < |slots[1..]| ==> slots[1..][i] == slots[i + 1];
      forall p | exists i :: 0 <= i < |slots| && lookup(slots[i].id) == Ok(Some(p))
        ensures p in Gathered(slots, lookup)
      {
        var i :| 0 <= i < |slots| && lookup(slots[i].id) == Ok(Some(p));
        if i > 0 {
          assert slots[1..][i - 1] == slots[i];
        }
      }
    }
  }

  /** Gathering over two lists of slots is gathering over each, in order. */
  lemma {:induction false} GatheredAppend(a: seq<BroadcastSlots.Slot>, b: seq<BroadcastSlots.Slot>,
                                          lookup: int -> Outcome<Option<Placement>>)
    ensures Gathered(a + b, lookup) == Gathered(a, lookup) + Gathered(b, lookup)
  {
    if a == [] {
      assert a + b == b;
    } else {
      assert (a + b)[1..] == a[1..] + b;
      GatheredAppend(a[1..], b, lookup);
    }
  }

  /**
   * A slot whose lookup failed (or found nothing) contributes nothing and
   * does not disturb what the other slots contribute.
   */
  lemma FailedLookupIsDropped(slots: seq<BroadcastSlots.Slot>, i: nat, lookup: int -> Outcome<Option<Placement>>)
    requires i < |slots| && !(lookup(slots[i].id).Ok? && lookup(slots[i].id).value.Some?)
    ensures Gathered(slots, lookup) == Gathered(slots[..i] + slots[i + 1..], lookup)
  {
    var pre, mid, post := slots[..i], [slots[i]], slots[i + 1..];
    assert slots == pre + (mid + post);
    assert mid[1..] == [];
    assert Gathered(mid, lookup) == Present(lookup(slots[i].id)) + Gathered([], lookup);
    GatheredAppend(mid, post, lookup);
    GatheredAppend(pre, mid + post, lookup);
    GatheredAppend(pre, post, lookup);
  }

  /** When every lookup finds a placement, the result lists them slot by slot. */
  lemma {:induction false} AllLookupsPresent(slots: seq<BroadcastSlots.Slot>, lookup: int -> Outcome<Option<Placement>>)
    requires forall i :: 0 <= i < |slots| ==> lookup(slots[i].id).Ok? && lookup(slots[i].id).value.Some?
    ensures |Gathered(slots, lookup)| == |slots|
    ensures forall i :: 0 <= i < |slots| ==> Gathered(slots, lookup)[i] == lookup(slots[i].id).value.value
  {
    if slots != [] {
      AllLookupsPresent(slots[1..], lookup);
    }
  }

  /**
   * The result depends on the server only through the lookups keyed by the
   * slots' ids: exactly one lookup per slot, by that slot's `id`.
   */
  lemma {:induction false} GatheredUsesSlotIds(slots: seq<BroadcastSlots.Slot>,
                                               lookup1: int -> Outcome<Option<Placement>>,
                                               lookup2: int -> Outcome<Option<Placement>>)
    requires forall i :: 0 <= i < |slots| ==> lookup1(slots[i].id) == lookup2(slots[i].id)
    ensures Gathered(slots, lookup1) == Gathered(slots, lookup2)
  {
    if slots != [] {
      GatheredUsesSlotIds(slots[1..], lookup1, lookup2);
    }
  }

  class PlacementStore {
    var placements: seq<Placement>
    var selectedPlacement: Option<Placement>
    var loading: bool
    var error: Option<ErrorValue>

    /** The store's initial state. */
    constructor ()
      ensures placements == [] && selectedPlacement == None && !loading && error == None
    {
      placements := [];
      selectedPlacement := None;
      loading := false;
      error := None;
    }

    /** `loadAllPlacements`: the server's list replaces the cache and is returned; on failure `[]`. */
    method LoadAllPlacements(reply: Outcome<seq<Placement>>) returns (r: seq<Placement>)
      modifies this
      ensures !loading && selectedPlacement == old(selectedPlacement)
      ensures reply.Ok? ==> placements == reply.value && r == reply.value && error == None
      ensures reply.Fail? ==> placements == old(placements) && r == [] && error == Some(Reported(reply.failure))
    {
      loading := true;
      error := None;
      match reply {
        case Ok(fetched) =>
          placements := fetched;
          r := placements;
        case Fail(f) =>
          error := Some(Reported(f));
          r := [];
      }
      loading := false;
    }

    /**
     * `loadPlacementById(id)`: looks the placement up by broadcast-slot id;
     * only the selection changes; on failure `null`.
     */
    method LoadPlacementById(broadcastSlotId: int, reply: Outcome<Option<Placement>>) returns (r: Option<Placement>)
      modifies this
      ensures !loading && placements == old(placements)
      ensures reply.Ok? ==> selectedPlacement == reply.value && r == reply.value && error == None
      ensures reply.Fail? ==> selectedPlacement == old(selectedPlacement) && r == None && error == Some(Reported(reply.failure))
    {
      loading := true;
      error := None;
      match reply {
        case Ok(p) =>
          selectedPlacement := p;
          r := p;
        case Fail(f) =>
          error := Some(Reported(f));
          r := None;
      }
      loading := false;
    }

    /**
     * `loadPlacementsFromSlots(slots)`: the placements found replace the
     * cache; a failed lookup is never reported as an error.
     */
    method LoadPlacementsFromSlots(slots: seq<BroadcastSlots.Slot>, lookup: int -> Outcome<Option<Placement>>)
      returns (r: seq<Placement>)
      modifies this
      ensures !loading && selectedPlacement == old(selectedPlacement)
      ensures placements == Gathered(slots, lookup) && r == placements && error == None
      ensures |r| <= |slots|
    {
      loading := true;
      error := None;
      placements := Gathered(slots, lookup);
      r := placements;
      loading := false;
    }

    /** `createPlacement(dto)`: the created placement is pushed at the end and selected. */
    method CreatePlacement(dto: Placement, reply: Outcome<Placement>) returns (r: Option<Placement>)
      modifies this
      ensures !loading
      ensures reply.Ok? ==> placements == old(placements) + [reply.value] && selectedPlacement == Some(reply.value)
      ensures reply.Ok? ==> r == Some(reply.value) && error == None
      ensures reply.Fail? ==> placements == old(placements) && selectedPlacement == old(selectedPlacement)
      ensures reply.Fail? ==> r == None && error == Some(Reported(reply.failure))
    {
      loading := true;
      error := None;
      match reply {
        case Ok(p) =>
          placements := placements + [p];
          selectedPlacement := Some(p);
          r := Some(p);
        case Fail(f) =>
          error := Some(Reported(f));
          r := None;
      }
      loading := false;
    }

    /**
     * `updatePlacement(dto)`: the returned placement replaces the first
     * cached one with its id and becomes the selection, matched or not.
     */
    method UpdatePlacement(dto: Placement, reply: Outcome<Placement>) returns (r: Option<Placement>)
      modifies this
      ensures !loading
      ensures reply.Ok? ==> placements == Cache.ReplaceFirst(old(placements), reply.value, PlacementId)
      ensures reply.Ok? ==> selectedPlacement == Some(reply.value) && r == Some(reply.value) && error == None
      ensures reply.Fail? ==> placements == old(placements) && selectedPlacement == old(selectedPlacement)
      ensures reply.Fail? ==> r == None && error == Some(Reported(reply.failure))
    {
      loading := true;
      error := None;
      match reply {
        case Ok(updated) =>
          var idx := Cache.IndexOf(placements, updated.id, PlacementId);
          if idx >= 0 {
            placements := placements[idx := updated];
          }
          selectedPlacement := Some(updated);
          r := Some(updated);
        case Fail(f) =>
          error := Some(Reported(f));
          r := None;
      }
      loading := false;
    }

    /** `deletePlacement(id)`: every cached placement with that id is dropped. */
    method DeletePlacement(id: int, reply: Outcome<()>)
      modifies this
      ensures !loading && selectedPlacement == old(selectedPlacement)
      ensures reply.Ok? ==> placements == Cache.RemoveKey(old(placements), id, PlacementId) && error == None
      ensures reply.Fail? ==> placements == old(placements) && error == Some(Reported(reply.failure))
    {
      loading := true;
      error := None;
      match reply {
        case Ok(_) =>
          placements := Cache.RemoveKey(placements, id, PlacementId);
        case Fail(f) =>
          error := Some(Reported(f));
      }
      loading := false;
    }

    /** `selectPlacement(p)`: a synchronous action; only the selection changes. */
    method SelectPlacement(p: Option<Placement>)
      modifies this
      ensures selectedPlacement == p
      ensures placements == old(placements) && loading == old(loading) && error == old(error)
    {
      selectedPlacement := p;
    }
  }
}
