/**
 * The audio-recording store. Unlike the other stores it locates cached
 * entries through a nested `recording.id`, as if the cache held response
 * envelopes `{recording, fileContentBase64}`. Only the by-id endpoint is
 * declared to answer with an envelope: the list loads, create and update
 * are declared to answer with bare recordings, and those are what end up
 * in the cache. Reading `r.recording.id` of a bare entry throws a
 * TypeError, which the action's own `catch` turns into an error. A cache
 * entry may therefore have either shape.
 */
module AudioRecordings {
  import opened Remote
  import Cache
  import Users

  datatype ApprovalStatus = APPROVED | PENDING | REJECTED

  datatype Recording = Recording(id: int, userId: int, duration: int, cost: int,
                                 approvalStatus: ApprovalStatus, filePath: string)

  /** A cache entry: a response envelope, or a bare recording put there by create or update. */
  datatype Entry =
    | Envelope(recording: Recording, fileContentBase64: string)
    | Bare(dto: Recording)

  /** The endpoint a load action reads. */
  datatype RecordingQuery = AllRecordings | ByUser(userId: int) | ByStatus(status: ApprovalStatus)

  /** The result of `findIndex(r => r.recording.id === id)`. */
  datatype Search = FoundAt(index: nat) | NotFound | SearchThrew

  /** No entry before position `k` is an envelope carrying `id`, and none of them is bare. */
  predicate PassedOver(entries: seq<Entry>, id: int, k: int)
    requires k <= |entries|
  {
    forall j :: 0 <= j < k ==> entries[j].Envelope? && entries[j].recording.id != id
  }

  /**
   * `entries.findIndex(r => r.recording.id === id)`: the scan stops at the
   * first envelope carrying `id`, and throws at a bare entry reached before it.
   */
  function FindRecording(entries: seq<Entry>, id: int): (s: Search)
    ensures s.FoundAt? ==> s.index < |entries| && PassedOver(entries, id, s.index) &&
                           entries[s.index].Envelope? && entries[s.index].recording.id == id
    ensures s.NotFound? <==> PassedOver(entries, id, |entries|)
    ensures s.SearchThrew? ==> exists k :: 0 <= k < |entries| && entries[k].Bare? && PassedOver(entries, id, k)
  {
    if entries == [] then NotFound
    else if entries[0].Bare? then SearchThrew
    else if entries[0].recording.id == id then FoundAt(0)
    else
      match FindRecording(entries[1..], id)
      case FoundAt(i) => FoundAt(i + 1)
      case NotFound => NotFound
      case SearchThrew =>
        ThrowShifts(entries, id);
        SearchThrew
  }

  /** A bare entry reached in the tail is reached in the whole when the head is passed over. */
  lemma ThrowShifts(entries: seq<Entry>, id: int)
    requires entries != [] && entries[0].Envelope? && entries[0].recording.id != id
    requires exists k :: 0 <= k < |entries[1..]| && entries[1..][k].Bare? && PassedOver(entries[1..], id, k)
    ensures exists k :: 0 <= k < |entries| && entries[k].Bare? && PassedOver(entries, id, k)
  {
    var k :| 0 <= k < |entries[1..]| && entries[1..][k].Bare? && PassedOver(entries[1..], id, k);
    assert PassedOver(entries, id, k + 1);
  }

  /**
   * The update step after a successful `updateRecording` or
   * `updateRecordingStatus`: the returned bare recording replaces the first
   * envelope carrying its id.
   */
  function SpliceReturned(entries: seq<Entry>, dto: Recording): (r: Attempt<seq<Entry>>)
    ensures r.Thrown? <==> FindRecording(entries, dto.id).SearchThrew?
    ensures r.Done? ==> |r.value| == |entries|
    ensures FindRecording(entries, dto.id).NotFound? ==> r == Done(entries)
    ensures FindRecording(entries, dto.id).FoundAt? ==>
              var k := FindRecording(entries, dto.id).index;
              r.Done? && r.value[k] == Bare(dto) &&
              forall j :: 0 <= j < |entries| && j != k ==> r.value[j] == entries[j]
  {
    match FindRecording(entries, dto.id)
    case FoundAt(i) => Done(entries[i := Bare(dto)])
    case NotFound => Done(entries)
    case SearchThrew => Thrown
  }

  /** Whether `filter(r => r.recording.id !== id)` keeps an envelope. */
  predicate KeptOnDelete(e: Entry, id: int)
  {
    e.Envelope? ==> e.recording.id != id
  }

  /**
   * `entries.filter(r => r.recording.id !== id)`: the predicate runs on
   * every entry, so a single bare entry anywhere makes it throw.
   */
  function DeleteFromEntries(entries: seq<Entry>, id: int): (r: Attempt<seq<Entry>>)
    ensures r.Thrown? <==> exists k :: 0 <= k < |entries| && entries[k].Bare?
    ensures r.Done? ==> forall e :: e in r.value <==> e in entries && e.recording.id != id
    ensures r.Done? ==> |r.value| <= |entries|
    ensures r.Done? ==> forall e: Entry :: e.Envelope? && e.recording.id != id ==>
                          multiset(r.value)[e] == multiset(entries)[e]
  {
    if exists k :: 0 <= k < |entries| && entries[k].Bare? then Thrown
    else Done(Cache.Keep(entries, e => KeptOnDelete(e, id)))
  }

  /** On a cache of envelopes, deleting is an ordinary `filter` on the recording id. */
  lemma DeleteFromEntriesIsFilter(entries: seq<Entry>, id: int)
    requires forall k :: 0 <= k < |entries| ==> entries[k].Envelope?
    ensures DeleteFromEntries(entries, id) == Done(Cache.Keep(entries, e => KeptOnDelete(e, id)))
  {
  }

  /** Deleting from a cache of envelopes keeps the remaining envelopes in their order. */
  lemma DeleteFromEntriesKeepsOrder(entries: seq<Entry>, id: int)
    requires forall k :: 0 <= k < |entries| ==> entries[k].Envelope?
    ensures DeleteFromEntries(entries, id).Done?
    ensures Cache.Subseq(DeleteFromEntries(entries, id).value, entries)
  {
    Cache.KeepIsSubseq(entries, e => KeptOnDelete(e, id));
  }

  /** Deleting the same id twice from a cache of envelopes is deleting it once. */
  lemma DeleteFromEntriesIdempotent(entries: seq<Entry>, id: int)
    requires forall k :: 0 <= k < |entries| ==> entries[k].Envelope?
    ensures DeleteFromEntries(entries, id).Done?
    ensures DeleteFromEntries(DeleteFromEntries(entries, id).value, id) == DeleteFromEntries(entries, id)
  {
    DeleteFromEntriesIsFilter(entries, id);
    var once := Cache.Keep(entries, e => KeptOnDelete(e, id));
    forall k | 0 <= k < |once| ensures once[k].Envelope? {
      assert once[k] in entries;
    }
    DeleteFromEntriesIsFilter(once, id);
    Cache.KeepIdempotent(entries, e => KeptOnDelete(e, id));
  }

  /**
   * Once create or update has put a bare recording into the cache, every
   * later delete fails locally: the cache stays as it was although the
   * server has already deleted the recording.
   */
  lemma BareEntryBlocksDelete(entries: seq<Entry>, k: nat, id: int)
    requires k < |entries| && entries[k].Bare?
    ensures DeleteFromEntries(entries, id) == Thrown
  {
  }

  /** An update that found its envelope leaves a bare entry that blocks every later delete. */
  lemma UpdateThenDeleteFails(entries: seq<Entry>, dto: Recording, id: int)
    requires FindRecording(entries, dto.id).FoundAt?
    ensures SpliceReturned(entries, dto).Done?
    ensures DeleteFromEntries(SpliceReturned(entries, dto).value, id) == Thrown
  {
    var k := FindRecording(entries, dto.id).index;
    BareEntryBlocksDelete(SpliceReturned(entries, dto).value, k, id);
  }

  /** Whether an approved entry belongs to the user (`r.recording.userId === profile.id`). */
  predicate Owns(u: Users.User, e: Entry)
  {
    e.Envelope? && e.recording.userId == u.id
  }

  /**
   * `approved.filter(r => r.recording.userId === userStore.profile.id)`,
   * evaluated entry by entry: reading `recording` of a bare entry, or `id`
   * of a null profile, throws.
   */
  function OwnedBy(profile: Option<Users.User>, approved: seq<Entry>): (r: Attempt<seq<Entry>>)
    ensures r.Thrown? <==> (approved != [] &&
                            (profile.None? || exists k :: 0 <= k < |approved| && approved[k].Bare?))
    ensures r.Done? ==> |r.value| <= |approved|
    ensures r.Done? && profile.Some? ==> forall e :: e in r.value <==> e in approved && Owns(profile.value, e)
  {
    if approved == [] then Done([])
    else if approved[0].Bare? || profile.None? then Thrown
    else
      match OwnedBy(profile, approved[1..])
      case Thrown =>
        assert forall k :: 0 <= k < |approved[1..]| ==> approved[1..][k] == approved[k + 1];
        Thrown
      case Done(rest) =>
        assert approved == [approved[0]] + approved[1..];
        Done((if approved[0].recording.userId == profile.value.id then [approved[0]] else []) + rest)
  }

  /** For a signed-in user and envelopes only, the ownership filter is an ordinary `filter`. */
  lemma {:induction false} OwnedByIsFilter(u: Users.User, approved: seq<Entry>)
    requires forall k :: 0 <= k < |approved| ==> approved[k].Envelope?
    ensures OwnedBy(Some(u), approved) == Done(Cache.Keep(approved, e => Owns(u, e)))
  {
    if approved != [] {
      OwnedByIsFilter(u, approved[1..]);
    }
  }

  /**
   * `loadAllowedRecordings` after the approved list has arrived: an admin
   * gets all of it; anyone else only the entries they own.
   */
  function Allowed(profile: Option<Users.User>, approved: seq<Entry>): (r: Attempt<seq<Entry>>)
    ensures profile.Some? && profile.value.role == Users.ADMIN ==> r == Done(approved)
    ensures !(profile.Some? && profile.value.role == Users.ADMIN) ==> r == OwnedBy(profile, approved)
  {
    if Users.RoleOf(profile) == Some(Users.ADMIN) then Done(approved)
    else OwnedBy(profile, approved)
  }

  /**
   * What a non-admin is allowed is an order-preserving selection of the
   * approved list: exactly the entries they own. A null profile fails as
   * soon as there is anything to filter, and yields nothing otherwise.
   */
  lemma AllowedForNonAdmin(profile: Option<Users.User>, approved: seq<Entry>)
    requires !(profile.Some? && profile.value.role == Users.ADMIN)
    requires forall k :: 0 <= k < |approved| ==> approved[k].Envelope?
    ensures profile.None? && approved != [] ==> Allowed(profile, approved) == Thrown
    ensures profile.None? && approved == [] ==> Allowed(profile, approved) == Done([])
    ensures profile.Some? ==> Allowed(profile, approved).Done?
    ensures profile.Some? ==> Cache.Subseq(Allowed(profile, approved).value, approved)
    ensures profile.Some? ==> forall e :: e in Allowed(profile, approved).value <==> e in approved && Owns(profile.value, e)
  {
    if profile.Some? {
      OwnedByIsFilter(profile.value, approved);
      Cache.KeepIsSubseq(approved, e => Owns(profile.value, e));
    }
  }

  class AudioRecordingStore {
    var recordings: seq<Entry>
    var selectedRecording: Option<Entry>
    var loading: bool
    var error: Option<ErrorValue>

    /** The store's initial state. */
    constructor ()
      ensures recordings == [] && selectedRecording == None && !loading && error == None
    {
      recordings := [];
      selectedRecording := None;
      loading := false;
      error := None;
    }

    /**
     * `loadAllRecordings`, `loadRecordingsByUser`, `loadRecordingsByStatus`:
     * the server's list replaces the cache and is returned; on failure `[]`.
     */
    method Load(query: RecordingQuery, reply: Outcome<seq<Entry>>) returns (r: seq<Entry>)
      modifies this
      ensures !loading && selectedRecording == old(selectedRecording)
      ensures reply.Ok? ==> recordings == reply.value && r == reply.value && error == None
      ensures reply.Fail? ==> recordings == old(recordings) && r == [] && error == Some(Reported(reply.failure))
    {
      loading := true;
      error := None;
      match reply {
        case Ok(fetched) =>
          recordings := fetched;
          r := recordings;
        case Fail(f) =>
          error := Some(Reported(f));
          r := [];
      }
      loading := false;
    }

    /** `loadRecordingById`: only the selection changes; on failure `null`. */
    method LoadRecordingById(id: int, reply: Outcome<Entry>) returns (r: Option<Entry>)
      modifies this
      ensures !loading && recordings == old(recordings)
      ensures reply.Ok? ==> selectedRecording == Some(reply.value) && r == Some(reply.value) && error == None
      ensures reply.Fail? ==> selectedRecording == old(selectedRecording) && r == None && error == Some(Reported(reply.failure))
    {
      loading := true;
      error := None;
      match reply {
        case Ok(rec) =>
          selectedRecording := Some(rec);
          r := Some(rec);
        case Fail(f) =>
          error := Some(Reported(f));
          r := None;
      }
      loading := false;
    }

    /** `createRecording(file)`: the bare recording the server returns is pushed at the end. */
    method CreateRecording(reply: Outcome<Recording>) returns (r: Option<Recording>)
      modifies this
      ensures !loading && selectedRecording == old(selectedRecording)
      ensures reply.Ok? ==> recordings == old(recordings) + [Bare(reply.value)] && r == Some(reply.value) && error == None
      ensures reply.Fail? ==> recordings == old(recordings) && r == None && error == Some(Reported(reply.failure))
    {
      loading := true;
      error := None;
      match reply {
        case Ok(rec) =>
          recordings := recordings + [Bare(rec)];
          r := Some(rec);
        case Fail(f) =>
          error := Some(Reported(f));
          r := None;
      }
      loading := false;
    }

    /**
     * The step shared by `updateRecording` and `updateRecordingStatus`. When
     * the search through the cache throws, the server's answer is lost: the
     * action reports the TypeError and returns `null`.
     */
    method ApplyReturnedRecording(reply: Outcome<Recording>) returns (r: Option<Recording>)
      modifies this
      ensures !loading && selectedRecording == old(selectedRecording)
      ensures reply.Ok? && SpliceReturned(old(recordings), reply.value).Done? ==>
                recordings == SpliceReturned(old(recordings), reply.value).value && r == Some(reply.value) && error == None
      ensures reply.Ok? && SpliceReturned(old(recordings), reply.value).Thrown? ==>
                recordings == old(recordings) && r == None && error == Some(Description(PropertyReadError))
      ensures reply.Fail? ==> recordings == old(recordings) && r == None && error == Some(Reported(reply.failure))
    {
      loading := true;
      error := None;
      match reply {
        case Ok(rec) =>
          match FindRecording(recordings, rec.id) {
            case FoundAt(idx) =>
              recordings := recordings[idx := Bare(rec)];
              r := Some(rec);
            case NotFound =>
              r := Some(rec);
            case SearchThrew =>
              error := Some(Description(PropertyReadError));
              r := None;
          }
        case Fail(f) =>
          error := Some(Reported(f));
          r := None;
      }
      loading := false;
    }

    /** `updateRecording(recDto)`. */
    method UpdateRecording(recDto: Recording, reply: Outcome<Recording>) returns (r: Option<Recording>)
      modifies this
      ensures !loading && selectedRecording == old(selectedRecording)
      ensures reply.Ok? && SpliceReturned(old(recordings), reply.value).Done? ==>
                recordings == SpliceReturned(old(recordings), reply.value).value && r == Some(reply.value) && error == None
      ensures reply.Ok? && SpliceReturned(old(recordings), reply.value).Thrown? ==>
                recordings == old(recordings) && r == None && error == Some(Description(PropertyReadError))
      ensures reply.Fail? ==> recordings == old(recordings) && r == None && error == Some(Reported(reply.failure))
    {
      r := ApplyReturnedRecording(reply);
    }

    /** `updateRecordingStatus(id, status)`. */
    method UpdateRecordingStatus(id: int, status: ApprovalStatus, reply: Outcome<Recording>) returns (r: Option<Recording>)
      modifies this
      ensures !loading && selectedRecording == old(selectedRecording)
      ensures reply.Ok? && SpliceReturned(old(recordings), reply.value).Done? ==>
                recordings == SpliceReturned(old(recordings), reply.value).value && r == Some(reply.value) && error == None
      ensures reply.Ok? && SpliceReturned(old(recordings), reply.value).Thrown? ==>
                recordings == old(recordings) && r == None && error == Some(Description(PropertyReadError))
      ensures reply.Fail? ==> recordings == old(recordings) && r == None && error == Some(Reported(reply.failure))
    {
      r := ApplyReturnedRecording(reply);
    }

    /** `deleteRecording(id)`: every envelope carrying that id is dropped. */
    method DeleteRecording(id: int, reply: Outcome<()>)
      modifies this
      ensures !loading && selectedRecording == old(selectedRecording)
      ensures reply.Ok? && DeleteFromEntries(old(recordings), id).Done? ==>
                recordings == DeleteFromEntries(old(recordings), id).value && error == None
      ensures reply.Ok? && DeleteFromEntries(old(recordings), id).Thrown? ==>
                recordings == old(recordings) && error == Some(Description(PropertyReadError))
      ensures reply.Fail? ==> recordings == old(recordings) && error == Some(Reported(reply.failure))
    {
      loading := true;
      error := None;
      match reply {
        case Ok(_) =>
          match DeleteFromEntries(recordings, id) {
            case Done(kept) =>
              recordings := kept;
            case Thrown =>
              error := Some(Description(PropertyReadError));
          }
        case Fail(f) =>
          error := Some(Reported(f));
      }
      loading := false;
    }

    /** `selectRecording(rec)`: a synchronous action; only the selection changes. */
    method SelectRecording(rec: Option<Entry>)
      modifies this
      ensures selectedRecording == rec
      ensures recordings == old(recordings) && loading == old(loading) && error == old(error)
    {
      selectedRecording := rec;
    }

    /**
     * `loadAllowedRecordings()`: fetches the approved recordings, then keeps
     * what the signed-in user may see. A failure of the fetch, or a TypeError
     * while filtering, leaves the cache as it was and returns `[]`.
     */
    method LoadAllowedRecordings(session: Users.UserStore, reply: Outcome<seq<Entry>>) returns (r: seq<Entry>)
      modifies this
      ensures !loading && selectedRecording == old(selectedRecording)
      ensures reply.Ok? && Allowed(session.profile, reply.value).Done? ==>
                recordings == Allowed(session.profile, reply.value).value && r == recordings && error == None
      ensures reply.Ok? && Allowed(session.profile, reply.value).Thrown? ==>
                recordings == old(recordings) && r == [] && error == Some(Description(PropertyReadError))
      ensures reply.Fail? ==> recordings == old(recordings) && r == [] && error == Some(Reported(reply.failure))
    {
      loading := true;
      error := None;
      match reply {
        case Ok(approved) =>
          if Users.RoleOf(session.profile) == Some(Users.ADMIN) {
            recordings := approved;
            r := recordings;
          } else {
            match OwnedBy(session.profile, approved) {
              case Done(own) =>
                recordings := own;
                r := recordings;
              case Thrown =>
                error := Some(Description(PropertyReadError));
                r := [];
            }
          }
        case Fail(f) =>
          error := Some(Reported(f));
          r := [];
      }
      loading := false;
    }
  }
}
