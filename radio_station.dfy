/**
 * The radio-station store. Creating a station does not append to the
 * cache: the cache becomes that one station, which is also selected, the
 * view of a representative who owns a single station. The by-name load
 * stores the single station its endpoint answers with, not a list.
 */
module RadioStations {
  import opened Remote

  datatype RadioStation = RadioStation(id: int, name: string, frequency: int, cityId: int, representativeId: int)

  /** The endpoint a list load reads. */
  datatype StationQuery = AllStations | ByFrequency(frequency: int) | ByCityId(cityId: int)

  /**
   * What the `stations` field holds: an array, or the lone station object
   * `loadStationsByName` puts there.
   */
  datatype Stations = StationList(items: seq<RadioStation>) | LoneStation(station: RadioStation)

  /** The endpoint a single-station load reads. */
  datatype StationLookup = ById(id: int) | ByRepresentativeId(repId: int)

  class RadioStationStore {
    var stations: Stations
    var selectedStation: Option<RadioStation>
    var loading: bool
    var error: Option<ErrorValue>

    /** The store's initial state. */
    constructor ()
      ensures stations == StationList([]) && selectedStation == None && !loading && error == None
    {
      stations := StationList([]);
      selectedStation := None;
      loading := false;
      error := None;
    }

    /**
     * `loadAllStations`, `loadStationsByFrequency`, `loadStationsByCityId`:
     * the server's list replaces the cache and is returned; on failure `[]`.
     */
    method Load(query: StationQuery, reply: Outcome<seq<RadioStation>>) returns (r: seq<RadioStation>)
      modifies this
      ensures !loading && selectedStation == old(selectedStation)
      ensures reply.Ok? ==> stations == StationList(reply.value) && r == reply.value && error == None
      ensures reply.Fail? ==> stations == old(stations) && r == [] && error == Some(Reported(reply.failure))
    {
      loading := true;
      error := None;
      match reply {
        case Ok(fetched) =>
          stations := StationList(fetched);
          r := fetched;
        case Fail(f) =>
          error := Some(Reported(f));
          r := [];
      }
      loading := false;
    }

    /**
     * `loadStationsByName(name)`: its endpoint answers with one station, and
     * that object, not a list, becomes the cache and is returned; on
     * failure `[]`.
     */
    method LoadByName(name: string, reply: Outcome<RadioStation>) returns (r: Stations)
      modifies this
      ensures !loading && selectedStation == old(selectedStation)
      ensures reply.Ok? ==> stations == LoneStation(reply.value) && r == stations && error == None
      ensures reply.Fail? ==> stations == old(stations) && r == StationList([]) && error == Some(Reported(reply.failure))
    {
      loading := true;
      error := None;
      match reply {
        case Ok(station) =>
          stations := LoneStation(station);
          r := stations;
        case Fail(f) =>
          error := Some(Reported(f));
          r := StationList([]);
      }
      loading := false;
    }

    /** `loadStationById`, `loadStationByRepresentativeId`: only the selection changes; on failure `null`. */
    method LoadOne(lookup: StationLookup, reply: Outcome<RadioStation>) returns (r: Option<RadioStation>)
      modifies this
      ensures !loading && stations == old(stations)
      ensures reply.Ok? ==> selectedStation == Some(reply.value) && r == Some(reply.value) && error == None
      ensures reply.Fail? ==> selectedStation == old(selectedStation) && r == None && error == Some(Reported(reply.failure))
    {
      loading := true;
      error := None;
      match reply {
        case Ok(station) =>
          selectedStation := Some(station);
          r := Some(station);
        case Fail(f) =>
          error := Some(Reported(f));
          r := None;
      }
      loading := false;
    }

    /** `selectStation(station)`: a synchronous action; only the selection changes. */
    method SelectStation(station: Option<RadioStation>)
      modifies this
      ensures selectedStation == station
      ensures stations == old(stations) && loading == old(loading) && error == old(error)
    {
      selectedStation := station;
    }

    /** `createStation(stationDto)`: the cache becomes exactly the new station, which is selected. */
    method CreateStation(stationDto: RadioStation, reply: Outcome<RadioStation>) returns (r: Option<RadioStation>)
      modifies this
      ensures !loading
      ensures reply.Ok? ==> stations == StationList([reply.value]) && selectedStation == Some(reply.value)
      ensures reply.Ok? ==> r == Some(reply.value) && error == None
      ensures reply.Fail? ==> stations == old(stations) && selectedStation == old(selectedStation)
      ensures reply.Fail? ==> r == None && error == Some(Reported(reply.failure))
    {
      loading := true;
      error := None;
      match reply {
        case Ok(station) =>
          stations := StationList([station]);
          selectedStation := Some(station);
          r := Some(station);
        case Fail(f) =>
          error := Some(Reported(f));
          r := None;
      }
      loading := false;
    }
  }
}
