/** The city store: a cache of cities, the selected city, a loading flag and the last error. */
module Cities {
  import opened Remote

  datatype City = City(id: int, name: string, region: string)

  /** The endpoint a list load reads. */
  datatype CityQuery = AllCities | ByRegion(region: string) | ByName(name: string)

  /** The endpoint a single-city load reads. */
  datatype CityLookup = ById(id: int) | ByNameAndRegion(name: string, region: string)

  class CityStore {
    var cities: seq<City>
    var selectedCity: Option<City>
    var loading: bool
    var error: Option<ErrorValue>

    /** The store's initial state. */
    constructor ()
      ensures cities == [] && selectedCity == None && !loading && error == None
    {
      cities := [];
      selectedCity := None;
      loading := false;
      error := None;
    }

    /**
     * `loadAllCities`, `loadCitiesByRegion`, `loadCitiesByName`: the server's
     * list replaces the cache and is returned; on failure `[]`.
     */
    method Load(query: CityQuery, reply: Outcome<seq<City>>) returns (r: seq<City>)
      modifies this
      ensures !loading && selectedCity == old(selectedCity)
      ensures reply.Ok? ==> cities == reply.value && r == reply.value && error == None
      ensures reply.Fail? ==> cities == old(cities) && r == [] && error == Some(Reported(reply.failure))
    {
      loading := true;
      error := None;
      match reply {
        case Ok(fetched) =>
          cities := fetched;
          r := cities;
        case Fail(f) =>
          error := Some(Reported(f));
          r := [];
      }
      loading := false;
    }

    /** `loadCityById`, `loadCityByNameAndRegion`: only the selection changes; on failure `null`. */
    method LoadOne(lookup: CityLookup, reply: Outcome<City>) returns (r: Option<City>)
      modifies this
      ensures !loading && cities == old(cities)
      ensures reply.Ok? ==> selectedCity == Some(reply.value) && r == Some(reply.value) && error == None
      ensures reply.Fail? ==> selectedCity == old(selectedCity) && r == None && error == Some(Reported(reply.failure))
    {
      loading := true;
      error := None;
      match reply {
        case Ok(city) =>
          selectedCity := Some(city);
          r := Some(city);
        case Fail(f) =>
          error := Some(Reported(f));
          r := None;
      }
      loading := false;
    }

    /** `selectCity(city)`: a synchronous action; only the selection changes. */
    method SelectCity(city: Option<City>)
      modifies this
      ensures selectedCity == city
      ensures cities == old(cities) && loading == old(loading) && error == old(error)
    {
      selectedCity := city;
    }
  }
}
