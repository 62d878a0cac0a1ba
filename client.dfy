/**
 * `PollenApi` (api.py:71-121): a client with three caches that are filled at
 * most once each. The network is a parameter: `fetch` gives the decoded body
 * a GET request would return, or `None` when `request` swallowed a failure.
 * The ghost field `requests` logs every request the client issues.
 */
module Client {
  import opened Wrappers
  import opened PyJson
  import opened Api
  import Const

  /** The GET requests the client issues. */
  datatype Request = PollenTypesRequest | RegionsRequest | ForecastsRequest(regionId: Json)

  /** The network as the client sees it. */
  type Fetch = Request -> Option<Json>

  /** The URL of a request as api.py writes it (api.py:84, 96, 114); the
      region is rendered only when it is a string. */
  function Url(req: Request): Option<string> {
    match req
    case PollenTypesRequest => Some("https://api.pollenrapporten.se/v1/pollen-types")
    case RegionsRequest => Some("https://api.pollenrapporten.se/v1/regions")
    case ForecastsRequest(region) =>
      if region.JStr? then Some("https://api.pollenrapporten.se/v1/forecasts?region_id=" + region.s + "&current=true")
      else None
  }

  /** Whether `q` occurs in `s`. */
  ghost predicate Contains(s: string, q: string) {
    exists k :: 0 <= k <= |s| && q <= s[k..]
  }

  /** The hard-coded pollen-types and regions URLs are `BASE_URL` followed
      by the matching `Endpoints` path. */
  lemma UrlsAgreeWithEndpoints()
    ensures Url(PollenTypesRequest) == Some(Const.BASE_URL + Const.Path(Const.PollenTypes))
    ensures Url(RegionsRequest) == Some(Const.BASE_URL + Const.Path(Const.Regions))
  {
    var base := Const.BASE_URL;
    var types := Url(PollenTypesRequest).value;
    var regions := Url(RegionsRequest).value;
    assert Const.Path(Const.PollenTypes) == "/v1/pollen-types";
    assert Const.Path(Const.Regions) == "/v1/regions";
    assert types == base + "/v1/pollen-types" by {
      assert |types| == |base + "/v1/pollen-types"|;
      forall k | 0 <= k < |types|
        ensures types[k] == (base + "/v1/pollen-types")[k]
      {
      }
    }
    assert regions == base + "/v1/regions" by {
      assert |regions| == |base + "/v1/regions"|;
      forall k | 0 <= k < |regions|
        ensures regions[k] == (base + "/v1/regions")[k]
      {
      }
    }
  }

  /** A forecast URL starts with `BASE_URL` and the forecasts path, and its
      query asks for the given region and for current data. */
  lemma ForecastUrl(region: string)
    ensures Url(ForecastsRequest(JStr(region))).Some?
    ensures var u := Url(ForecastsRequest(JStr(region))).value;
      && Const.BASE_URL + Const.Path(Const.Forecasts) <= u
      && Contains(u, "region_id=" + region + "&current=true")
  {
    var u := Url(ForecastsRequest(JStr(region))).value;
    var head := "https://api.pollenrapporten.se/v1/forecasts?";
    var q := "region_id=" + region + "&current=true";
    assert u == head + q;
    assert u[|head|..] == q;
    var path := Const.BASE_URL + Const.Path(Const.Forecasts);
    assert Const.Path(Const.Forecasts) == "/v1/forecasts";
    assert path <= head by {
      assert |path| == |head| - 1;
      forall k | 0 <= k < |path|
        ensures path[k] == head[k]
      {
      }
    }
  }

  /** A cache slot after an attempt to fill it. */
  function Slot<T>(r: Result<T, PyError>): (s: Option<T>)
    ensures s.Some? <==> r.Success?
    ensures s.Some? ==> s.value == r.value
  {
    if r.Success? then Some(r.value) else None
  }

  /** What a `get` accessor hands back: the cached value when there is one,
      otherwise the outcome of building it from a new response. */
  function Loaded<T>(cached: Option<T>, built: Result<T, PyError>): (r: Result<T, PyError>)
    ensures cached.Some? ==> r == Success(cached.value)
    ensures cached.None? ==> r == built
  {
    if cached.Some? then Success(cached.value) else built
  }

  /** The request an accessor issues: one when its slot is empty, none otherwise. */
  function IssuedIf<T>(cached: Option<T>, req: Request): (rs: seq<Request>)
    ensures cached.None? ==> rs == [req]
    ensures cached.Some? ==> rs == []
  {
    if cached.None? then [req] else []
  }

  /** The region a forecast is fetched for: the argument, or the first city's
      region when the argument is empty (IndexError without any city). */
  function ResolveRegion(regionId: string, cities: seq<City>): (r: Result<Json, PyError>)
    ensures regionId != "" ==> r == Success(JStr(regionId))
    ensures regionId == "" ==> (r.Success? <==> |cities| > 0)
    ensures regionId == "" && |cities| > 0 ==> r == Success(cities[0].regionId)
    ensures r.Failure? ==> r.error == IndexError
  {
    if regionId != "" then Success(JStr(regionId))
    else if |cities| == 0 then Failure(IndexError)
    else Success(cities[0].regionId)
  }

  /** Without a region argument the forecast is fetched for the `id` of the
      first item of the regions response, and fails with IndexError when
      that response lists no region; a region argument is used as given. */
  lemma DefaultRegionFromResponse(regionId: string, response: Option<Json>)
    requires CitiesFrom(response).Success?
    ensures var cs := CitiesFrom(response).value;
      var items := CatalogItems(response).value;
      && (regionId != "" ==> ResolveRegion(regionId, cs) == Success(JStr(regionId)))
      && (regionId == "" ==> (ResolveRegion(regionId, cs).Success? <==> items != []))
      && (regionId == "" && items != [] ==>
            IsRecord(items[0]) && ResolveRegion(regionId, cs) == Success(items[0].fields["id"]))
      && (regionId == "" && items == [] ==> ResolveRegion(regionId, cs) == Failure(IndexError))
  {
  }

  /** A cached table is keyed by the pollen-type catalog it was built from. */
  ghost predicate KeyedByCatalog(catalog: seq<PollenType>, t: Table) {
    InitialTable(catalog).Success? && Keys(t) == Keys(InitialTable(catalog).value)
  }

  ghost predicate ForecastRequested(rs: seq<Request>) {
    exists i :: 0 <= i < |rs| && rs[i].ForecastsRequest?
  }

  class PollenApi {
    /** `_url`, used only by the generic data accessors. */
    const url: string
    var pollenTypes: Option<seq<PollenType>>
    var cities: Option<seq<City>>
    var forecast: Option<Table>
    ghost var requests: seq<Request>

    /** A filled slot was filled from a request, and a cached forecast is
        keyed by the cached pollen-type catalog. */
    ghost predicate Valid()
      reads this
    {
      && (pollenTypes.Some? ==> PollenTypesRequest in requests)
      && (cities.Some? ==> RegionsRequest in requests)
      && (forecast.Some? ==>
            && pollenTypes.Some? && cities.Some?
            && KeyedByCatalog(pollenTypes.value, forecast.value)
            && ForecastRequested(requests))
    }

    constructor (url: string)
      ensures Valid()
      ensures this.url == url
      ensures pollenTypes == None && cities == None && forecast == None
      ensures requests == []
    {
      this.url := url;
      pollenTypes := None;
      cities := None;
      forecast := None;
      requests := [];
    }

    /** `async_get_pollen_types` (api.py:80-90). */
    method GetPollenTypes(fetch: Fetch) returns (r: Result<seq<PollenType>, PyError>)
      requires Valid()
      modifies this
      ensures Valid()
      ensures r == Loaded(old(pollenTypes), PollenTypesFrom(fetch(PollenTypesRequest)))
      ensures pollenTypes == Slot(r)
      ensures requests == old(requests) + IssuedIf(old(pollenTypes), PollenTypesRequest)
      ensures cities == old(cities) && forecast == old(forecast)
    {
      if pollenTypes.None? {
        requests := requests + [PollenTypesRequest];
        var response := fetch(PollenTypesRequest);
        var built := PollenTypesFrom(response);
        if built.Failure? {
          return Failure(built.error);
        }
        pollenTypes := Some(built.value);
      }
      r := Success(pollenTypes.value);
    }

    /** `async_get_cities` (api.py:92-102). */
    method GetCities(fetch: Fetch) returns (r: Result<seq<City>, PyError>)
      requires Valid()
      modifies this
      ensures Valid()
      ensures r == Loaded(old(cities), CitiesFrom(fetch(RegionsRequest)))
      ensures cities == Slot(r)
      ensures requests == old(requests) + IssuedIf(old(cities), RegionsRequest)
      ensures pollenTypes == old(pollenTypes) && forecast == old(forecast)
    {
      if cities.None? {
        requests := requests + [RegionsRequest];
        var response := fetch(RegionsRequest);
        var built := CitiesFrom(response);
        if built.Failure? {
          return Failure(built.error);
        }
        cities := Some(built.value);
      }
      r := Success(cities.value);
    }

    /** `async_get_forecast` (api.py:104-121). With a cached table, that table
        is returned whatever region is asked for. Otherwise the catalogs are
        loaded first, each exception ending the call where it arises; then the
        region is resolved, the forecast is requested, and the table is built
        and cached. */
    method GetForecast(regionId: string, fetch: Fetch) returns (r: Result<Table, PyError>)
      requires Valid()
      modifies this
      ensures Valid()
      ensures r.Success? ==> pollenTypes.Some? && KeyedByCatalog(pollenTypes.value, r.value)
      ensures old(forecast).None? && regionId == "" && r.Success? ==>
        && cities.Some? && |cities.value| > 0
        && requests[|requests| - 1] == ForecastsRequest(cities.value[0].regionId)
      ensures old(forecast).Some? ==>
        && r == Success(old(forecast).value)
        && pollenTypes == old(pollenTypes) && cities == old(cities) && forecast == old(forecast)
        && requests == old(requests)
      ensures old(forecast).None? ==>
        var types := Loaded(old(pollenTypes), PollenTypesFrom(fetch(PollenTypesRequest)));
        var afterTypes := old(requests) + IssuedIf(old(pollenTypes), PollenTypesRequest);
        && pollenTypes == Slot(types)
        && (types.Failure? ==>
              r == Failure(types.error) && cities == old(cities) && forecast == None && requests == afterTypes)
        && (types.Success? ==>
              var regions := Loaded(old(cities), CitiesFrom(fetch(RegionsRequest)));
              var afterCities := afterTypes + IssuedIf(old(cities), RegionsRequest);
              && cities == Slot(regions)
              && (regions.Failure? ==>
                    r == Failure(regions.error) && forecast == None && requests == afterCities)
              && (regions.Success? ==>
                    var region := ResolveRegion(regionId, regions.value);
                    && (region.Failure? ==>
                          r == Failure(region.error) && forecast == None && requests == afterCities)
                    && (region.Success? ==>
                          && r == BuildForecast(types.value, fetch(ForecastsRequest(region.value)))
                          && forecast == Slot(r)
                          && requests == afterCities + [ForecastsRequest(region.value)])))
    {
      if forecast.Some? {
        assert KeyedByCatalog(pollenTypes.value, forecast.value);
        return Success(forecast.value);
      }
      if pollenTypes.None? {
        var loaded := GetPollenTypes(fetch);
        if loaded.Failure? {
          return Failure(loaded.error);
        }
      }
      if cities.None? {
        var loaded := GetCities(fetch);
        if loaded.Failure? {
          return Failure(loaded.error);
        }
      }
      r := FetchForecast(regionId, fetch);
    }

    /** The uncached part of `async_get_forecast` once both catalogs are
        loaded (api.py:110-120): resolve the region, request its forecast,
        build the table and cache it. */
    method FetchForecast(regionId: string, fetch: Fetch) returns (r: Result<Table, PyError>)
      requires Valid() && forecast.None? && pollenTypes.Some? && cities.Some?
      modifies this
      ensures Valid()
      ensures pollenTypes == old(pollenTypes) && cities == old(cities)
      ensures var region := ResolveRegion(regionId, cities.value);
        && (region.Failure? ==> r == Failure(region.error) && forecast == None && requests == old(requests))
        && (region.Success? ==>
              && r == BuildForecast(pollenTypes.value, fetch(ForecastsRequest(region.value)))
              && forecast == Slot(r)
              && requests == old(requests) + [ForecastsRequest(region.value)])
      ensures r.Success? ==> KeyedByCatalog(pollenTypes.value, r.value)
      ensures regionId == "" && r.Success? ==>
        |cities.value| > 0 && requests[|requests| - 1] == ForecastsRequest(cities.value[0].regionId)
    {
      var region := ResolveRegion(regionId, cities.value);
      if region.Failure? {
        return Failure(region.error);
      }
      requests := requests + [ForecastsRequest(region.value)];
      var response := fetch(ForecastsRequest(region.value));
      var table := InitialTable(pollenTypes.value);
      if table.Failure? {
        return Failure(table.error);
      }
      var series := LevelSeries(response);
      if series.Failure? {
        return Failure(series.error);
      }
      r := FoldLevelSeries(table.value, series.value);
      assert r == BuildForecast(pollenTypes.value, response);
      if r.Success? {
        FoldKeys(table.value, series.value);
        forecast := Some(r.value);
        assert requests[|requests| - 1] == ForecastsRequest(region.value);
      }
    }
  }

  /**
   * The loop of api.py:117-119 over a local table: each item's level is
   * filed under the entry its `pollenId` finds, at its `time`.
   */
  method FoldLevelSeries(initial: Table, series: seq<Json>) returns (r: Result<Table, PyError>)
    ensures r == Fold(initial, series)
  {
    var forecast := initial;
    var n := 0;
    while n < |series|
      invariant 0 <= n <= |series|
      invariant Fold(initial, series[..n]) == Success(forecast)
    {
      var item := series[n];
      assert series[..n + 1][..n] == series[..n];
      FoldSnoc(initial, series[..n + 1]);
      var pollenId := Field(item, "pollenId");
      var level := Field(item, "level");
      var i := if pollenId.Success? then Lookup(forecast, pollenId.value) else Failure(TypeError);
      var time := Field(item, "time");
      if pollenId.Failure? || level.Failure? || i.Failure? || time.Failure? || !Hashable(time.value) {
        r := if pollenId.Failure? then Failure(pollenId.error)
             else if level.Failure? then Failure(level.error)
             else if i.Failure? then Failure(i.error)
             else if time.Failure? then Failure(time.error)
             else Failure(TypeError);
        assert Step(forecast, item) == r;
        FoldFailurePersists(initial, series, n + 1);
        return;
      }
      var k := i.value;
      forecast := forecast[k := Row(forecast[k].key, forecast[k].levels[time.value := level.value])];
      n := n + 1;
    }
    assert series[..n] == series;
    r := Success(forecast);
  }

  /** Two calls to `async_get_pollen_types` on a new client, each seeing the
      network as it is at that moment: once the first has filled the cache,
      the second returns the same catalog and issues no request; after a
      failed first call the slot is still empty, so the second call requests
      again and returns what the new response gives. */
  method PollenTypesTwice(fetch1: Fetch, fetch2: Fetch) returns (first: Result<seq<PollenType>, PyError>,
                                                 second: Result<seq<PollenType>, PyError>,
                                                 ghost issued: seq<Request>)
    ensures first == PollenTypesFrom(fetch1(PollenTypesRequest))
    ensures first.Success? ==> second == first && issued == [PollenTypesRequest]
    ensures first.Failure? ==> second == PollenTypesFrom(fetch2(PollenTypesRequest)) && issued == [PollenTypesRequest, PollenTypesRequest]
  {
    var api := new PollenApi("");
    first := api.GetPollenTypes(fetch1);
    second := api.GetPollenTypes(fetch2);
    issued := api.requests;
  }

  /** Two calls to `async_get_cities` on a new client: one request when the
      first succeeds, a fresh one when it failed. */
  method CitiesTwice(fetch1: Fetch, fetch2: Fetch) returns (first: Result<seq<City>, PyError>,
                                            second: Result<seq<City>, PyError>,
                                            ghost issued: seq<Request>)
    ensures first == CitiesFrom(fetch1(RegionsRequest))
    ensures first.Success? ==> second == first && issued == [RegionsRequest]
    ensures first.Failure? ==> second == CitiesFrom(fetch2(RegionsRequest)) && issued == [RegionsRequest, RegionsRequest]
  {
    var api := new PollenApi("");
    first := api.GetCities(fetch1);
    second := api.GetCities(fetch2);
    issued := api.requests;
  }

  const BIRCH := PollenType(JStr("bjork"), JStr("Birch"))
  const STOCKHOLM := City(JStr("r1"), JStr("Stockholm"))
  const BIRCH_LEVEL := JObj(map["pollenId" := JStr("bjork"), "time" := JStr("2024-05-01"), "level" := JStr("M")])

  /** A server with one pollen type, one region and one forecast level. */
  function ExampleServer(req: Request): Option<Json> {
    match req
    case PollenTypesRequest =>
      Some(JObj(map["items" := JArr([JObj(map["id" := JStr("bjork"), "name" := JStr("Birch")])])]))
    case RegionsRequest =>
      Some(JObj(map["items" := JArr([JObj(map["id" := JStr("r1"), "name" := JStr("Stockholm")])])]))
    case ForecastsRequest(_) =>
      Some(JObj(map["items" := JArr([JObj(map["levelSeries" := JArr([BIRCH_LEVEL])])])]))
  }

  lemma ExampleCatalogs()
    ensures PollenTypesFrom(ExampleServer(PollenTypesRequest)) == Success([BIRCH])
    ensures CitiesFrom(ExampleServer(RegionsRequest)) == Success([STOCKHOLM])
  {
    var types := PollenTypesFrom(ExampleServer(PollenTypesRequest));
    assert CatalogItems(ExampleServer(PollenTypesRequest)) == Success([JObj(map["id" := JStr("bjork"), "name" := JStr("Birch")])]);
    assert types.Success? && |types.value| == 1 && types.value[0] == BIRCH;
    assert types.value == [BIRCH];
    var regions := CitiesFrom(ExampleServer(RegionsRequest));
    assert CatalogItems(ExampleServer(RegionsRequest)) == Success([JObj(map["id" := JStr("r1"), "name" := JStr("Stockholm")])]);
    assert regions.Success? && |regions.value| == 1 && regions.value[0] == STOCKHOLM;
    assert regions.value == [STOCKHOLM];
  }

  lemma ExampleTable(region: Json)
    ensures BuildForecast([BIRCH], ExampleServer(ForecastsRequest(region)))
            == Success([Row(BIRCH, map[JStr("2024-05-01") := JStr("M")])])
  {
    var catalog := [BIRCH];
    var t0 := [Row(BIRCH, map[])];
    assert catalog[..|catalog| - 1] == [];
    assert Probe([], BIRCH.id, OfPollenType(BIRCH)) == None;
    assert [] + [Row(BIRCH, map[])] == t0;
    assert InitialTable(catalog) == Success(t0);
    assert LevelSeries(ExampleServer(ForecastsRequest(region))) == Success([BIRCH_LEVEL]);
    assert Lookup(t0, JStr("bjork")) == Success(0);
    assert [BIRCH_LEVEL][..0] == [];
    assert Fold(t0, [BIRCH_LEVEL]) == Step(t0, BIRCH_LEVEL);
    assert Field(BIRCH_LEVEL, "pollenId") == Success(JStr("bjork"));
    assert Field(BIRCH_LEVEL, "level") == Success(JStr("M"));
    assert Field(BIRCH_LEVEL, "time") == Success(JStr("2024-05-01"));
    var filed: map<Json, Json> := map[];
    assert filed[JStr("2024-05-01") := JStr("M")] == map[JStr("2024-05-01") := JStr("M")];
    assert t0[0 := Row(t0[0].key, t0[0].levels[JStr("2024-05-01") := JStr("M")])]
        == [Row(BIRCH, map[JStr("2024-05-01") := JStr("M")])];
    assert Step(t0, BIRCH_LEVEL) == Success([Row(BIRCH, map[JStr("2024-05-01") := JStr("M")])]);
  }

  /** A worked forecast: one pollen type, one city, one level, and no region
      given, so the first city's region is requested. */
  method DefaultRegionForecast() returns (r: Result<Table, PyError>, ghost issued: seq<Request>)
    ensures r == Success([Row(BIRCH, map[JStr("2024-05-01") := JStr("M")])])
    ensures issued == [PollenTypesRequest, RegionsRequest, ForecastsRequest(JStr("r1"))]
  {
    ExampleCatalogs();
    ExampleTable(JStr("r1"));
    var api := new PollenApi("");
    r := api.GetForecast("", ExampleServer);
    issued := api.requests;
  }
}
