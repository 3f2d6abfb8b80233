/** The APEL metric collector: per service-endpoint type, the sites running
    it, the number of its endpoints and the countries using it, gathered from
    the GOCDB `get_service_endpoint` records, plus the run-wide union of those
    countries and, when the metrics store is up, the accounting record counts. */
module MetricsApel {
  import opened Python
  import opened Dom
  import opened Lists
  import opened Common

  /** The service-endpoint types metrics are recorded about. */
  const EndpointTypes: seq<string> :=
    ["gLite-APEL", "APEL", "eu.egi.cloud.accounting", "eu.egi.storage.accounting"]

  /** The accounting types whose loaded-record counts are read from the store. */
  const QueryTypes: seq<string> := ["storage", "cloud", "grid"]

  const ServiceEndpointQuery := "https://goc.egi.eu/gocdbpi/public/?method=get_service_endpoint&service_type="

  function EndpointUrl(endpoint: string): string {
    ServiceEndpointQuery + endpoint
  }

  // ---------------------------------------------------------------------
  // Per-record lookups.

  /** The `GOCDB_PORTAL_URL` lookup at the top of every loop over records; it
      is not guarded, so its `IndexError` and `AttributeError` escape. */
  function PortalUrl(rec: Node): Outcome<Option<string>> {
    FirstTagValue(rec, "GOCDB_PORTAL_URL")
  }

  /** The portal URL, then `GetData(field, rec, url).data_finder()`. */
  function FieldOf(rec: Node, field: string): Outcome<Option<string>> {
    var url :- PortalUrl(rec);
    GetData(field, rec, url).DataFinder()
  }

  function FieldLookup(field: string): Node -> Outcome<Option<string>> {
    rec => FieldOf(rec, field)
  }

  /** One iteration of the loop of `get_services`: whether the record counts
      as an `endpoint` endpoint. */
  function ServiceTest(rec: Node, endpoint: string): Outcome<bool> {
    var url :- PortalUrl(rec);
    var serviceType :- GetData("SERVICE_TYPE", rec, url).DataFinder();
    match FirstTagValue(rec, "HOSTDN")
    case Ok(_) => Ok(serviceType == Some(endpoint))
    case Raised(IndexError) => if url.None? then Raised(TypeError) else Ok(false)
    case Raised(e) => Raised(e)
  }

  function ServiceCheck(endpoint: string): Node -> Outcome<bool> {
    rec => ServiceTest(rec, endpoint)
  }

  /** A record counts exactly when its SERVICE_TYPE is the endpoint and it
      has a HOSTDN element with a child; one without HOSTDN is skipped. */
  lemma ServiceTestMeaning(rec: Node, endpoint: string)
    ensures ServiceTest(rec, endpoint) == Ok(true) <==> Qualifies(rec, endpoint)
    ensures FieldOf(rec, "SERVICE_TYPE").Ok? && FindFirst(rec, "HOSTDN").None? ==>
              ServiceTest(rec, endpoint) == (if PortalUrl(rec).value.Some? then Ok(false) else Raised(TypeError))
  {
    if PortalUrl(rec).Ok? && FieldOf(rec, "SERVICE_TYPE").Ok? {
      var hostdn := FirstTagValue(rec, "HOSTDN");
      if hostdn.Ok? {
        assert ServiceTest(rec, endpoint) == Ok(FieldOf(rec, "SERVICE_TYPE").value == Some(endpoint));
      }
    }
  }

  /** A record whose portal URL lookup raises makes every per-record lookup
      raise the same exception. */
  lemma PortalUrlRequired(rec: Node, field: string, endpoint: string)
    requires PortalUrl(rec).Raised?
    ensures FieldOf(rec, field) == Raised(PortalUrl(rec).error)
    ensures ServiceTest(rec, endpoint) == Raised(PortalUrl(rec).error)
    ensures PortalUrl(rec).error == IndexError <==> FindFirst(rec, "GOCDB_PORTAL_URL").None?
  {
  }

  // ---------------------------------------------------------------------
  // The three aggregations, as functions of the records.

  /** `get_sites(endpoint, records)`: `(len(L), L)` for the list `L` its loop
      builds, or the first exception. The endpoint is not consulted. */
  function Sites(rs: seq<Node>): (r: Outcome<(nat, seq<Option<string>>)>)
    ensures r.Ok? ==> r.value.0 == |r.value.1|
  {
    var sites :- Distinct(rs, FieldLookup("SITENAME"));
    Ok((|sites|, sites))
  }

  /** `get_countries(endpoint, records)`: `(L, len(L))` for the list `L` its
      loop builds, or the first exception. */
  function Countries(rs: seq<Node>): (r: Outcome<(seq<Option<string>>, nat)>)
    ensures r.Ok? ==> r.value.1 == |r.value.0|
  {
    var countries :- Distinct(rs, FieldLookup("COUNTRY_NAME"));
    Ok((countries, |countries|))
  }

  /** `get_services(endpoint, records)`: the counter its loop builds, or the
      first exception. */
  function Services(rs: seq<Node>, endpoint: string): (r: Outcome<nat>)
    ensures r.Ok? ==> r.value <= |rs|
  {
    Count(rs, ServiceCheck(endpoint))
  }

  /** `get_sites` raises exactly when a SITENAME lookup (or the portal URL
      lookup before it) raises; otherwise its list holds each lookup result,
      `None` included, exactly once, in the order of first occurrence. */
  lemma SitesSpec(rs: seq<Node>)
    ensures Sites(rs).Raised? <==> exists i :: 0 <= i < |rs| && FieldOf(rs[i], "SITENAME").Raised?
    ensures Sites(rs).Ok? ==> NoDups(Sites(rs).value.1)
    ensures Sites(rs).Ok? ==>
              forall x :: x in Sites(rs).value.1 <==> exists i :: 0 <= i < |rs| && FieldOf(rs[i], "SITENAME") == Ok(x)
    ensures Sites(rs).Ok? ==>
              var vs := ScanAll(rs, FieldLookup("SITENAME")).values;
              forall x :: x in Sites(rs).value.1 <==> x in vs
    ensures Sites(rs).Ok? ==>
              var vs := ScanAll(rs, FieldLookup("SITENAME")).values;
              var l := Sites(rs).value.1;
              forall i, j :: 0 <= i < j < |l| ==> FirstIndex(vs, l[i]) < FirstIndex(vs, l[j])
  {
    DistinctSpec(rs, FieldLookup("SITENAME"));
  }

  /** `get_countries` raises exactly when a COUNTRY_NAME lookup (or the
      portal URL lookup before it) raises; otherwise its list holds each
      lookup result exactly once, in the order of first occurrence. */
  lemma CountriesSpec(rs: seq<Node>)
    ensures Countries(rs).Raised? <==> exists i :: 0 <= i < |rs| && FieldOf(rs[i], "COUNTRY_NAME").Raised?
    ensures Countries(rs).Ok? ==> NoDups(Countries(rs).value.0)
    ensures Countries(rs).Ok? ==>
              forall x :: x in Countries(rs).value.0 <==> exists i :: 0 <= i < |rs| && FieldOf(rs[i], "COUNTRY_NAME") == Ok(x)
    ensures Countries(rs).Ok? ==>
              var vs := ScanAll(rs, FieldLookup("COUNTRY_NAME")).values;
              forall x :: x in Countries(rs).value.0 <==> x in vs
    ensures Countries(rs).Ok? ==>
              var vs := ScanAll(rs, FieldLookup("COUNTRY_NAME")).values;
              var l := Countries(rs).value.0;
              forall i, j :: 0 <= i < j < |l| ==> FirstIndex(vs, l[i]) < FirstIndex(vs, l[j])
  {
    DistinctSpec(rs, FieldLookup("COUNTRY_NAME"));
  }

  /** The countries `get_countries` returns are its looked-up values. */
  lemma CountriesElems(rs: seq<Node>)
    requires Countries(rs).Ok?
    ensures Elems(Countries(rs).value.0) == Elems(ScanAll(rs, FieldLookup("COUNTRY_NAME")).values)
  {
    CountriesSpec(rs);
  }

  /** A record `get_services` counts: its SERVICE_TYPE is the endpoint and it
      has a HOSTDN element with a child. */
  predicate Qualifies(rec: Node, endpoint: string) {
    FieldOf(rec, "SERVICE_TYPE") == Ok(Some(endpoint)) && FirstTagValue(rec, "HOSTDN").Ok?
  }

  function QualifiesFor(endpoint: string): Node -> bool {
    rec => Qualifies(rec, endpoint)
  }

  /** `get_services` returns exactly when no record makes it raise, and then
      returns the number of qualifying records, at most the number of
      records. */
  lemma ServicesSpec(rs: seq<Node>, endpoint: string)
    ensures Services(rs, endpoint).Ok? <==> forall i :: 0 <= i < |rs| ==> ServiceTest(rs[i], endpoint).Ok?
    ensures Services(rs, endpoint).Ok? ==> Services(rs, endpoint).value == Tally(rs, QualifiesFor(endpoint)) <= |rs|
  {
    forall rec | rec in rs ensures ServiceTest(rec, endpoint) == Ok(true) <==> Qualifies(rec, endpoint) {
      ServiceTestMeaning(rec, endpoint);
    }
    CountSpec(rs, ServiceCheck(endpoint), QualifiesFor(endpoint));
  }

  // ---------------------------------------------------------------------
  // The loops of the three functions.

  /** `get_sites`: the loop appends each SITENAME value not yet in the list. */
  method GetSites(endpoint: string, dataObj: seq<Node>) returns (r: Outcome<(nat, seq<Option<string>>)>)
    ensures r == Sites(dataObj)
  {
    ghost var lookup := FieldLookup("SITENAME");
    var sitenameList: seq<Option<string>> := [];
    var i := 0;
    while i < |dataObj|
      invariant 0 <= i <= |dataObj|
      invariant ScanAll(dataObj[..i], lookup).fault.None?
      invariant sitenameList == Dedup(ScanAll(dataObj[..i], lookup).values)
    {
      var serviceEndpoint := dataObj[i];
      ScanAllStep(dataObj, lookup, i);
      var gocdbPortalUrl :- PortalUrl(serviceEndpoint);
      var sitename :- GetData("SITENAME", serviceEndpoint, gocdbPortalUrl).DataFinder();
      if sitename !in sitenameList {
        sitenameList := sitenameList + [sitename];
      }
      i := i + 1;
    }
    assert dataObj[..i] == dataObj;
    return Ok((|sitenameList|, sitenameList));
  }

  /** `get_services`: the loop increments a counter for each qualifying
      record and skips (with a warning) records without HOSTDN. */
  method GetServices(endpoint: string, dataObj: seq<Node>) returns (r: Outcome<nat>)
    ensures r == Services(dataObj, endpoint)
  {
    ghost var test := ServiceCheck(endpoint);
    var counter: nat := 0;
    var i := 0;
    while i < |dataObj|
      invariant 0 <= i <= |dataObj|
      invariant ScanAll(dataObj[..i], test).fault.None?
      invariant counter == Hits(ScanAll(dataObj[..i], test).values)
    {
      var serviceEndpoint := dataObj[i];
      ScanAllStep(dataObj, test, i);
      ghost var bs := ScanAll(dataObj[..i], test).values;
      assert test(serviceEndpoint) == ServiceTest(serviceEndpoint, endpoint);
      var portal := PortalUrl(serviceEndpoint);
      if portal.Raised? {
        return Raised(portal.error);
      }
      var gocdbPortalUrl := portal.value;
      var found := GetData("SERVICE_TYPE", serviceEndpoint, gocdbPortalUrl).DataFinder();
      if found.Raised? {
        return Raised(found.error);
      }
      var serviceType := found.value;
      var hostdn := FirstTagValue(serviceEndpoint, "HOSTDN");
      if hostdn.Ok? {
        if serviceType == Some(endpoint) {
          counter := counter + 1;
        }
      } else if hostdn.error == IndexError {
        // the warning names the portal URL: `str + None` raises
        if gocdbPortalUrl.None? {
          return Raised(TypeError);
        }
      } else {
        return Raised(hostdn.error);
      }
      assert (bs + [test(serviceEndpoint).value])[..|bs|] == bs;
      i := i + 1;
    }
    assert dataObj[..i] == dataObj;
    return Ok(counter);
  }

  // ---------------------------------------------------------------------
  // The assembly of the metrics dictionary in `main`.

  // The fixed parts of the key names.
  const SitesNumberPrefix := "Number of sites runnning at least one "
  const SitesListPrefix := "List of sites runnning at least one "
  const CountriesListPrefix := "List of countries with at least one "
  const CountriesNumberPrefix := "Number of countries with at least one "
  const ServicesPrefix := "Number of "
  const RecordsPrefix := "Number of records loaded for "
  const EndpointSuffix := " endpoint"
  const ServicesSuffix := " endpoints"
  const RecordsSuffix := " accounting"

  function SitesNumberKey(endpoint: string): string {
    SitesNumberPrefix + endpoint + EndpointSuffix
  }

  function SitesListKey(endpoint: string): string {
    SitesListPrefix + endpoint + EndpointSuffix
  }

  function ServicesKey(endpoint: string): string {
    ServicesPrefix + endpoint + ServicesSuffix
  }

  /** Named as a list, but holds the number of countries. */
  function CountriesListKey(endpoint: string): string {
    CountriesListPrefix + endpoint + EndpointSuffix
  }

  /** Named as a number, but holds the list of countries. */
  function CountriesNumberKey(endpoint: string): string {
    CountriesNumberPrefix + endpoint + EndpointSuffix
  }

  const TotalCountriesKey := "Total number of countries using APEL "
  const CompleteCountriesKey := "Complete list of countries using APEL "

  function RecordsKey(queryType: string): string {
    RecordsPrefix + queryType + RecordsSuffix
  }

  /** The keys written for one endpoint type. */
  function EndpointKeys(endpoint: string): set<string> {
    {SitesNumberKey(endpoint), SitesListKey(endpoint), ServicesKey(endpoint),
     CountriesListKey(endpoint), CountriesNumberKey(endpoint)}
  }

  /** The keys `main` writes differ from one another: they differ in their
      first character, in their length, in the character after "Number of "
      or after "List of ", or in their last character. */
  lemma KeysDistinct(endpoint: string, queryType: string)
    ensures SitesNumberKey(endpoint) !in {SitesListKey(endpoint), ServicesKey(endpoint),
              CountriesListKey(endpoint), CountriesNumberKey(endpoint), TotalCountriesKey,
              CompleteCountriesKey, RecordsKey(queryType), "type", "@timestamp"}
    ensures SitesListKey(endpoint) !in {ServicesKey(endpoint), CountriesListKey(endpoint),
              CountriesNumberKey(endpoint), TotalCountriesKey, CompleteCountriesKey,
              RecordsKey(queryType), "type", "@timestamp"}
    ensures ServicesKey(endpoint) !in {CountriesListKey(endpoint), CountriesNumberKey(endpoint),
              TotalCountriesKey, CompleteCountriesKey, RecordsKey(queryType), "type", "@timestamp"}
    ensures CountriesListKey(endpoint) !in {CountriesNumberKey(endpoint), TotalCountriesKey,
              CompleteCountriesKey, RecordsKey(queryType), "type", "@timestamp"}
    ensures CountriesNumberKey(endpoint) !in {TotalCountriesKey, CompleteCountriesKey,
              RecordsKey(queryType), "type", "@timestamp"}
    ensures TotalCountriesKey !in {CompleteCountriesKey, RecordsKey(queryType), "type",
              "@timestamp"}
    ensures CompleteCountriesKey !in {RecordsKey(queryType), "type", "@timestamp"}
    ensures RecordsKey(queryType) !in {"type", "@timestamp"}
    ensures "type" !in {"@timestamp"}
  {
    KeyShapes(endpoint, queryType);
  }

  /** The characters that tell the keys apart. */
  lemma KeyShapes(endpoint: string, queryType: string)
    ensures var sn := SitesNumberKey(endpoint);
            sn[0] == 'N' && sn[10] == 's' && |sn| == 47 + |endpoint| && sn[|sn| - 1] == 't'
    ensures var sl := SitesListKey(endpoint);
            sl[0] == 'L' && sl[8] == 's' && sl[|sl| - 1] == 't'
    ensures var sv := ServicesKey(endpoint);
            sv[0] == 'N' && |sv| == 20 + |endpoint| && sv[|sv| - 1] == 's'
    ensures var cl := CountriesListKey(endpoint);
            cl[0] == 'L' && cl[8] == 'c' && cl[|cl| - 1] == 't'
    ensures var cn := CountriesNumberKey(endpoint);
            cn[0] == 'N' && cn[10] == 'c' && |cn| == 47 + |endpoint| && cn[|cn| - 1] == 't'
    ensures var rk := RecordsKey(queryType);
            rk[0] == 'N' && rk[10] == 'r' && rk[|rk| - 1] == 'g'
    ensures TotalCountriesKey[0] == 'T' && CompleteCountriesKey[0] == 'C'
  {
  }

  /** What `main` has built between two endpoint types: the dictionary, the
      set `all_countries`, and the module-level `country_list`. */
  datatype ApelState = ApelState(
    metrics: map<string, Value>,
    allCountries: set<Option<string>>,
    countryList: seq<Option<string>>)

  /** Where the loop over endpoint types stands: still going, stopped by a
      `ConnectionError` (caught), or ended by another exception (not caught),
      with the module-level list as that exception left it. */
  datatype Progress =
    | Running(state: ApelState)
    | Halted(state: ApelState)
    | Crashed(error: Error, countryList: seq<Option<string>>)
  {
    /** What the loop hands on to the rest of `main`: the dictionary, or the
        exception. */
    function Gathered(): Outcome<map<string, Value>> {
      if Crashed? then Raised(error) else Ok(state.metrics)
    }

    /** The module-level list where the loop left it. */
    function List(): seq<Option<string>> {
      if Crashed? then countryList else state.countryList
    }
  }

  /** The dictionary `main` starts from. */
  function Start(timestamp: string, countryList: seq<Option<string>>): ApelState {
    ApelState(map["type" := StrVal("apel_metric"), "@timestamp" := StrVal(timestamp)], {}, countryList)
  }

  /** One iteration of the loop over endpoint types, on the parsed response
      `doc`: the three aggregations over its SERVICE_ENDPOINT records, the
      five per-endpoint keys (the two country keys holding each other's
      values), then the union of countries and its size. */
  function EndpointStep(st: ApelState, endpoint: string, doc: Node): (p: Progress)
    ensures !p.Halted?
  {
    var rs := ElementsByTagName(doc, "SERVICE_ENDPOINT");
    match Sites(rs)
    case Raised(e) => Crashed(e, st.countryList)
    case Ok(sites) =>
      match Services(rs, endpoint)
      case Raised(e) => Crashed(e, st.countryList)
      case Ok(services) =>
        var countryList := AppendNew(st.countryList, ScanAll(rs, FieldLookup("COUNTRY_NAME")).values);
        match Countries(rs)
        case Raised(e) => Crashed(e, countryList)
        case Ok(countries) =>
          var all := st.allCountries + Elems(countries.0);
          var m := WriteEndpoint(st.metrics, endpoint, sites, services, countries, all);
          Running(ApelState(m, all, countryList))
  }

  /** One endpoint type's iteration completes exactly when the three
      aggregations return; it then stores their results under the five keys
      of the endpoint (the two country values swapped), adds the countries to
      the run-wide union, stores the union and its size, extends the
      module-level list as `get_countries` does, and leaves every other key
      as it was. */
  lemma EndpointStepWrites(st: ApelState, endpoint: string, doc: Node)
    ensures var rs := ElementsByTagName(doc, "SERVICE_ENDPOINT");
            EndpointStep(st, endpoint, doc).Running? <==> Sites(rs).Ok? && Services(rs, endpoint).Ok? && Countries(rs).Ok?
    ensures EndpointStep(st, endpoint, doc).Running? ==>
              var rs := ElementsByTagName(doc, "SERVICE_ENDPOINT");
              && Sites(rs).Ok?
              && SitesNumberKey(endpoint) in EndpointStep(st, endpoint, doc).state.metrics
              && EndpointStep(st, endpoint, doc).state.metrics[SitesNumberKey(endpoint)] == IntVal(Sites(rs).value.0)
              && SitesListKey(endpoint) in EndpointStep(st, endpoint, doc).state.metrics
              && EndpointStep(st, endpoint, doc).state.metrics[SitesListKey(endpoint)] == ListVal(Sites(rs).value.1)
    ensures EndpointStep(st, endpoint, doc).Running? ==>
              var rs := ElementsByTagName(doc, "SERVICE_ENDPOINT");
              && Services(rs, endpoint).Ok?
              && ServicesKey(endpoint) in EndpointStep(st, endpoint, doc).state.metrics
              && EndpointStep(st, endpoint, doc).state.metrics[ServicesKey(endpoint)] == IntVal(Services(rs, endpoint).value)
    ensures EndpointStep(st, endpoint, doc).Running? ==>
              var rs := ElementsByTagName(doc, "SERVICE_ENDPOINT");
              && Countries(rs).Ok?
              && CountriesListKey(endpoint) in EndpointStep(st, endpoint, doc).state.metrics
              && EndpointStep(st, endpoint, doc).state.metrics[CountriesListKey(endpoint)] == IntVal(|Countries(rs).value.0|)
              && CountriesNumberKey(endpoint) in EndpointStep(st, endpoint, doc).state.metrics
              && EndpointStep(st, endpoint, doc).state.metrics[CountriesNumberKey(endpoint)] == ListVal(Countries(rs).value.0)
              && EndpointStep(st, endpoint, doc).state.allCountries == st.allCountries + Elems(Countries(rs).value.0)
              && EndpointStep(st, endpoint, doc).state.countryList == AppendNew(st.countryList, ScanAll(rs, FieldLookup("COUNTRY_NAME")).values)
    ensures EndpointStep(st, endpoint, doc).Running? ==>
              && TotalCountriesKey in EndpointStep(st, endpoint, doc).state.metrics
              && EndpointStep(st, endpoint, doc).state.metrics[TotalCountriesKey] == IntVal(|EndpointStep(st, endpoint, doc).state.allCountries|)
              && CompleteCountriesKey in EndpointStep(st, endpoint, doc).state.metrics
              && EndpointStep(st, endpoint, doc).state.metrics[CompleteCountriesKey] == SetVal(EndpointStep(st, endpoint, doc).state.allCountries)
    ensures EndpointStep(st, endpoint, doc).Running? ==>
              forall key :: key in st.metrics && key !in EndpointKeys(endpoint) &&
                            key != TotalCountriesKey && key != CompleteCountriesKey ==>
                key in EndpointStep(st, endpoint, doc).state.metrics && EndpointStep(st, endpoint, doc).state.metrics[key] == st.metrics[key]
    ensures EndpointStep(st, endpoint, doc).Running? ==>
              forall key :: key in EndpointStep(st, endpoint, doc).state.metrics ==>
                key in st.metrics || key in EndpointKeys(endpoint) ||
                key == TotalCountriesKey || key == CompleteCountriesKey
  {
  }

  /** The seven assignments to the dictionary for one endpoint type, in
      order: the two site keys, the service key, the two country keys (the
      count under the "List of ..." key and the list under the "Number of
      ..." key) and the two run-wide country keys. */
  function WriteEndpoint(m: map<string, Value>, endpoint: string, sites: (nat, seq<Option<string>>),
                         services: nat, countries: (seq<Option<string>>, nat),
                         all: set<Option<string>>): (w: map<string, Value>)
    ensures w.Keys == m.Keys + EndpointKeys(endpoint) + {TotalCountriesKey, CompleteCountriesKey}
    ensures w[SitesNumberKey(endpoint)] == IntVal(sites.0)
    ensures w[SitesListKey(endpoint)] == ListVal(sites.1)
    ensures w[ServicesKey(endpoint)] == IntVal(services)
    ensures w[CountriesListKey(endpoint)] == IntVal(countries.1)
    ensures w[CountriesNumberKey(endpoint)] == ListVal(countries.0)
    ensures w[TotalCountriesKey] == IntVal(|all|)
    ensures w[CompleteCountriesKey] == SetVal(all)
    ensures forall key :: key in m && key !in EndpointKeys(endpoint) &&
                          key != TotalCountriesKey && key != CompleteCountriesKey
                          ==> w[key] == m[key]
  {
    KeysDistinct(endpoint, "");
    m[SitesNumberKey(endpoint) := IntVal(sites.0)]
     [SitesListKey(endpoint) := ListVal(sites.1)]
     [ServicesKey(endpoint) := IntVal(services)]
     [CountriesListKey(endpoint) := IntVal(countries.1)]
     [CountriesNumberKey(endpoint) := ListVal(countries.0)]
     [TotalCountriesKey := IntVal(|all|)]
     [CompleteCountriesKey := SetVal(all)]
  }

  /** One iteration of the loop over endpoint types: fetch the endpoint
      type's records; a refused fetch (`ConnectionError`) stops the loop. */
  function Advance(st: ApelState, endpoint: string, verify: Verify, fetch: (string, Verify) -> Fetch): Progress {
    match fetch(EndpointUrl(endpoint), verify)
    case Refused => Halted(st)
    case Received(doc) => EndpointStep(st, endpoint, doc)
  }

  /** The loop over the endpoint types `endpoints`, each fetched with the
      certificate setting `verify`; a refused fetch ends the loop. */
  function ApelLoop(st: ApelState, endpoints: seq<string>, verify: Verify,
                    fetch: (string, Verify) -> Fetch): Progress
    decreases |endpoints|
  {
    if endpoints == [] then Running(st)
    else
      match ApelLoop(st, endpoints[..|endpoints| - 1], verify, fetch)
      case Running(s) => Advance(s, endpoints[|endpoints| - 1], verify, fetch)
      case other => other
  }

  /** The keys `get_records` fills in, one per query type. */
  function AddRecords(m: map<string, Value>, queryTypes: seq<string>, loaded: string -> int): map<string, Value>
    decreases |queryTypes|
  {
    if queryTypes == [] then m
    else
      var queryType := queryTypes[|queryTypes| - 1];
      AddRecords(m, queryTypes[..|queryTypes| - 1], loaded)[RecordsKey(queryType) := IntVal(loaded(queryType))]
  }

  /** How a run of `main` ends: with the dictionary it built and whether it
      was published, or with an exception; and the module-level list. */
  datatype ApelRun = ApelRun(outcome: Outcome<Report>, countryList: seq<Option<string>>)

  /** `main(options)` with `options.write == write` and `options.verify ==
      verifyOpt`; `probe` is what `es_check` sees, `fetch` answers the
      registry requests and `loaded` the record-count queries. */
  function ApelMain(countryList: seq<Option<string>>, write: string, verifyOpt: string, probe: Probe,
                    timestamp: string, fetch: (string, Verify) -> Fetch, loaded: string -> int): (r: ApelRun)
    ensures probe.Unreachable? ==> r == ApelRun(Raised(ConnectionError), countryList)
  {
    match EsCheck(probe)
    case Raised(e) => ApelRun(Raised(e), countryList)
    case Ok(esUp) =>
      Conclude(ApelLoop(Start(timestamp, countryList), EndpointTypes, Flag(verifyOpt == "True"), fetch),
               esUp, write, loaded)
  }

  /** The end of `main` after the loop: an uncaught exception from the loop
      ends the run; otherwise the record counts are added when the store is
      up, and the dictionary is published when `write` is "True". */
  function Conclude(p: Progress, esUp: bool, write: string, loaded: string -> int): ApelRun {
    if p.Crashed? then ApelRun(Raised(p.error), p.countryList)
    else
      var metrics := if esUp then AddRecords(p.state.metrics, QueryTypes, loaded) else p.state.metrics;
      ApelRun(Ok(Report(metrics, write == "True")), p.state.countryList)
  }

  /** The module-level state of metrics_apel.py: the global `country_list`
      that `get_countries` extends across calls. */
  class ApelModule {
    var countryList: seq<Option<string>>

    /** Importing the module: `country_list = []`. */
    constructor ()
      ensures countryList == []
    {
      countryList := [];
    }

    /** `get_countries(endpoint, records)`: returns `(L, len(L))`, `L` the
        distinct COUNTRY_NAME values; every value not yet in the global list
        is appended to it, also when a later record raises. */
    method GetCountries(endpoint: string, dataObj: seq<Node>)
      returns (r: Outcome<(seq<Option<string>>, nat)>)
      modifies this
      ensures countryList == AppendNew(old(countryList), ScanAll(dataObj, FieldLookup("COUNTRY_NAME")).values)
      ensures r == Countries(dataObj)
    {
      ghost var lookup := FieldLookup("COUNTRY_NAME");
      ghost var global0 := countryList;
      var countryListTemp: seq<Option<string>> := [];
      var i := 0;
      while i < |dataObj|
        invariant 0 <= i <= |dataObj|
        invariant ScanAll(dataObj[..i], lookup).fault.None?
        invariant countryListTemp == Dedup(ScanAll(dataObj[..i], lookup).values)
        invariant countryList == AppendNew(global0, ScanAll(dataObj[..i], lookup).values)
      {
        var serviceEndpoint := dataObj[i];
        ScanAllStep(dataObj, lookup, i);
        ghost var vs := ScanAll(dataObj[..i], lookup).values;
        assert lookup(serviceEndpoint) == FieldOf(serviceEndpoint, "COUNTRY_NAME");
        var portal := PortalUrl(serviceEndpoint);
        if portal.Raised? {
          assert ScanAll(dataObj, lookup) == Scan(vs, Some(portal.error));
          assert Distinct(dataObj, lookup) == Raised(portal.error);
          return Raised(portal.error);
        }
        var found := GetData("COUNTRY_NAME", serviceEndpoint, portal.value).DataFinder();
        if found.Raised? {
          assert ScanAll(dataObj, lookup) == Scan(vs, Some(found.error));
          assert Distinct(dataObj, lookup) == Raised(found.error);
          return Raised(found.error);
        }
        var country := found.value;
        assert ScanAll(dataObj[..i + 1], lookup).values == vs + [country];
        assert (vs + [country])[..|vs|] == vs;
        assert AppendNew(global0, vs + [country]) ==
          if country in countryList then countryList else countryList + [country];
        assert Dedup(vs + [country]) ==
          if country in countryListTemp then countryListTemp else countryListTemp + [country];
        if country !in countryList {
          countryList := countryList + [country];
        }
        if country !in countryListTemp {
          countryListTemp := countryListTemp + [country];
        }
        i := i + 1;
      }
      assert dataObj[..i] == dataObj;
      assert Distinct(dataObj, lookup) == Ok(countryListTemp);
      return Ok((countryListTemp, |countryListTemp|));
    }

    /** The body of the `try` block of `main` for one endpoint type: the
        three aggregations over the SERVICE_ENDPOINT records of `doc` and the
        seven assignments to the dictionary. */
    method GatherEndpoint(endpoint: string, doc: Node, metrics: map<string, Value>,
                          allCountries: set<Option<string>>)
      returns (r: Outcome<(map<string, Value>, set<Option<string>>)>)
      modifies this
      ensures var p := EndpointStep(ApelState(metrics, allCountries, old(countryList)), endpoint, doc);
              if p.Crashed? then r == Raised(p.error) && countryList == p.countryList
              else r == Ok((p.state.metrics, p.state.allCountries)) && countryList == p.state.countryList
    {
      var serviceEndpointObj := ElementsByTagName(doc, "SERVICE_ENDPOINT");
      var apelMetricsDict := metrics;
      var sites :- GetSites(endpoint, serviceEndpointObj);
      var siteNumber, siteList := sites.0, sites.1;
      apelMetricsDict := apelMetricsDict[SitesNumberKey(endpoint) := IntVal(siteNumber)];
      apelMetricsDict := apelMetricsDict[SitesListKey(endpoint) := ListVal(siteList)];
      var services :- GetServices(endpoint, serviceEndpointObj);
      apelMetricsDict := apelMetricsDict[ServicesKey(endpoint) := IntVal(services)];
      var countries :- GetCountries(endpoint, serviceEndpointObj);
      var countryListTemp, countryNumber := countries.0, countries.1;
      apelMetricsDict := apelMetricsDict[CountriesListKey(endpoint) := IntVal(countryNumber)];
      apelMetricsDict := apelMetricsDict[CountriesNumberKey(endpoint) := ListVal(countryListTemp)];
      var all := allCountries + Elems(countryListTemp);
      apelMetricsDict := apelMetricsDict[TotalCountriesKey := IntVal(|all|)];
      apelMetricsDict := apelMetricsDict[CompleteCountriesKey := SetVal(all)];
      return Ok((apelMetricsDict, all));
    }

    /** One pass of the loop over endpoint types: fetch the records of
        `endpoint` and, unless the fetch is refused, process them. */
    method GatherNext(endpoint: string, verifyServerCert: bool, fetch: (string, Verify) -> Fetch,
                      metrics: map<string, Value>, allCountries: set<Option<string>>)
      returns (p: Progress)
      modifies this
      ensures p == Advance(ApelState(metrics, allCountries, old(countryList)), endpoint, Flag(verifyServerCert), fetch)
      ensures !p.Crashed? ==> p.state.countryList == countryList
      ensures p.Crashed? ==> p.countryList == countryList
    {
      var response := fetch(EndpointUrl(endpoint), Flag(verifyServerCert));
      if response.Refused? {
        return Halted(ApelState(metrics, allCountries, countryList));
      }
      var next := GatherEndpoint(endpoint, response.doc, metrics, allCountries);
      if next.Raised? {
        return Crashed(next.error, countryList);
      }
      return Running(ApelState(next.value.0, next.value.1, countryList));
    }

    /** The `try` block of `main`: the loop over the endpoint types, ended
        early (the `ConnectionError` caught) by the first refused fetch. */
    method GatherEndpoints(endpointTypes: seq<string>, verifyServerCert: bool,
                           fetch: (string, Verify) -> Fetch, metrics: map<string, Value>)
      returns (r: Outcome<map<string, Value>>)
      modifies this
      ensures var p := ApelLoop(ApelState(metrics, {}, old(countryList)), endpointTypes, Flag(verifyServerCert), fetch);
              r == p.Gathered() && countryList == p.List()
    {
      ghost var start := ApelState(metrics, {}, countryList);
      ghost var verify := Flag(verifyServerCert);
      var p := Running(ApelState(metrics, {}, countryList));
      var i := 0;
      while i < |endpointTypes| && p.Running?
        invariant 0 <= i <= |endpointTypes|
        invariant ApelLoop(start, endpointTypes[..i], verify, fetch) == p
        invariant countryList == p.List()
      {
        ApelLoopNext(start, endpointTypes, verify, fetch, i);
        p := GatherNext(endpointTypes[i], verifyServerCert, fetch, p.state.metrics, p.state.allCountries);
        i := i + 1;
      }
      ApelLoopDone(start, endpointTypes, verify, fetch, i);
      return p.Gathered();
    }

    /** The loop of `main` over the query types, run when the store is up:
        one record-count key per type. */
    method AddRecordCounts(metrics: map<string, Value>, loaded: string -> int) returns (m: map<string, Value>)
      ensures m == AddRecords(metrics, QueryTypes, loaded)
    {
      m := metrics;
      var j := 0;
      while j < |QueryTypes|
        invariant 0 <= j <= |QueryTypes|
        invariant m == AddRecords(metrics, QueryTypes[..j], loaded)
      {
        var queryType := QueryTypes[j];
        assert QueryTypes[..j + 1][..j] == QueryTypes[..j];
        m := m[RecordsKey(queryType) := IntVal(loaded(queryType))];
        j := j + 1;
      }
      assert QueryTypes[..j] == QueryTypes;
    }

    /** `main(options)`: probe the metrics store, gather the metrics of each
        endpoint type until a fetch is refused, add the record counts when
        the store is up, and publish when asked to. */
    method Run(write: string, verifyOpt: string, probe: Probe, timestamp: string,
                fetch: (string, Verify) -> Fetch, loaded: string -> int)
      returns (r: Outcome<Report>)
      modifies this
      ensures ApelRun(r, countryList) ==
                ApelMain(old(countryList), write, verifyOpt, probe, timestamp, fetch, loaded)
    {
      var verifyServerCert := verifyOpt == "True";
      var esUp :- EsCheck(probe);
      var apelMetricsDict: map<string, Value> :=
        map["type" := StrVal("apel_metric"), "@timestamp" := StrVal(timestamp)];
      var gathered := GatherEndpoints(EndpointTypes, verifyServerCert, fetch, apelMetricsDict);
      if gathered.Raised? {
        return Raised(gathered.error);
      }
      apelMetricsDict := gathered.value;
      if esUp {
        apelMetricsDict := AddRecordCounts(apelMetricsDict, loaded);
      }
      return Ok(Report(apelMetricsDict, write == "True"));
    }
  }

  // ---------------------------------------------------------------------
  // Properties of the assembly.

  /** One more endpoint type after a prefix the loop went through. */
  lemma ApelLoopNext(start: ApelState, endpoints: seq<string>, verify: Verify,
                     fetch: (string, Verify) -> Fetch, i: nat)
    requires i < |endpoints| && ApelLoop(start, endpoints[..i], verify, fetch).Running?
    ensures ApelLoop(start, endpoints[..i + 1], verify, fetch) ==
              Advance(ApelLoop(start, endpoints[..i], verify, fetch).state, endpoints[i], verify, fetch)
  {
    assert endpoints[..i + 1][..i] == endpoints[..i];
  }

  /** Once the loop has stopped or crashed, the remaining endpoint types
      change nothing. */
  lemma {:induction false} ApelLoopSettled(st: ApelState, endpoints: seq<string>, verify: Verify,
                                           fetch: (string, Verify) -> Fetch, k: nat)
    requires k <= |endpoints|
    requires !ApelLoop(st, endpoints[..k], verify, fetch).Running?
    ensures ApelLoop(st, endpoints, verify, fetch) == ApelLoop(st, endpoints[..k], verify, fetch)
    decreases |endpoints|
  {
    if k < |endpoints| {
      var init := endpoints[..|endpoints| - 1];
      assert init[..k] == endpoints[..k];
      ApelLoopSettled(st, init, verify, fetch, k);
    } else {
      assert endpoints[..k] == endpoints;
    }
  }

  /** Where the loop over endpoint types leaves off, at the end of the list
      or at the first refused fetch or exception, is where it ends. */
  lemma ApelLoopDone(st: ApelState, endpoints: seq<string>, verify: Verify,
                     fetch: (string, Verify) -> Fetch, k: nat)
    requires k <= |endpoints|
    requires k == |endpoints| || !ApelLoop(st, endpoints[..k], verify, fetch).Running?
    ensures ApelLoop(st, endpoints, verify, fetch) == ApelLoop(st, endpoints[..k], verify, fetch)
  {
    if k == |endpoints| {
      assert endpoints[..k] == endpoints;
    } else {
      ApelLoopSettled(st, endpoints, verify, fetch, k);
    }
  }

  /** A key `main` may have written while going through `endpoints`. */
  predicate ApelKey(key: string, endpoints: seq<string>) {
    || key in {"type", "@timestamp", TotalCountriesKey, CompleteCountriesKey}
    || exists endpoint :: endpoint in endpoints && key in EndpointKeys(endpoint)
  }

  /** What holds of the state after any number of endpoint types, starting
      from the module-level list `g0`. */
  predicate Consistent(g0: seq<Option<string>>, timestamp: string, endpoints: seq<string>, st: ApelState) {
    KeysConsistent(timestamp, endpoints, st.metrics, st.allCountries) &&
    ListConsistent(g0, st.allCountries, st.countryList)
  }

  /** The dictionary holds `type` and `@timestamp`, only keys of the loop,
      and the run-wide country set `all` with its size, both or neither. */
  predicate KeysConsistent(timestamp: string, endpoints: seq<string>, m: map<string, Value>,
                           all: set<Option<string>>) {
    && "type" in m && m["type"] == StrVal("apel_metric")
    && "@timestamp" in m && m["@timestamp"] == StrVal(timestamp)
    && (forall key :: key in m ==> ApelKey(key, endpoints))
    && (TotalCountriesKey in m <==> CompleteCountriesKey in m)
    && (TotalCountriesKey in m ==> m[TotalCountriesKey] == IntVal(|all|))
    && (CompleteCountriesKey in m ==> m[CompleteCountriesKey] == SetVal(all))
  }

  /** The module-level list `g` has kept `g0` as a prefix and added exactly
      the countries of `all`, without duplicates if `g0` had none. */
  predicate ListConsistent(g0: seq<Option<string>>, all: set<Option<string>>, g: seq<Option<string>>) {
    && |g0| <= |g| && g[..|g0|] == g0
    && Elems(g) == Elems(g0) + all
    && (NoDups(g0) ==> NoDups(g))
  }

  /** One iteration keeps the state consistent. */
  lemma EndpointStepConsistent(g0: seq<Option<string>>, timestamp: string, endpoints: seq<string>,
                               st: ApelState, endpoint: string, doc: Node)
    requires Consistent(g0, timestamp, endpoints, st)
    requires EndpointStep(st, endpoint, doc).Running?
    ensures Consistent(g0, timestamp, endpoints + [endpoint], EndpointStep(st, endpoint, doc).state)
  {
    var rs := ElementsByTagName(doc, "SERVICE_ENDPOINT");
    var vs := ScanAll(rs, FieldLookup("COUNTRY_NAME")).values;
    CountriesElems(rs);
    var countries := Countries(rs).value;
    var all := st.allCountries + Elems(countries.0);
    assert EndpointStep(st, endpoint, doc).state ==
      ApelState(WriteEndpoint(st.metrics, endpoint, Sites(rs).value, Services(rs, endpoint).value, countries, all),
                all, AppendNew(st.countryList, vs));
    WrittenConsistent(g0, timestamp, endpoints, st, endpoint, Sites(rs).value, Services(rs, endpoint).value,
                      countries, vs);
  }

  /** The state one iteration writes, for any aggregation results whose
      countries are those of the looked-up values `vs`, is consistent. */
  lemma WrittenConsistent(g0: seq<Option<string>>, timestamp: string, endpoints: seq<string>,
                          st: ApelState, endpoint: string, sites: (nat, seq<Option<string>>), services: nat,
                          countries: (seq<Option<string>>, nat), vs: seq<Option<string>>)
    requires Consistent(g0, timestamp, endpoints, st)
    requires Elems(countries.0) == Elems(vs)
    ensures var all := st.allCountries + Elems(countries.0);
            Consistent(g0, timestamp, endpoints + [endpoint],
                       ApelState(WriteEndpoint(st.metrics, endpoint, sites, services, countries, all),
                                 all, AppendNew(st.countryList, vs)))
  {
    WrittenKeysConsistent(timestamp, endpoints, st.metrics, st.allCountries, endpoint, sites, services, countries);
    ListStepConsistent(g0, st.allCountries, st.countryList, countries.0, vs);
  }

  /** Extending the module-level list by the looked-up values `vs` keeps it
      consistent with the country set grown by the same countries `cs`. */
  lemma ListStepConsistent(g0: seq<Option<string>>, all: set<Option<string>>, g: seq<Option<string>>,
                           cs: seq<Option<string>>, vs: seq<Option<string>>)
    requires ListConsistent(g0, all, g)
    requires Elems(cs) == Elems(vs)
    ensures ListConsistent(g0, all + Elems(cs), AppendNew(g, vs))
  {
    AppendNewKeepsPrefix(g0, g, vs);
  }

  /** The dictionary one iteration writes is consistent with the grown
      country set. */
  lemma WrittenKeysConsistent(timestamp: string, endpoints: seq<string>, metrics: map<string, Value>,
                              all0: set<Option<string>>, endpoint: string, sites: (nat, seq<Option<string>>),
                              services: nat, countries: (seq<Option<string>>, nat))
    requires KeysConsistent(timestamp, endpoints, metrics, all0)
    ensures var all := all0 + Elems(countries.0);
            KeysConsistent(timestamp, endpoints + [endpoint],
                           WriteEndpoint(metrics, endpoint, sites, services, countries, all), all)
  {
    var all := all0 + Elems(countries.0);
    var m := WriteEndpoint(metrics, endpoint, sites, services, countries, all);
    FixedKeysKept(endpoint);
    WrittenKeys(metrics, endpoints, endpoint, m);
  }

  /** The keys `type` and `@timestamp` are none of the keys one endpoint
      type writes. */
  lemma FixedKeysKept(endpoint: string)
    ensures "type" !in EndpointKeys(endpoint) && "type" != TotalCountriesKey && "type" != CompleteCountriesKey
    ensures "@timestamp" !in EndpointKeys(endpoint) && "@timestamp" != TotalCountriesKey &&
            "@timestamp" != CompleteCountriesKey
  {
    KeysDistinct(endpoint, "");
  }

  /** The keys after one more endpoint type are the loop's keys. */
  lemma WrittenKeys(metrics: map<string, Value>, endpoints: seq<string>, endpoint: string,
                    m: map<string, Value>)
    requires forall key :: key in metrics ==> ApelKey(key, endpoints)
    requires m.Keys == metrics.Keys + EndpointKeys(endpoint) + {TotalCountriesKey, CompleteCountriesKey}
    ensures forall key :: key in m ==> ApelKey(key, endpoints + [endpoint])
  {
    forall key | key in m ensures ApelKey(key, endpoints + [endpoint]) {
      if key in EndpointKeys(endpoint) {
        assert endpoint in endpoints + [endpoint];
      } else if key in metrics && !(key in {"type", "@timestamp", TotalCountriesKey, CompleteCountriesKey}) {
        var e :| e in endpoints && key in EndpointKeys(e);
        assert e in endpoints + [endpoint];
      }
    }
  }

  /** The loop over endpoint types, however it ends unless by an uncaught
      exception, leaves a consistent state: `type` and `@timestamp` are kept,
      every key is one of the loop's, the run-wide country total is the size
      of the run-wide country set, and the module-level list has grown by
      exactly the countries of that set. */
  lemma {:induction false} ApelLoopConsistent(g0: seq<Option<string>>, timestamp: string, endpoints: seq<string>,
                                              verify: Verify, fetch: (string, Verify) -> Fetch)
    ensures var p := ApelLoop(Start(timestamp, g0), endpoints, verify, fetch);
            !p.Crashed? ==> Consistent(g0, timestamp, endpoints, p.state)
    decreases |endpoints|
  {
    if endpoints == [] {
      assert Start(timestamp, g0).countryList[..|g0|] == g0;
    } else {
      var init := endpoints[..|endpoints| - 1];
      var endpoint := endpoints[|endpoints| - 1];
      assert endpoints == init + [endpoint];
      ApelLoopConsistent(g0, timestamp, init, verify, fetch);
      var q := ApelLoop(Start(timestamp, g0), init, verify, fetch);
      if q.Running? {
        match fetch(EndpointUrl(endpoint), verify)
        case Refused =>
          ConsistentLater(g0, timestamp, init, endpoint, q.state);
        case Received(doc) =>
          if EndpointStep(q.state, endpoint, doc).Running? {
            EndpointStepConsistent(g0, timestamp, init, q.state, endpoint, doc);
          }
      }
    }
  }

  /** A state consistent after some endpoint types stays so when one more
      is counted. */
  lemma ConsistentLater(g0: seq<Option<string>>, timestamp: string, endpoints: seq<string>, endpoint: string,
                        st: ApelState)
    requires Consistent(g0, timestamp, endpoints, st)
    ensures Consistent(g0, timestamp, endpoints + [endpoint], st)
  {
    forall key | key in st.metrics ensures ApelKey(key, endpoints + [endpoint]) {
      if !(key in {"type", "@timestamp", TotalCountriesKey, CompleteCountriesKey}) {
        var e :| e in endpoints && key in EndpointKeys(e);
        assert e in endpoints + [endpoint];
      }
    }
  }

  // ---------------------------------------------------------------------
  // The run-wide country set is the union of the per-endpoint lists.

  /** The countries of the lists stored under the "Number of countries ..."
      key of each of `endpoints` (the key that, swapped, holds the list). */
  function StoredCountries(endpoints: seq<string>, m: map<string, Value>): set<Option<string>> {
    set e, c | e in endpoints && CountriesNumberKey(e) in m && m[CountriesNumberKey(e)].ListVal? &&
               c in m[CountriesNumberKey(e)].items :: c
  }

  lemma CountriesNumberKeyInjective(a: string, b: string)
    requires CountriesNumberKey(a) == CountriesNumberKey(b)
    ensures a == b
  {
    var n := |CountriesNumberPrefix|;
    assert a == CountriesNumberKey(a)[n..n + |a|];
    assert b == CountriesNumberKey(b)[n..n + |b|];
  }

  /** The key holding an endpoint type's country list is a key of that
      endpoint type alone, and none of the fixed keys. */
  lemma CountriesNumberKeyOwn(x: string, e: string)
    ensures CountriesNumberKey(x) in EndpointKeys(e) ==> x == e
    ensures CountriesNumberKey(x) !in {"type", "@timestamp", TotalCountriesKey, CompleteCountriesKey}
  {
    KeyShapes(x, "");
    KeyShapes(e, "");
    KeysDistinct(x, "");
    if CountriesNumberKey(x) == CountriesNumberKey(e) {
      CountriesNumberKeyInjective(x, e);
    }
  }

  /** One more endpoint type's iteration adds its countries to the stored
      lists, and leaves the lists of the earlier (other) types alone. */
  lemma StoredAfterWrite(endpoints: seq<string>, endpoint: string, m: map<string, Value>,
                         sites: (nat, seq<Option<string>>), services: nat,
                         countries: (seq<Option<string>>, nat), all: set<Option<string>>)
    requires endpoint !in endpoints
    ensures StoredCountries(endpoints + [endpoint], WriteEndpoint(m, endpoint, sites, services, countries, all)) ==
              StoredCountries(endpoints, m) + Elems(countries.0)
  {
    var w := WriteEndpoint(m, endpoint, sites, services, countries, all);
    forall e | e in endpoints
      ensures CountriesNumberKey(e) in w <==> CountriesNumberKey(e) in m
      ensures CountriesNumberKey(e) in m ==> w[CountriesNumberKey(e)] == m[CountriesNumberKey(e)]
    {
      CountriesNumberKeyOwn(e, endpoint);
    }
    var lhs := StoredCountries(endpoints + [endpoint], w);
    var rhs := StoredCountries(endpoints, m) + Elems(countries.0);
    forall c | c in lhs ensures c in rhs {
      var e :| e in endpoints + [endpoint] && CountriesNumberKey(e) in w &&
               w[CountriesNumberKey(e)].ListVal? && c in w[CountriesNumberKey(e)].items;
      if e != endpoint {
        assert e in endpoints;
      }
    }
    forall c | c in rhs ensures c in lhs {
      if c in Elems(countries.0) {
        assert endpoint in endpoints + [endpoint];
      } else {
        var e :| e in endpoints && CountriesNumberKey(e) in m &&
                 m[CountriesNumberKey(e)].ListVal? && c in m[CountriesNumberKey(e)].items;
        assert e in endpoints + [endpoint];
      }
    }
  }

  /** An endpoint type that wrote nothing adds nothing to the stored lists. */
  lemma StoredLater(endpoints: seq<string>, endpoint: string, m: map<string, Value>)
    requires endpoint !in endpoints
    requires forall key :: key in m ==> ApelKey(key, endpoints)
    ensures StoredCountries(endpoints + [endpoint], m) == StoredCountries(endpoints, m)
  {
    CountriesNumberKeyOwn(endpoint, endpoint);
    if CountriesNumberKey(endpoint) in m {
      assert ApelKey(CountriesNumberKey(endpoint), endpoints);
      var e :| e in endpoints && CountriesNumberKey(endpoint) in EndpointKeys(e);
      CountriesNumberKeyOwn(endpoint, e);
      assert false;
    }
    var lhs := StoredCountries(endpoints + [endpoint], m);
    forall c | c in lhs ensures c in StoredCountries(endpoints, m) {
      var e :| e in endpoints + [endpoint] && CountriesNumberKey(e) in m &&
               m[CountriesNumberKey(e)].ListVal? && c in m[CountriesNumberKey(e)].items;
      assert e in endpoints;
    }
  }

  /** The record counts leave the stored lists alone. */
  lemma StoredAfterRecords(endpoints: seq<string>, m: map<string, Value>, loaded: string -> int)
    ensures StoredCountries(endpoints, AddRecords(m, QueryTypes, loaded)) == StoredCountries(endpoints, m)
  {
    var m2 := AddRecords(m, QueryTypes, loaded);
    AddRecordsSpec(m, QueryTypes, loaded);
    forall e | e in endpoints
      ensures CountriesNumberKey(e) in m2 <==> CountriesNumberKey(e) in m
      ensures CountriesNumberKey(e) in m ==> m2[CountriesNumberKey(e)] == m[CountriesNumberKey(e)]
    {
      forall q | q in QueryTypes ensures CountriesNumberKey(e) != RecordsKey(q) {
        KeysDistinct(e, q);
      }
    }
  }

  /** However the loop over distinct endpoint types ends, unless by an
      uncaught exception, the run-wide country set (whose size is the
      "Total number of countries" value) is exactly the union of the country
      lists stored for the endpoint types processed. */
  lemma {:induction false} ApelLoopUnion(g0: seq<Option<string>>, timestamp: string, endpoints: seq<string>,
                                         verify: Verify, fetch: (string, Verify) -> Fetch)
    ensures var p := ApelLoop(Start(timestamp, g0), endpoints, verify, fetch);
            !p.Crashed? && NoDups(endpoints) ==> p.state.allCountries == StoredCountries(endpoints, p.state.metrics)
    decreases |endpoints|
  {
    var p := ApelLoop(Start(timestamp, g0), endpoints, verify, fetch);
    if endpoints != [] && !p.Crashed? && NoDups(endpoints) {
      var init := endpoints[..|endpoints| - 1];
      var endpoint := endpoints[|endpoints| - 1];
      assert endpoints == init + [endpoint];
      assert NoDups(init) && endpoint !in init;
      ApelLoopUnion(g0, timestamp, init, verify, fetch);
      var q := ApelLoop(Start(timestamp, g0), init, verify, fetch);
      if q.Running? {
        assert p == Advance(q.state, endpoint, verify, fetch);
        match fetch(EndpointUrl(endpoint), verify)
        case Refused =>
          ApelLoopConsistent(g0, timestamp, init, verify, fetch);
          StoredLater(init, endpoint, q.state.metrics);
        case Received(doc) =>
          var rs := ElementsByTagName(doc, "SERVICE_ENDPOINT");
          assert p == EndpointStep(q.state, endpoint, doc);
          var countries := Countries(rs).value;
          var all := q.state.allCountries + Elems(countries.0);
          assert p.state.allCountries == all;
          assert p.state.metrics ==
            WriteEndpoint(q.state.metrics, endpoint, Sites(rs).value, Services(rs, endpoint).value, countries, all);
          StoredAfterWrite(init, endpoint, q.state.metrics, Sites(rs).value, Services(rs, endpoint).value,
                           countries, all);
      } else {
        assert p == q;
        ApelLoopConsistent(g0, timestamp, init, verify, fetch);
        StoredLater(init, endpoint, q.state.metrics);
      }
    }
  }

  /** The four endpoint types differ (in length). */
  lemma EndpointTypesDistinct()
    ensures NoDups(EndpointTypes)
  {
  }

  /** No key of the loop is a record-count key. */
  lemma RecordsKeyFresh(key: string, endpoints: seq<string>, queryType: string)
    requires ApelKey(key, endpoints)
    ensures key != RecordsKey(queryType)
  {
    KeysDistinct("", queryType);
    if !(key in {"type", "@timestamp", TotalCountriesKey, CompleteCountriesKey}) {
      var e :| e in endpoints && key in EndpointKeys(e);
      KeysDistinct(e, queryType);
    }
  }

  lemma RecordsKeyInjective(q1: string, q2: string)
    requires RecordsKey(q1) == RecordsKey(q2)
    ensures q1 == q2
  {
    var prefix := RecordsPrefix;
    assert q1 == RecordsKey(q1)[|prefix|..|prefix| + |q1|];
    assert q2 == RecordsKey(q2)[|prefix|..|prefix| + |q2|];
  }

  /** The record-count step adds one key per query type, holding that
      type's count, and leaves every other key as it was. */
  lemma AddRecordsSpec(m: map<string, Value>, queryTypes: seq<string>, loaded: string -> int)
    ensures AddRecords(m, queryTypes, loaded).Keys == m.Keys + set q | q in queryTypes :: RecordsKey(q)
    ensures forall q :: q in queryTypes ==> AddRecords(m, queryTypes, loaded)[RecordsKey(q)] == IntVal(loaded(q))
    ensures forall key :: key in m && (forall q :: q in queryTypes ==> key != RecordsKey(q)) ==>
              AddRecords(m, queryTypes, loaded)[key] == m[key]
  {
    AddRecordsKeys(m, queryTypes, loaded);
    AddRecordsValues(m, queryTypes, loaded);
    AddRecordsKeeps(m, queryTypes, loaded);
  }

  lemma {:induction false} AddRecordsKeys(m: map<string, Value>, queryTypes: seq<string>, loaded: string -> int)
    ensures AddRecords(m, queryTypes, loaded).Keys == m.Keys + set q | q in queryTypes :: RecordsKey(q)
    decreases |queryTypes|
  {
    if queryTypes != [] {
      var init := queryTypes[..|queryTypes| - 1];
      assert queryTypes == init + [queryTypes[|queryTypes| - 1]];
      AddRecordsKeys(m, init, loaded);
    }
  }

  lemma {:induction false} AddRecordsValues(m: map<string, Value>, queryTypes: seq<string>, loaded: string -> int)
    ensures forall q :: q in queryTypes ==> 
              RecordsKey(q) in AddRecords(m, queryTypes, loaded) &&
              AddRecords(m, queryTypes, loaded)[RecordsKey(q)] == IntVal(loaded(q))
    decreases |queryTypes|
  {
    if queryTypes != [] {
      var init := queryTypes[..|queryTypes| - 1];
      var last := queryTypes[|queryTypes| - 1];
      assert queryTypes == init + [last];
      AddRecordsValues(m, init, loaded);
      forall q | q in queryTypes && RecordsKey(q) == RecordsKey(last) ensures q == last {
        RecordsKeyInjective(q, last);
      }
    }
  }

  lemma {:induction false} AddRecordsKeeps(m: map<string, Value>, queryTypes: seq<string>, loaded: string -> int)
    ensures forall key :: key in m && (forall q :: q in queryTypes ==> key != RecordsKey(q)) ==>
              key in AddRecords(m, queryTypes, loaded) && AddRecords(m, queryTypes, loaded)[key] == m[key]
    decreases |queryTypes|
  {
    if queryTypes != [] {
      var init := queryTypes[..|queryTypes| - 1];
      assert queryTypes == init + [queryTypes[|queryTypes| - 1]];
      AddRecordsKeeps(m, init, loaded);
    }
  }

  /** A run that ends normally reports `type` and `@timestamp`, a run-wide
      country total equal to the size of the run-wide country set, the
      record counts exactly when the store answered 200, and is published
      exactly when `write` is "True"; on a fresh import of the module the
      total is also the length of the module-level list. */
  lemma ApelReport(g0: seq<Option<string>>, write: string, verifyOpt: string, probe: Probe,
                   timestamp: string, fetch: (string, Verify) -> Fetch, loaded: string -> int)
    requires ApelMain(g0, write, verifyOpt, probe, timestamp, fetch, loaded).outcome.Ok?
    ensures probe.Responded?
    ensures var run := ApelMain(g0, write, verifyOpt, probe, timestamp, fetch, loaded);
            var m := run.outcome.value.metrics;
            && "type" in m && m["type"] == StrVal("apel_metric")
            && "@timestamp" in m && m["@timestamp"] == StrVal(timestamp)
            && (TotalCountriesKey in m <==> CompleteCountriesKey in m)
            && (TotalCountriesKey in m ==>
                  (m[CompleteCountriesKey].SetVal? && m[TotalCountriesKey] == IntVal(|m[CompleteCountriesKey].members|)))
            && (g0 == [] && TotalCountriesKey in m ==> m[TotalCountriesKey] == IntVal(|run.countryList|))
            && (forall q :: q in QueryTypes ==>
                  (RecordsKey(q) in m <==> probe.status == 200) &&
                  (probe.status == 200 ==> m[RecordsKey(q)] == IntVal(loaded(q))))
            && (run.outcome.value.published <==> write == "True")
    ensures var m := ApelMain(g0, write, verifyOpt, probe, timestamp, fetch, loaded).outcome.value.metrics;
            TotalCountriesKey in m ==>
              && CompleteCountriesKey in m
              && m[CompleteCountriesKey] == SetVal(StoredCountries(EndpointTypes, m))
              && m[TotalCountriesKey] == IntVal(|StoredCountries(EndpointTypes, m)|)
  {
    var verify := Flag(verifyOpt == "True");
    var p := ApelLoop(Start(timestamp, g0), EndpointTypes, verify, fetch);
    ApelLoopConsistent(g0, timestamp, EndpointTypes, verify, fetch);
    ConcludeReport(g0, timestamp, EndpointTypes, p, probe.status == 200, write, loaded);
    ApelReportUnion(g0, write, verifyOpt, probe, timestamp, fetch, loaded);
  }

  /** In a run that ends normally, the reported country set is the union of
      the country lists reported per endpoint type, and the total its size. */
  lemma ApelReportUnion(g0: seq<Option<string>>, write: string, verifyOpt: string, probe: Probe,
                        timestamp: string, fetch: (string, Verify) -> Fetch, loaded: string -> int)
    requires ApelMain(g0, write, verifyOpt, probe, timestamp, fetch, loaded).outcome.Ok?
    ensures var m := ApelMain(g0, write, verifyOpt, probe, timestamp, fetch, loaded).outcome.value.metrics;
            TotalCountriesKey in m ==>
              && CompleteCountriesKey in m
              && m[CompleteCountriesKey] == SetVal(StoredCountries(EndpointTypes, m))
              && m[TotalCountriesKey] == IntVal(|StoredCountries(EndpointTypes, m)|)
  {
    var verify := Flag(verifyOpt == "True");
    var p := ApelLoop(Start(timestamp, g0), EndpointTypes, verify, fetch);
    var esUp := probe.status == 200;
    assert ApelMain(g0, write, verifyOpt, probe, timestamp, fetch, loaded) == Conclude(p, esUp, write, loaded);
    var st := p.state;
    var m := if esUp then AddRecords(st.metrics, QueryTypes, loaded) else st.metrics;
    ApelLoopConsistent(g0, timestamp, EndpointTypes, verify, fetch);
    ReportedKeys(timestamp, EndpointTypes, st.metrics, st.allCountries, esUp, loaded, m);
    EndpointTypesDistinct();
    ApelLoopUnion(g0, timestamp, EndpointTypes, verify, fetch);
    StoredAfterRecords(EndpointTypes, st.metrics, loaded);
  }

  /** The end of `main` from a consistent state. */
  lemma ConcludeReport(g0: seq<Option<string>>, timestamp: string, endpoints: seq<string>, p: Progress,
                       esUp: bool, write: string, loaded: string -> int)
    requires !p.Crashed? && Consistent(g0, timestamp, endpoints, p.state)
    ensures var run := Conclude(p, esUp, write, loaded);
            var m := run.outcome.value.metrics;
            && run.outcome.Ok?
            && "type" in m && m["type"] == StrVal("apel_metric")
            && "@timestamp" in m && m["@timestamp"] == StrVal(timestamp)
            && (TotalCountriesKey in m <==> CompleteCountriesKey in m)
            && (TotalCountriesKey in m ==>
                  (m[CompleteCountriesKey].SetVal? && m[TotalCountriesKey] == IntVal(|m[CompleteCountriesKey].members|)))
            && (g0 == [] && TotalCountriesKey in m ==> m[TotalCountriesKey] == IntVal(|run.countryList|))
            && (forall q :: q in QueryTypes ==>
                  (RecordsKey(q) in m <==> esUp) &&
                  (esUp ==> m[RecordsKey(q)] == IntVal(loaded(q))))
            && (run.outcome.value.published <==> write == "True")
  {
    var st := p.state;
    var m := if esUp then AddRecords(st.metrics, QueryTypes, loaded) else st.metrics;
    ReportedKeys(timestamp, endpoints, st.metrics, st.allCountries, esUp, loaded, m);
    if g0 == [] {
      assert Elems(st.countryList) == st.allCountries;
      NoDupsCard(st.countryList);
    }
  }

  /** The dictionary of a consistent state, with the record counts added
      when the store is up: `type`, `@timestamp` and the run-wide country
      keys are kept, and there is a record-count key per query type exactly
      when the store is up. */
  lemma ReportedKeys(timestamp: string, endpoints: seq<string>, metrics: map<string, Value>,
                     all: set<Option<string>>, esUp: bool, loaded: string -> int, m: map<string, Value>)
    requires KeysConsistent(timestamp, endpoints, metrics, all)
    requires m == if esUp then AddRecords(metrics, QueryTypes, loaded) else metrics
    ensures "type" in m && m["type"] == StrVal("apel_metric")
    ensures "@timestamp" in m && m["@timestamp"] == StrVal(timestamp)
    ensures TotalCountriesKey in m <==> CompleteCountriesKey in m
    ensures TotalCountriesKey in m ==> m[TotalCountriesKey] == IntVal(|all|) && m[CompleteCountriesKey] == SetVal(all)
    ensures forall q :: q in QueryTypes ==>
              (RecordsKey(q) in m <==> esUp) && (esUp ==> m[RecordsKey(q)] == IntVal(loaded(q)))
  {
    forall key, q | key in metrics && q in QueryTypes ensures key != RecordsKey(q) {
      RecordsKeyFresh(key, endpoints, q);
    }
    if esUp {
      AddRecordsSpec(metrics, QueryTypes, loaded);
      KeysDistinct("", "");
    }
  }

  /** A refused fetch for the `k`-th endpoint type ends the loop; the run
      still reports, unchanged, every key written for the endpoint types
      before it. */
  lemma ConnectionErrorKeepsEarlierKeys(g0: seq<Option<string>>, write: string, verifyOpt: string, status: int,
                                        timestamp: string, fetch: (string, Verify) -> Fetch,
                                        loaded: string -> int, k: nat)
    requires k < |EndpointTypes|
    requires ApelLoop(Start(timestamp, g0), EndpointTypes[..k], Flag(verifyOpt == "True"), fetch).Running?
    requires fetch(EndpointUrl(EndpointTypes[k]), Flag(verifyOpt == "True")).Refused?
    ensures var run := ApelMain(g0, write, verifyOpt, Responded(status), timestamp, fetch, loaded);
            var st := ApelLoop(Start(timestamp, g0), EndpointTypes[..k], Flag(verifyOpt == "True"), fetch).state;
            && run.outcome.Ok?
            && run.countryList == st.countryList
            && forall key :: key in st.metrics ==>
                 key in run.outcome.value.metrics && run.outcome.value.metrics[key] == st.metrics[key]
  {
    var verify := Flag(verifyOpt == "True");
    var start := Start(timestamp, g0);
    var st := ApelLoop(start, EndpointTypes[..k], verify, fetch).state;
    ApelLoopNext(start, EndpointTypes, verify, fetch, k);
    ApelLoopSettled(start, EndpointTypes, verify, fetch, k + 1);
    ApelLoopConsistent(g0, timestamp, EndpointTypes[..k], verify, fetch);
    AddRecordsSpec(st.metrics, QueryTypes, loaded);
    forall key, q | key in st.metrics && q in QueryTypes ensures key != RecordsKey(q) {
      RecordsKeyFresh(key, EndpointTypes[..k], q);
    }
  }

  /** Whether and with what a run ends does not depend on the store's status
      code once it answers, and neither does publishing. */
  lemma PublishingIgnoresStore(g0: seq<Option<string>>, write: string, verifyOpt: string, status1: int,
                               status2: int, timestamp: string, fetch: (string, Verify) -> Fetch,
                               loaded: string -> int)
    ensures var run1 := ApelMain(g0, write, verifyOpt, Responded(status1), timestamp, fetch, loaded);
            var run2 := ApelMain(g0, write, verifyOpt, Responded(status2), timestamp, fetch, loaded);
            && run1.outcome.Ok? == run2.outcome.Ok?
            && run1.countryList == run2.countryList
            && (run1.outcome.Ok? ==> run1.outcome.value.published == run2.outcome.value.published == (write == "True"))
  {
  }

  /** A run raises exactly when the store cannot be reached or an endpoint
      type's records make an aggregation raise. */
  lemma ApelCrashes(g0: seq<Option<string>>, write: string, verifyOpt: string, probe: Probe,
                    timestamp: string, fetch: (string, Verify) -> Fetch, loaded: string -> int)
    ensures ApelMain(g0, write, verifyOpt, probe, timestamp, fetch, loaded).outcome.Raised? <==>
              probe.Unreachable? ||
              ApelLoop(Start(timestamp, g0), EndpointTypes, Flag(verifyOpt == "True"), fetch).Crashed?
  {
  }
}
