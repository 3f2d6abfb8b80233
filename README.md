# Grid-Tools metric gathering, modelled in Dafny

The two collectors of Grid-Tools-Metric-Gathering read the GOCDB programmatic
interface and a metrics store and build one dictionary of metrics per run.
The APEL collector reports, for each APEL service-endpoint type:

- the sites running it;
- the number of its endpoints;
- the countries using it;
- the run-wide union of those countries;
- the accounting record counts, when the store is up.

The GOCDB collector reports:

- the number of registered users, and of users with a role;
- the number of sites;
- the countries with at least one site;
- the number of API queries, and the distinct client addresses over 28 days.

This project models the core of both collectors on already-parsed XML trees:

- `Python`: the Python semantics the scripts rely on. `None` is `Option`; an
  exception that escapes a call is an `Outcome` value. `ScanAll` is a `for`
  loop whose body may raise. `Distinct` is the "append when not in the list"
  loop. `Count` is the counting loop. `ParseInt` is `int()` on a string.
- `Lists`: duplicate-free lists built by appending new values (`AppendNew`,
  `Dedup`), with prefix, membership and first-occurrence-order lemmas.
- `Dom`: the tree `xml.dom.minidom` produces, reduced to documents, elements
  and text. `ElementsByTagName` follows section 1.2 of W3C DOM Level 1 Core:
  every matching descendant, in preorder. `FindFirst` is an independent
  depth-first search that `ElementsByTagName(...)[0]` is proved to agree with.
- `Common`: `GetData.data_finder`, `es_check`, and the values that pass between
  the collectors and the outside world:
  - `Fetch`: a registry answer, or a refused connection;
  - `Probe`: the store's status;
  - `Value`: a metric value;
  - `Report`: the dictionary, and whether it was handed to `ESWrite`.
- `MetricsApel`: `get_sites`, `get_services` and `get_countries`, each as a
  method with its loop, proved equal to a function. The module-level list
  `country_list` is the field of class `ApelModule`, and `get_countries`
  extends it in place. `main` is `ApelModule.Run`, proved equal to the
  function `ApelMain`.
- `MetricsGocdb`: `_parse_get_user_xml`, `_parse_get_user_xml_roles`,
  `get_sites`, `get_countries`, the set accumulation of
  `get_unique_ips_over_28_days`, and `__main__` (`RunGocdb`, equal to
  `GocdbMain`).
- `ApelFixture`, `GocdbFixture`: the XML answers of the unit tests as trees,
  and lemmas stating the results the unit tests expect.

The model keeps the code's quirks as written:

- In metrics_apel.py:240-241, the key "List of countries with at least one X
  endpoint" holds the number of countries, and "Number of countries with at
  least one X endpoint" holds the list.
- The GOCDB country filter is `int(count) != 0`, so negative counts pass.
  A count that is not an integer raises `ValueError`, which is not caught.
  When the country is already listed, its count is not parsed.
- In GOCDB `get_countries`, a site without COUNT reaches an `except` branch
  that names `logger`. metrics_gocdb.py binds `logger` only inside
  `__main__`, so that branch raises `NameError`.
- In the APEL loops, a `GOCDB_PORTAL_URL` element whose first child is an
  element has a `None` value. If the record then lacks the looked-up field,
  building the warning (`str + None`) raises `TypeError`.
- Both collectors publish whenever `write` is "True", whether or not the store
  is up.

The fetcher, the store's answers and the clock are parameters:

- `fetch` maps a URL and the `verify=` setting to a `Fetch`;
- `probe` is what `es_check` sees;
- `loaded`, `queries` and `keys` stand for `get_records`, `get_queries` and the
  daily bucket keys;
- `timestamp` stands for `datetime.now().isoformat()`.

## Model

| member | source | states |
|---|---|---|
| Python.ScanAll | metrics_apel.py:38-47 | a `for` loop whose body may raise handles a prefix of the elements: it has no fault exactly when it handled them all |
| Python.ScanAllSpec | metrics_apel.py:38-47 | the loop holds the value of every element before the first one that raises, and that element's exception |
| Python.ScanAllStep | metrics_apel.py:38-47 | after a fault-free prefix, the next element either appends its value or ends the whole loop with its exception |
| Python.DistinctSpec | metrics_apel.py:37-49 | the append-if-new loop raises exactly when some lookup raises, with the first such exception; otherwise its list has no duplicates, holds exactly the looked-up values, and keeps first-occurrence order |
| Python.Hits | metrics_apel.py:71-88 | the counter equals the number of `True` tests, is at most the number of records, and equals it exactly when every test is `True` |
| Python.CountSpec | metrics_apel.py:71-93 | the counting loop returns exactly when no test raises, otherwise raises the first exception; its count is the number of records satisfying any predicate that agrees with the test, at most the number of records |
| Python.TallySnoc | metrics_gocdb.py:47-52 | one more element adds one to the tally exactly when it satisfies the predicate |
| Python.TallyAppend | metrics_gocdb.py:26-27 | the tally of two lists one after the other is the sum of their tallies |
| Python.TallyBounds | metrics_gocdb.py:45-54 | the tally is at most the number of elements and equals it exactly when all satisfy the predicate |
| Python.ParseInt | metrics_gocdb.py:125 | `int(s)` raises nothing but `ValueError`, and succeeds only on a string that is neither blank nor a bare sign once stripped |
| Python.ParseIntRejects | metrics_gocdb.py:125 | `int(s)` raises `ValueError` on every string holding a character other than white space, a digit or a sign, and on every string that is blank or a bare sign once stripped |
| Python.ParseIntChars | metrics_gocdb.py:125 | every character of a string `int()` accepts is white space, a digit or a sign |
| Python.ParseIntOfShowInt | metrics_gocdb.py:125 | `int(str(n)) == n` for every integer, negative ones included |
| Dom.ElementsByTagName | common.py:25 | every element `getElementsByTagName` returns has the tag (or the name is "*") |
| Dom.FindFirst | common.py:24-26 | the element a depth-first search returns has the tag |
| Dom.FirstOfElementsByTagName | common.py:24-26 | `getElementsByTagName(name)[0]` is the first element a depth-first search finds, and the list is empty exactly when the search finds nothing |
| Dom.TaggedAmongAll | metrics_gocdb.py:26-27 | `len(getElementsByTagName(name))` is the number of elements below the node whose tag is `name`, counted over all of them |
| Dom.TaggedAmongAllIn | metrics_gocdb.py:26-27 | the same for the elements in and below a list of sibling nodes |
| Dom.FirstTagValue | common.py:24-26 | `[0].firstChild.nodeValue` raises `IndexError` exactly when no element matches, raises `AttributeError` exactly when the first match has no child, and otherwise returns that child's value verbatim |
| Dom.Upper | common.py:25 | `upper()` keeps the length, leaves no lower-case ASCII letter, keeps every other character, and shifts each lower-case letter by 32 |
| Dom.UpperIdempotent | common.py:25 | upper-casing twice is upper-casing once |
| Dom.UpperOfUpperCase | common.py:25 | a name without lower-case letters is its own upper-case form |
| Common.GetData.DataFinder | common.py:21-31 | with no matching element the result is `None` (a `TypeError` when the URL is `None`); otherwise it is the first match's first child value verbatim, or `AttributeError` when that element is empty |
| Common.GetData.Warning | common.py:29-31 | one warning naming the field and URL is logged exactly when nothing matches and the URL is a string, and the lookup then returns `None` |
| Common.DataFinderIgnoresCase | common.py:25 | looking a field up by its lower-case or its upper-case name gives the same result and the same warning |
| Common.DataFinderTakesFirst | common.py:24-28 | when several elements match, the value is that of the first in document order, untrimmed |
| Common.EsCheck | common.py:77-84 | `es_check` is `True` exactly when the status is 200; an unreachable store raises `ConnectionError` |
| Lists.AppendNewGrows | metrics_apel.py:128-132 | appending new values keeps the old list as a prefix, adds exactly the values not already present, and keeps a duplicate-free list duplicate-free |
| Lists.AppendNewKeepsPrefix | metrics_apel.py:118-129 | a list that starts with an earlier snapshot still does afterwards, and its set grows by exactly the appended values |
| Lists.NoDupsCard | metrics_apel.py:243-245 | a duplicate-free list is as long as its set |
| Lists.ElemsCard | metrics_gocdb.py:242-244 | a list has at most as many distinct elements as entries |
| Lists.DedupOrder | metrics_apel.py:45-47 | the deduplicated list holds exactly the input values, without duplicates, in the order of their first occurrence |
| MetricsApel.ServiceTestMeaning | metrics_apel.py:77-91 | a record counts exactly when its SERVICE_TYPE is the endpoint and it has a HOSTDN with a child; a record without HOSTDN is skipped (a `TypeError` when its URL is `None`) |
| MetricsApel.PortalUrlRequired | metrics_apel.py:39-41 | a record whose GOCDB_PORTAL_URL lookup raises makes every per-record lookup raise the same exception, which is `IndexError` exactly when the element is missing |
| MetricsApel.Sites | metrics_apel.py:37-49 | `get_sites` returns `(n, L)` with `n == len(L)` |
| MetricsApel.Services | metrics_apel.py:71-93 | `get_services` never counts more endpoints than there are records |
| MetricsApel.Countries | metrics_apel.py:117-139 | `get_countries` returns `(L, n)` with `n == len(L)` |
| MetricsApel.SitesSpec | metrics_apel.py:37-49 | `get_sites` raises exactly when a SITENAME lookup raises; otherwise its list is duplicate-free, holds exactly the lookup results (`None` included), in first-occurrence order |
| MetricsApel.CountriesSpec | metrics_apel.py:117-139 | the same for `get_countries` and COUNTRY_NAME |
| MetricsApel.CountriesElems | metrics_apel.py:118-139 | the countries `get_countries` returns are exactly its looked-up values |
| MetricsApel.ServicesSpec | metrics_apel.py:71-93 | `get_services` returns exactly when no record makes it raise, and then returns the number of qualifying records, at most the number of records |
| MetricsApel.GetSites | metrics_apel.py:16-49 | the loop of `get_sites` computes `Sites`, which does not depend on the endpoint argument |
| MetricsApel.GetServices | metrics_apel.py:52-93 | the loop of `get_services`, with its `try` around HOSTDN, computes `Services` |
| MetricsApel.ApelModule.constructor | metrics_apel.py:13 | importing the module starts `country_list` empty |
| MetricsApel.ApelModule.GetCountries | metrics_apel.py:96-139 | the loop returns `Countries` and extends the global list by exactly the values not yet in it, in order, including those looked up before a record that raises |
| MetricsApel.KeysDistinct | metrics_apel.py:210-254 | the keys `main` writes for one endpoint type, the two run-wide country keys, the record keys, `type` and `@timestamp` are pairwise different |
| MetricsApel.KeyShapes | metrics_apel.py:232-254 | the characters and lengths that tell those keys apart |
| MetricsApel.EndpointStep | metrics_apel.py:224-245 | one endpoint type's iteration either completes or ends the run with an exception; it never stops the loop quietly |
| MetricsApel.EndpointStepWrites | metrics_apel.py:230-245 | an iteration completes exactly when the three aggregations return; it then stores their results (the two country values swapped), the union of countries and its size, extends the global list, and keeps every other key |
| MetricsApel.WriteEndpoint | metrics_apel.py:232-245 | the seven assignments add exactly the endpoint's five keys and the two run-wide keys, with the swapped country values, and keep every other key |
| MetricsApel.ApelModule.GatherEndpoint | metrics_apel.py:224-245 | the body of the `try` block for one endpoint type computes `EndpointStep`, including the global list when an aggregation raises |
| MetricsApel.ApelModule.GatherNext | metrics_apel.py:218-249 | one pass of the loop: a refused fetch stops it with the state unchanged, otherwise the iteration runs |
| MetricsApel.ApelModule.GatherEndpoints | metrics_apel.py:215-249 | the loop over endpoint types computes `ApelLoop`: the dictionary (or the uncaught exception) and the global list |
| MetricsApel.ApelModule.AddRecordCounts | metrics_apel.py:251-254 | the loop over query types adds one record-count key per type |
| MetricsApel.ApelModule.Run | metrics_apel.py:186-262 | `main` ends as `ApelMain` says, in its result and in the global list |
| MetricsApel.ApelLoopNext | metrics_apel.py:218-249 | after a prefix of endpoint types that left the loop running, the next type is fetched and processed |
| MetricsApel.ApelLoopSettled | metrics_apel.py:247-249 | once the loop has stopped or raised, the remaining endpoint types change nothing |
| MetricsApel.ApelLoopDone | metrics_apel.py:215-249 | the loop ends where it leaves off: after the last endpoint type, or at the first refused fetch or uncaught exception |
| MetricsApel.EndpointStepConsistent | metrics_apel.py:230-245 | a completed iteration keeps the state consistent: fixed keys kept, only loop keys, total equal to the size of the union, global list grown by exactly the union |
| MetricsApel.WrittenConsistent | metrics_apel.py:230-245 | the state one iteration writes is consistent, for any aggregation results whose countries are the looked-up values |
| MetricsApel.ListStepConsistent | metrics_apel.py:118-131 | extending the global list with a record set's countries keeps its earlier entries as a prefix and keeps it equal to the old list plus the grown union, duplicate-free if it was |
| MetricsApel.WrittenKeysConsistent | metrics_apel.py:232-245 | the dictionary one iteration writes is consistent with the grown country union |
| MetricsApel.FixedKeysKept | metrics_apel.py:210-213 | `type` and `@timestamp` are none of the keys an iteration writes |
| MetricsApel.WrittenKeys | metrics_apel.py:232-245 | after one more iteration every key is still one of the loop's keys |
| MetricsApel.ApelLoopConsistent | metrics_apel.py:215-249 | however the loop ends, unless by an uncaught exception, the state is consistent: `type` and `@timestamp` kept, only loop keys, the total equal to the size of the run-wide country set, and the global list grown by exactly that set |
| MetricsApel.ApelLoopUnion | metrics_apel.py:215-249 | for distinct endpoint types, however the loop ends unless by an uncaught exception, the run-wide country set is exactly the union of the per-endpoint country lists stored so far |
| MetricsApel.CountriesNumberKeyInjective | metrics_apel.py:241 | different endpoint types have different "Number of countries ..." keys |
| MetricsApel.CountriesNumberKeyOwn | metrics_apel.py:232-245 | the key holding an endpoint type's country list is a key of that type alone, and none of the fixed keys |
| MetricsApel.StoredAfterWrite | metrics_apel.py:240-245 | an iteration for a new endpoint type adds exactly its countries to the stored lists and keeps the other types' lists |
| MetricsApel.StoredLater | metrics_apel.py:247-249 | an endpoint type that wrote nothing adds nothing to the stored lists |
| MetricsApel.StoredAfterRecords | metrics_apel.py:251-254 | the record counts leave the stored country lists alone |
| MetricsApel.EndpointTypesDistinct | metrics_apel.py:205-206 | the four endpoint types differ |
| MetricsApel.ConsistentLater | metrics_apel.py:247-249 | a consistent state stays consistent when the loop stops early |
| MetricsApel.RecordsKeyFresh | metrics_apel.py:253-254 | no key the loop writes is a record-count key |
| MetricsApel.RecordsKeyInjective | metrics_apel.py:253-254 | different query types have different record-count keys |
| MetricsApel.AddRecordsSpec | metrics_apel.py:251-254 | the record-count step adds one key per query type, holding that type's count, and keeps every other key |
| MetricsApel.AddRecordsKeys | metrics_apel.py:251-254 | the record-count step adds exactly the record-count keys |
| MetricsApel.AddRecordsValues | metrics_apel.py:251-254 | each record-count key holds the count of its query type |
| MetricsApel.AddRecordsKeeps | metrics_apel.py:251-254 | the record-count step keeps every other key |
| MetricsApel.ApelReport | metrics_apel.py:196-262 | a run that ends normally reached the store and reports: `type` and `@timestamp`; a reported country set equal to the union of the per-endpoint country lists, and a total equal to its size; the record counts exactly when the store answered 200; publication exactly when `write` is "True" |
| MetricsApel.ApelReportUnion | metrics_apel.py:215-262 | in a run that ends normally, the reported country set is the union of the per-endpoint country lists, and the total is its size |
| MetricsApel.ConcludeReport | metrics_apel.py:251-262 | the end of `main` from a consistent state adds the record counts only when the store is up, and publishes only when `write` is "True" |
| MetricsApel.ReportedKeys | metrics_apel.py:251-254 | adding the record counts keeps `type`, `@timestamp` and the run-wide country keys, and there is a record-count key per query type exactly when the store is up |
| MetricsApel.ConnectionErrorKeepsEarlierKeys | metrics_apel.py:216-249 | a refused fetch for the k-th endpoint type ends the loop, and the run reports unchanged every key written for the types before it |
| MetricsApel.PublishingIgnoresStore | metrics_apel.py:251-262 | once the store answers, its status changes neither whether the run ends normally, nor the global list, nor publication |
| MetricsApel.ApelCrashes | metrics_apel.py:203-249 | a run raises exactly when the store is unreachable or an aggregation raises on some endpoint type's records |
| MetricsApel.ApelMain | metrics_apel.py:186-262 | an unreachable store ends the run with `ConnectionError` before anything else, the global list untouched |
| MetricsGocdb.ParseGetUserXmlRoles | metrics_gocdb.py:31-54 | the loop counts each user with at least one USER_ROLE below it once, nested roles included, and never more than the number of users |
| MetricsGocdb.HasRoleMeaning | metrics_gocdb.py:47-52 | a user has a role exactly when a depth-first search finds a USER_ROLE below it; however many it has, it adds one to the count |
| MetricsGocdb.UsersWithRoleBounds | metrics_gocdb.py:26-54 | users with a role are at most the users, and the two counts agree exactly when every user has a role |
| MetricsGocdb.ParseGetUserXml | metrics_gocdb.py:11-28 | the number of users is the number of elements tagged EGEE_USER, and is 0 exactly when a search finds none |
| MetricsGocdb.GetSites | metrics_gocdb.py:57-82 | the number of sites is the number of elements tagged SITE, and is 0 exactly when a search finds none |
| MetricsGocdb.CountOf | metrics_gocdb.py:120-130 | a site without COUNT raises `NameError` (the handler names an unbound `logger`); an empty first COUNT raises `AttributeError`, exactly then; otherwise the result is the value of the first COUNT's first child |
| MetricsGocdb.NonZeroOfShowInt | metrics_gocdb.py:125 | the count text of any integer passes the filter exactly when the integer is not 0, so negative counts pass |
| MetricsGocdb.NonZero | metrics_gocdb.py:125 | `int(count) != 0` raises `TypeError` on `None`, raises `ValueError` exactly when the text is no integer, and is true exactly when the integer is not 0 |
| MetricsGocdb.CountryStepCases | metrics_gocdb.py:117-130 | a country already listed keeps the list without its count being parsed; a new country with a non-integer count raises `ValueError`; a new one is appended exactly when its count is not 0; a site without COUNT raises `NameError` |
| MetricsGocdb.CountedSite | metrics_gocdb.py:118-125 | a site is counted exactly when its COUNTRY lookup returns and its first COUNT holds a non-zero integer |
| MetricsGocdb.CountryLoopIsDedup | metrics_gocdb.py:112-132 | the list the loop returns is the countries of the counted sites without repeats, in first-occurrence order |
| MetricsGocdb.CountedCountriesMembers | metrics_gocdb.py:125-127 | the counted countries are exactly the countries of the counted sites |
| MetricsGocdb.CountryLoopSpec | metrics_gocdb.py:112-132 | the loop's list is duplicate-free, holds exactly the countries of the counted sites, in first-occurrence order |
| MetricsGocdb.CountriesSpec | metrics_gocdb.py:85-132 | `get_countries` returns `(len(L), L)` with `L` duplicate-free, holding exactly the counted countries, in first-occurrence order |
| MetricsGocdb.CountryLoopStep | metrics_gocdb.py:117-130 | after a prefix the loop went through, the next site is one more iteration |
| MetricsGocdb.CountryLoopRaised | metrics_gocdb.py:117-130 | once the loop has raised, the remaining sites change nothing |
| MetricsGocdb.CountryLoopDone | metrics_gocdb.py:117-130 | a loop that has gone through every site, or has raised, has its final value |
| MetricsGocdb.VisitSite | metrics_gocdb.py:118-130 | the loop body on one site is one iteration `CountryStep`, in the code's evaluation order |
| MetricsGocdb.VisitSites | metrics_gocdb.py:112-130 | the loop over the SITE elements computes `CountryLoop` |
| MetricsGocdb.GetCountries | metrics_gocdb.py:85-132 | `get_countries` as written computes `Countries` |
| MetricsGocdb.KeysOverOneMoreDay | metrics_gocdb.py:230-242 | one more day adds exactly that day's bucket keys to the union |
| MetricsGocdb.KeysOverDaysBounds | metrics_gocdb.py:184-244 | the 28-day union contains each day's addresses, and has at least as many as any one day and at most as many as all the days' buckets together |
| MetricsGocdb.KeysOverDaysAtMost | metrics_gocdb.py:230-244 | the union has at most as many addresses as the buckets of its days |
| MetricsGocdb.GetUniqueIpsOver28Days | metrics_gocdb.py:176-244 | the result is the size of the union of the bucket keys of days 1 to 28 |
| MetricsGocdb.AddBucketKeys | metrics_gocdb.py:241-242 | the inner loop adds exactly one day's bucket keys to the set |
| MetricsGocdb.GocdbVerify | metrics_gocdb.py:257-260 | `verify` is `False` exactly when the option is "False", and otherwise the option string itself |
| MetricsGocdb.RunGocdb | metrics_gocdb.py:246-335 | `__main__` as written ends as `GocdbMain` says |
| MetricsGocdb.GocdbGatherKeys | metrics_gocdb.py:273-312 | the `try` block holds the keys of exactly the fetches answered before the first refused one, with the values computed from the answers, never more users with a role than users, and no other key |
| MetricsGocdb.GocdbReport | metrics_gocdb.py:265-335 | a run that ends normally reached the store; it keeps the registry keys unchanged, has the two store keys exactly when the store answered 200, has no other key, and is published exactly when `write` is "True" |
| MetricsGocdb.StoreKeysFresh | metrics_gocdb.py:316-317 | the two store keys differ from each other and from every registry key |
| MetricsGocdb.GocdbCrashes | metrics_gocdb.py:265-312 | a run raises exactly when the store is unreachable, or the country answer arrives and `get_countries` raises on it |
| MetricsGocdb.GocdbPublishingIgnoresStore | metrics_gocdb.py:314-335 | once the store answers, its status changes neither whether the run ends normally, nor publication, nor any key other than the two store keys |
| ApelFixture.AnswerRecords | test/test_metrics_apel.py:12-14 | `getElementsByTagName('SERVICE_ENDPOINT')` on the test answer is its one record |
| ApelFixture.PortalUrlField | test/test_metrics_apel.py:41-42 | the record's portal URL is the line break between its tags, untrimmed |
| ApelFixture.SiteNameField | test/test_metrics_apel.py:49 | the record's SITENAME is "MD-02-IMI" |
| ApelFixture.CountryField | test/test_metrics_apel.py:50 | the record's COUNTRY_NAME is "CRETE" |
| ApelFixture.HostDnField | test/test_metrics_apel.py:59 | the record's HOSTDN is " ALEX TSELOS ", untrimmed |
| ApelFixture.RecordQualifies | test/test_metrics_apel.py:44-59 | the record is an APEL service with a HOSTDN |
| ApelFixture.SitesOfOne | metrics_apel.py:16-49 | `get_sites` on one record whose SITENAME lookup returns `v` gives `(1, [v])` |
| ApelFixture.ServicesOfOne | metrics_apel.py:52-93 | `get_services` on one record that counts gives 1 |
| ApelFixture.CountriesOfOne | metrics_apel.py:96-139 | `get_countries` on one record whose COUNTRY_NAME lookup returns `v` gives `([v], 1)` |
| ApelFixture.FixtureSites | test/test_metrics_apel.py:10-17 | `get_sites("APEL", records)` gives `(1, ["MD-02-IMI"])` |
| ApelFixture.FixtureServices | test/test_metrics_apel.py:19-25 | `get_services("APEL", records)` gives 1 |
| ApelFixture.FixtureCountries | test/test_metrics_apel.py:27-34 | `get_countries("APEL", records)` gives `(["CRETE"], 1)` |
| GocdbFixture.FirstUserHasRole | test/test_metrics_gocdb.py:34-58 | the first user has a role |
| GocdbFixture.SecondUserLacks | test/test_metrics_gocdb.py:59-74 | the second user has no role and holds no user |
| GocdbFixture.UsersOfAnswer | test/test_metrics_gocdb.py:32-75 | the user answer's EGEE_USER elements are the two users, in order |
| GocdbFixture.OneOfTwo | metrics_gocdb.py:45-54 | of two users, one with a role and one without, one is counted |
| GocdbFixture.FixtureUsers | test/test_metrics_gocdb.py:8-12 | `_parse_get_user_xml` gives 2 |
| GocdbFixture.FixtureRoles | test/test_metrics_gocdb.py:14-18 | `_parse_get_user_xml_roles` gives 1 |
| GocdbFixture.FixtureSites | test/test_metrics_gocdb.py:20-24 | `get_sites` gives 3 on three SITE elements whose data are attributes |
| GocdbFixture.SiteLookups | test/test_metrics_gocdb.py:95-98 | a site's COUNTRY and COUNT are its two children, and it holds no SITE |
| GocdbFixture.CountriesOfAnswer | test/test_metrics_gocdb.py:93-111 | the country answer's SITE elements are the four sites, in order |
| GocdbFixture.CountTexts | test/test_metrics_gocdb.py:97-105 | "0" fails the count filter and "2" passes it |
| GocdbFixture.OnlyThirdCounts | metrics_gocdb.py:117-130 | over four sites of which only the third counts, the loop keeps the third site's country alone |
| GocdbFixture.FixtureCountries | test/test_metrics_gocdb.py:25-30 | `get_countries` gives `(1, ["Algeria"])`: the sites with count 0 are passed over |

## Left out

- HTTPS fetching, sessions, client certificates and TLS (`requests.get`,
  `requests.Session`): each registry fetch is the parameter `fetch`, which
  answers a parsed document or a refused connection. Other `requests`
  exceptions are not modelled.
- XML parsing (`xml.dom.minidom.parseString`): the model starts from the
  parsed tree. Attributes and the XML declaration are not part of the
  tree. The `Node` type can hold the white-space text between elements, so
  the general lemmas cover it, but the two test documents written out in
  apel_fixture.dfy and gocdb_fixture.dfy omit it. The exception is the
  text of `GOCDB_PORTAL_URL`, which they keep, because the test reads it.
- The store queries `get_records`, `get_queries` and the `search` calls of
  `get_unique_ips_over_28_days`: they are the parameters `loaded`, `queries`
  and `keys`. The duplicate `"query"` key of metrics_gocdb.py:157-168 belongs
  to that query and is not modelled.
- `ESWrite.write`, the HTTP request inside `es_check`, `ModLogger`, logging
  and `print`: a run reports the dictionary and whether it was published.
  Only the `data_finder` warning is modelled, as `GetData.Warning`.
- `datetime.now()` and the index dates: the ISO timestamp is the parameter
  `timestamp`.
- `OptionParser`: `write` and `verifyOpt` are the option strings.
- The order of "Complete list of countries using APEL ", which comes from
  `list(set)`: the value is modelled as a set.
- Dom.Upper: only ASCII letters are upper-cased; non-ASCII case mappings of
  `str.upper()` are not modelled.
- Python.ParseInt: ASCII white space, an optional sign and ASCII digits only;
  `int()`'s underscores and non-ASCII digits are not modelled.
- MetricsGocdb.CountriesSpec: states membership through `CountedCountries`.
  The statement that these are the countries of the counted sites is
  `CountedCountriesMembers`, and `CountedSite` says what a counted site is.
- MetricsApel.ApelCrashes: exceptions from the store queries `get_records`
  are not modelled (`loaded` is a total function), so "a run raises exactly
  when ..." holds only with record queries that return.
- MetricsGocdb.GocdbCrashes: exceptions from `get_queries` and the `search`
  calls of `get_unique_ips_over_28_days` are not modelled (`queries` and
  `keys` are total functions), so "a run raises exactly when ..." holds only
  with store queries that return.
- MetricsApel.ApelLoopUnion: states the union only for distinct endpoint
  types, as `EndpointTypes` is; with a repeated type, a later list replaces
  the earlier one under the same key while the run-wide set keeps both.
- MetricsApel.ApelReport: relates the run-wide total to the length of the
  global `country_list` only on a fresh import (an empty list at the start),
  since earlier calls may have filled the list.
