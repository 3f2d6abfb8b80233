/** metrics_gocdb.py: counts over the XML answers of the GOCDB programmatic
    interface (users, users with a role, sites, countries with sites), the
    number of distinct client addresses over 28 days, and the assembly of
    the GOCDB metrics dictionary in `__main__`. */
module MetricsGocdb {
  import opened Python
  import opened Dom
  import opened Lists
  import opened Common

  // ---------------------------------------------------------------------
  // Users.

  /** `_parse_get_user_xml(xml_obj)`: the number of EGEE_USER elements,
      which is 0 exactly when a search finds none. */
  function ParseGetUserXml(xmlObj: Node): (r: nat)
    ensures r == Tally(ElementsByTagName(xmlObj, "*"), TagIs("EGEE_USER"))
    ensures r == 0 <==> FindFirst(xmlObj, "EGEE_USER").None?
  {
    TaggedAmongAll(xmlObj, "EGEE_USER");
    FirstOfElementsByTagName(xmlObj, "EGEE_USER");
    |ElementsByTagName(xmlObj, "EGEE_USER")|
  }

  /** A user element with at least one USER_ROLE element anywhere below it,
      nested ones included. */
  predicate HasRole(user: Node) {
    ElementsByTagName(user, "USER_ROLE") != []
  }

  /** The number of users that have a role, each counted once. */
  function UsersWithRole(xmlObj: Node): nat {
    Tally(ElementsByTagName(xmlObj, "EGEE_USER"), HasRole)
  }

  /** `_parse_get_user_xml_roles(xml_obj)`: one increment per user whose list
      of USER_ROLE descendants is not empty. */
  method ParseGetUserXmlRoles(xmlObj: Node) returns (usersWithRoleNumber: nat)
    ensures usersWithRoleNumber == UsersWithRole(xmlObj)
    ensures usersWithRoleNumber <= ParseGetUserXml(xmlObj)
  {
    usersWithRoleNumber := 0;
    var usersWithRole := ElementsByTagName(xmlObj, "EGEE_USER");
    var i := 0;
    while i < |usersWithRole|
      invariant 0 <= i <= |usersWithRole|
      invariant usersWithRoleNumber == Tally(usersWithRole[..i], HasRole)
    {
      var user := usersWithRole[i];
      assert usersWithRole[..i + 1] == usersWithRole[..i] + [user];
      TallySnoc(usersWithRole[..i], user, HasRole);
      if ElementsByTagName(user, "USER_ROLE") != [] {
        usersWithRoleNumber := usersWithRoleNumber + 1;
      }
      i := i + 1;
    }
    assert usersWithRole[..i] == usersWithRole;
    TallyBounds(usersWithRole, HasRole);
  }

  /** A user has a role exactly when a depth-first search below it finds a
      USER_ROLE element; however many it has, it adds one to the count. */
  lemma HasRoleMeaning(users: seq<Node>, user: Node)
    ensures HasRole(user) <==> FindFirst(user, "USER_ROLE").Some?
    ensures Tally(users + [user], HasRole) == Tally(users, HasRole) + (if HasRole(user) then 1 else 0)
  {
    FirstOfElementsByTagName(user, "USER_ROLE");
    TallySnoc(users, user, HasRole);
  }

  /** At most every user has a role, and the two counts agree exactly when
      every user has one. */
  lemma UsersWithRoleBounds(xmlObj: Node)
    ensures UsersWithRole(xmlObj) <= ParseGetUserXml(xmlObj)
    ensures UsersWithRole(xmlObj) == ParseGetUserXml(xmlObj) <==>
              forall user :: user in ElementsByTagName(xmlObj, "EGEE_USER") ==> HasRole(user)
  {
    var users := ElementsByTagName(xmlObj, "EGEE_USER");
    TallyBounds(users, HasRole);
    assert (forall user :: user in users ==> HasRole(user)) <==>
           (forall i :: 0 <= i < |users| ==> HasRole(users[i]));
  }

  // ---------------------------------------------------------------------
  // Sites and countries.

  /** `get_sites(xml_obj)`: the number of SITE elements, which is 0 exactly
      when a search finds none. */
  function GetSites(xmlObj: Node): (r: nat)
    ensures r == Tally(ElementsByTagName(xmlObj, "*"), TagIs("SITE"))
    ensures r == 0 <==> FindFirst(xmlObj, "SITE").None?
  {
    TaggedAmongAll(xmlObj, "SITE");
    FirstOfElementsByTagName(xmlObj, "SITE");
    |ElementsByTagName(xmlObj, "SITE")|
  }

  /** The COUNTRY of a site, looked up with the URL "blank". */
  function CountryOf(site: Node): Outcome<Option<string>> {
    GetData("COUNTRY", site, Some("blank")).DataFinder()
  }

  /** The text of the first COUNT element of a site. Its absence raises
      `IndexError`, whose handler refers to `logger`, a name the module does
      not bind: the handler raises `NameError`. */
  function CountOf(site: Node): (r: Outcome<Option<string>>)
    ensures r == Raised(NameError) <==> FindFirst(site, "COUNT").None?
    ensures r == Raised(AttributeError) <==>
              FindFirst(site, "COUNT").Some? && ChildNodes(FindFirst(site, "COUNT").value) == []
    ensures r.Ok? <==>
              FindFirst(site, "COUNT").Some? && ChildNodes(FindFirst(site, "COUNT").value) != []
    ensures r.Ok? ==> r.value == NodeValue(ChildNodes(FindFirst(site, "COUNT").value)[0])
  {
    match FirstTagValue(site, "COUNT")
    case Raised(IndexError) => Raised(NameError)
    case other => other
  }

  /** `int(count) != 0`: `int(None)` raises `TypeError`, a text that is no
      integer raises `ValueError`. */
  function NonZero(count: Option<string>): (r: Outcome<bool>)
    ensures count.None? ==> r == Raised(TypeError)
    ensures count.Some? ==> (r.Raised? <==> ParseInt(count.value).Raised?)
    ensures count.Some? && r.Raised? ==> r == Raised(ValueError)
    ensures r.Ok? ==> (r.value <==> ParseInt(count.value) != Ok(0))
  {
    match count
    case None => Raised(TypeError)
    case Some(text) =>
      match ParseInt(text)
      case Ok(n) => Ok(n != 0)
      case Raised(e) => Raised(e)
  }

  /** Every integer's decimal text passes the filter exactly when the integer
      is not 0: negative counts pass. */
  lemma NonZeroOfShowInt(n: int)
    ensures NonZero(Some(ShowInt(n))) == Ok(n != 0)
  {
    ParseIntOfShowInt(n);
  }

  /** The COUNT lookup of a site together with the test `int(count) != 0`
      on its result; the test is only evaluated, and only raises, when the
      loop gets to it. */
  function CountTest(site: Node): Outcome<Outcome<bool>> {
    var count :- CountOf(site);
    Ok(NonZero(count))
  }

  /** One iteration of the loop of `get_countries`, given the list built so
      far, the COUNTRY lookup of the site and its count test: the test is
      evaluated only when the country is not in the list yet. */
  function CountryStep(countryList: seq<Option<string>>, country: Outcome<Option<string>>,
                       test: Outcome<Outcome<bool>>): Outcome<seq<Option<string>>>
  {
    var c :- country;
    var deferred :- test;
    if c in countryList then Ok(countryList)
    else
      var nonZero :- deferred;
      Ok(if nonZero then countryList + [c] else countryList)
  }

  /** The cases of one iteration: a country already in the list keeps the
      list whatever its count says, even one that is not a number; a new
      country with a count that is not an integer raises `ValueError`; a
      site without COUNT raises `NameError`; a new country with a non-zero
      count, negative ones included, is appended, and one with count 0 is
      not. */
  lemma CountryStepCases(countryList: seq<Option<string>>, c: Option<string>, text: string)
    ensures c in countryList ==> CountryStep(countryList, Ok(c), Ok(NonZero(Some(text)))) == Ok(countryList)
    ensures c !in countryList && ParseInt(text).Raised? ==>
              CountryStep(countryList, Ok(c), Ok(NonZero(Some(text)))) == Raised(ValueError)
    ensures CountryStep(countryList, Ok(c), Raised(NameError)) == Raised(NameError)
    ensures c !in countryList && ParseInt(text).Ok? ==>
              CountryStep(countryList, Ok(c), Ok(NonZero(Some(text)))) ==
                Ok(if ParseInt(text).value != 0 then countryList + [c] else countryList)
    ensures c !in countryList ==> CountryStep(countryList, Ok(c), Ok(NonZero(None))) == Raised(TypeError)
  {
    assert ParseInt(text).Raised? ==> ParseInt(text).error == ValueError;
  }

  /** The loop of `get_countries` over `sites`, with `country` the COUNTRY
      lookup and `test` the count test it makes on each site. */
  function CountryLoop<R>(sites: seq<R>, country: R -> Outcome<Option<string>>,
                          test: R -> Outcome<Outcome<bool>>): Outcome<seq<Option<string>>>
    decreases |sites|
  {
    if sites == [] then Ok([])
    else
      var countryList :- CountryLoop(sites[..|sites| - 1], country, test);
      var site := sites[|sites| - 1];
      CountryStep(countryList, country(site), test(site))
  }

  /** `get_countries(xml_obj)`: the number and the list of the countries. */
  function Countries(xmlObj: Node): Outcome<(nat, seq<Option<string>>)> {
    var countryList :- CountryLoop(ElementsByTagName(xmlObj, "SITE"), CountryOf, CountTest);
    Ok((|countryList|, countryList))
  }

  /** A site whose country looks up and whose count test passes. */
  predicate Counted<R>(site: R, country: R -> Outcome<Option<string>>, test: R -> Outcome<Outcome<bool>>) {
    country(site).Ok? && test(site) == Ok(Ok(true))
  }

  /** A counted site whose country is `c`. */
  predicate CountedAs<R>(site: R, country: R -> Outcome<Option<string>>, test: R -> Outcome<Outcome<bool>>,
                         c: Option<string>) {
    Counted(site, country, test) && country(site) == Ok(c)
  }

  /** On a GOCDB site, passing the count test means that the first COUNT
      element holds the text of a non-zero integer. */
  lemma CountedSite(site: Node)
    ensures Counted(site, CountryOf, CountTest) <==>
              && CountryOf(site).Ok?
              && CountOf(site).Ok? && CountOf(site).value.Some?
              && ParseInt(CountOf(site).value.value).Ok?
              && ParseInt(CountOf(site).value.value).value != 0
  {
  }

  /** The countries of the counted sites, in site order, repeats included. */
  function CountedCountries<R>(sites: seq<R>, country: R -> Outcome<Option<string>>,
                               test: R -> Outcome<Outcome<bool>>): seq<Option<string>>
    decreases |sites|
  {
    if sites == [] then []
    else
      var site := sites[|sites| - 1];
      CountedCountries(sites[..|sites| - 1], country, test) +
        (if Counted(site, country, test) then [country(site).value] else [])
  }

  /** When the loop returns, its list is the counted countries without
      repeats, in the order in which they are first counted. */
  lemma {:induction false} CountryLoopIsDedup<R>(sites: seq<R>, country: R -> Outcome<Option<string>>,
                                                 test: R -> Outcome<Outcome<bool>>)
    ensures CountryLoop(sites, country, test).Ok? ==>
              CountryLoop(sites, country, test).value == Dedup(CountedCountries(sites, country, test))
    decreases |sites|
  {
    if sites != [] {
      var init := sites[..|sites| - 1];
      var site := sites[|sites| - 1];
      CountryLoopIsDedup(init, country, test);
      if CountryLoop(init, country, test).Ok? && CountryLoop(sites, country, test).Ok? {
        var l := CountryLoop(init, country, test).value;
        var vs := CountedCountries(init, country, test);
        var c := country(site).value;
        assert CountryLoop(sites, country, test) == CountryStep(l, country(site), test(site));
        if Counted(site, country, test) {
          assert CountedCountries(sites, country, test) == vs + [c];
          assert (vs + [c])[..|vs|] == vs;
          assert Dedup(vs + [c]) == if c in l then l else l + [c];
        } else {
          assert CountedCountries(sites, country, test) == vs;
        }
      }
    }
  }

  /** The counted countries are those of the counted sites. */
  lemma {:induction false} CountedCountriesMembers<R>(sites: seq<R>, country: R -> Outcome<Option<string>>,
                                                      test: R -> Outcome<Outcome<bool>>)
    ensures forall c :: c in CountedCountries(sites, country, test) <==>
              exists i :: 0 <= i < |sites| && CountedAs(sites[i], country, test, c)
    decreases |sites|
  {
    if sites != [] {
      var init := sites[..|sites| - 1];
      CountedCountriesMembers(init, country, test);
      forall c ensures c in CountedCountries(sites, country, test) <==>
                       exists i :: 0 <= i < |sites| && CountedAs(sites[i], country, test, c)
      {
        if c in CountedCountries(init, country, test) {
          var i :| 0 <= i < |init| && CountedAs(init[i], country, test, c);
          assert sites[i] == init[i];
        }
        if exists i :: 0 <= i < |sites| && CountedAs(sites[i], country, test, c) {
          var i :| 0 <= i < |sites| && CountedAs(sites[i], country, test, c);
          if i < |init| {
            assert init[i] == sites[i];
          }
        }
      }
    }
  }

  /** The list the loop returns has no duplicates, holds exactly the
      countries of the counted sites, in order of first occurrence among
      them. */
  lemma CountryLoopSpec<R>(sites: seq<R>, country: R -> Outcome<Option<string>>,
                           test: R -> Outcome<Outcome<bool>>)
    ensures CountryLoop(sites, country, test).Ok? ==>
              var counted := CountedCountries(sites, country, test);
              var l := CountryLoop(sites, country, test).value;
              && NoDups(l)
              && (forall c :: c in l <==>
                    exists i :: 0 <= i < |sites| && CountedAs(sites[i], country, test, c))
              && (forall c :: c in l <==> c in counted)
              && (forall i, j :: 0 <= i < j < |l| ==> FirstIndex(counted, l[i]) < FirstIndex(counted, l[j]))
  {
    CountryLoopIsDedup(sites, country, test);
    DedupOrder(CountedCountries(sites, country, test));
    CountedCountriesMembers(sites, country, test);
  }

  /** The list `get_countries` returns has no duplicates, holds exactly the
      counted countries (by `CountedCountriesMembers`, the countries of the
      sites whose first COUNT is a non-zero integer), in order of first
      occurrence among them, and its length is the number returned. */
  lemma CountriesSpec(xmlObj: Node)
    ensures Countries(xmlObj).Ok? ==>
              var sites := ElementsByTagName(xmlObj, "SITE");
              var counted := CountedCountries(sites, CountryOf, CountTest);
              var r := Countries(xmlObj).value;
              && r.0 == |r.1|
              && NoDups(r.1)
              && (forall c :: c in r.1 <==> c in counted)
              && (forall i, j :: 0 <= i < j < |r.1| ==> FirstIndex(counted, r.1[i]) < FirstIndex(counted, r.1[j]))
  {
    var sites := ElementsByTagName(xmlObj, "SITE");
    CountryLoopSpec(sites, CountryOf, CountTest);
    if Countries(xmlObj).Ok? {
      var l := CountryLoop(sites, CountryOf, CountTest).value;
      assert Countries(xmlObj).value == (|l|, l);
    }
  }

  /** One more site after a prefix the loop went through. */
  lemma CountryLoopStep<R>(sites: seq<R>, country: R -> Outcome<Option<string>>,
                           test: R -> Outcome<Outcome<bool>>, i: nat, countryList: seq<Option<string>>)
    requires i < |sites|
    requires CountryLoop(sites[..i], country, test) == Ok(countryList)
    ensures CountryLoop(sites[..i + 1], country, test) == CountryStep(countryList, country(sites[i]), test(sites[i]))
  {
    assert sites[..i + 1][..i] == sites[..i];
  }

  /** Once the loop has raised, the remaining sites change nothing. */
  lemma {:induction false} CountryLoopRaised<R>(sites: seq<R>, country: R -> Outcome<Option<string>>,
                                                test: R -> Outcome<Outcome<bool>>, k: nat)
    requires k <= |sites|
    requires CountryLoop(sites[..k], country, test).Raised?
    ensures CountryLoop(sites, country, test) == CountryLoop(sites[..k], country, test)
    decreases |sites|
  {
    if k < |sites| {
      var init := sites[..|sites| - 1];
      assert init[..k] == sites[..k];
      CountryLoopRaised(init, country, test, k);
    } else {
      assert sites[..k] == sites;
    }
  }

  /** A loop that has gone through every site, or has raised, is done. */
  lemma CountryLoopDone<R>(sites: seq<R>, country: R -> Outcome<Option<string>>,
                           test: R -> Outcome<Outcome<bool>>, k: nat)
    requires k <= |sites|
    requires k == |sites| || CountryLoop(sites[..k], country, test).Raised?
    ensures CountryLoop(sites, country, test) == CountryLoop(sites[..k], country, test)
  {
    if k == |sites| {
      assert sites[..k] == sites;
    } else {
      CountryLoopRaised(sites, country, test, k);
    }
  }

  /** The body of the loop of `get_countries` on one site: look up its
      COUNTRY, then its COUNT, and append a new country whose count is not 0. */
  method VisitSite(countryList: seq<Option<string>>, site: Node) returns (r: Outcome<seq<Option<string>>>)
    ensures r == CountryStep(countryList, CountryOf(site), CountTest(site))
  {
    var gocdbPortalUrl := Some("blank");
    var country := GetData("COUNTRY", site, gocdbPortalUrl).DataFinder();
    if country.Raised? {
      return Raised(country.error);
    }
    var count := FirstTagValue(site, "COUNT");
    if count.Raised? {
      if count.error == IndexError {
        return Raised(NameError);
      }
      return Raised(count.error);
    }
    if country.value in countryList {
      return Ok(countryList);
    }
    var nonZero := NonZero(count.value);
    if nonZero.Raised? {
      return Raised(nonZero.error);
    }
    if nonZero.value {
      return Ok(countryList + [country.value]);
    }
    return Ok(countryList);
  }

  /** The loop of `get_countries` over the SITE elements: append each new
      country whose count is not 0, until a lookup raises. */
  method VisitSites(siteObject: seq<Node>) returns (r: Outcome<seq<Option<string>>>)
    ensures r == CountryLoop(siteObject, CountryOf, CountTest)
  {
    var countryList: Outcome<seq<Option<string>>> := Ok([]);
    var i := 0;
    while i < |siteObject| && countryList.Ok?
      invariant 0 <= i <= |siteObject|
      invariant CountryLoop(siteObject[..i], CountryOf, CountTest) == countryList
    {
      CountryLoopStep(siteObject, CountryOf, CountTest, i, countryList.value);
      countryList := VisitSite(countryList.value, siteObject[i]);
      i := i + 1;
    }
    CountryLoopDone(siteObject, CountryOf, CountTest, i);
    return countryList;
  }

  /** `get_countries(xml_obj)` as written: the loop over the SITE elements,
      then the number and the list of the countries. */
  method GetCountries(xmlObj: Node) returns (r: Outcome<(nat, seq<Option<string>>)>)
    ensures r == Countries(xmlObj)
  {
    var siteObject := ElementsByTagName(xmlObj, "SITE");
    var countryList := VisitSites(siteObject);
    match countryList
    case Raised(e) => return Raised(e);
    case Ok(l) => return Ok((|l|, l));
  }

  // ---------------------------------------------------------------------
  // Distinct client addresses.

  /** The bucket keys of the days `1..days`, where `keys(d)` are the bucket
      keys of the answer for the day `d` days before today. */
  function KeysOverDays(keys: nat -> seq<string>, days: nat): set<string> {
    set d: nat, ip | 1 <= d <= days && ip in keys(d) :: ip
  }

  /** Taking one more day adds exactly that day's keys. */
  lemma KeysOverOneMoreDay(keys: nat -> seq<string>, days: nat)
    ensures KeysOverDays(keys, days + 1) == KeysOverDays(keys, days) + Elems(keys(days + 1))
  {
    var more := KeysOverDays(keys, days + 1);
    forall ip ensures ip in more <==> ip in KeysOverDays(keys, days) + Elems(keys(days + 1)) {
      if ip in keys(days + 1) {
        assert 1 <= days + 1 <= days + 1;
      }
    }
  }

  /** The number of buckets of the days 1 to `days`, repeats included. */
  function BucketTotal(keys: nat -> seq<string>, days: nat): nat {
    if days == 0 then 0 else BucketTotal(keys, days - 1) + |keys(days)|
  }

  /** The union over 28 days has at least as many addresses as any one day,
      and at most as many as all the days' buckets together. */
  lemma KeysOverDaysBounds(keys: nat -> seq<string>, days: nat, d: nat)
    requires 1 <= d <= days
    ensures Elems(keys(d)) <= KeysOverDays(keys, days)
    ensures |Elems(keys(d))| <= |KeysOverDays(keys, days)| <= BucketTotal(keys, days)
  {
    assert Elems(keys(d)) <= KeysOverDays(keys, days);
    SubsetCard(Elems(keys(d)), KeysOverDays(keys, days));
    KeysOverDaysAtMost(keys, days);
  }

  /** The union has at most as many addresses as the buckets of its days. */
  lemma {:induction false} KeysOverDaysAtMost(keys: nat -> seq<string>, days: nat)
    ensures |KeysOverDays(keys, days)| <= BucketTotal(keys, days)
  {
    if days == 0 {
      assert KeysOverDays(keys, 0) == {};
    } else {
      KeysOverOneMoreDay(keys, days - 1);
      KeysOverDaysAtMost(keys, days - 1);
      ElemsCard(keys(days));
      UnionCard(KeysOverDays(keys, days - 1), Elems(keys(days)));
    }
  }

  lemma UnionCard<T>(a: set<T>, b: set<T>)
    ensures |a + b| <= |a| + |b|
  {
    assert a + b == a + (b - a);
    assert b == (b - a) + (b * a);
  }

  lemma SubsetCard<T>(a: set<T>, b: set<T>)
    requires a <= b
    ensures |a| <= |b|
  {
    assert b == a + (b - a);
  }

  /** `get_unique_ips_over_28_days()`: the size of the set of bucket keys of
      the 28 daily answers, with `keys` standing for the store's answers. */
  method GetUniqueIpsOver28Days(keys: nat -> seq<string>) returns (n: nat)
    ensures n == |KeysOverDays(keys, 28)|
  {
    var uniqueIps: set<string> := {};
    var i := 1;
    while i < 29
      invariant 1 <= i <= 29
      invariant uniqueIps == KeysOverDays(keys, i - 1)
    {
      uniqueIps := AddBucketKeys(uniqueIps, keys(i));
      KeysOverOneMoreDay(keys, i - 1);
      i := i + 1;
    }
    return |uniqueIps|;
  }

  /** The inner loop: `unique_ips.add(bucket["key"])` for each bucket of one
      day's answer. */
  method AddBucketKeys(uniqueIps: set<string>, buckets: seq<string>) returns (u: set<string>)
    ensures u == uniqueIps + Elems(buckets)
  {
    u := uniqueIps;
    var j := 0;
    while j < |buckets|
      invariant 0 <= j <= |buckets|
      invariant u == uniqueIps + Elems(buckets[..j])
    {
      assert Elems(buckets[..j + 1]) == Elems(buckets[..j]) + {buckets[j]} by {
        assert buckets[..j + 1] == buckets[..j] + [buckets[j]];
      }
      u := u + {buckets[j]};
      j := j + 1;
    }
    assert buckets[..j] == buckets;
  }

  // ---------------------------------------------------------------------
  // The assembly in `__main__`.

  const SiteListUrl := "https://goc.egi.eu/gocdbpi/public/?method=get_site_list"
  const CountryCountUrl := "https://goc.egi.eu/gocdbpi/public/?method=get_site_count_per_country"
  const UserUrl := "https://goc.egi.eu/gocdbpi/private/?method=get_user"

  const SitesKey := "Number of sites in GOCDB"
  const CountriesNumberKey := "Number of countries using GOCDB"
  const CountriesListKey := "List of countries using GOCDB"
  const UsersKey := "Number of registerd GOCDB users"
  const RolesKey := "Number of registerd GOCDB users with a role"
  const QueriesKey := "Number of GOCDB API queries"
  const IpsKey := "Number of unique IPs accessing GOCDB"

  /** The `verify=` argument: `False` for the option "False", otherwise the
      option itself, a path to CA certificates. */
  function GocdbVerify(option: string): (v: Verify)
    ensures v == Flag(false) <==> option == "False"
    ensures v != Flag(false) ==> v == CaPath(option)
  {
    if option == "False" then Flag(false) else CaPath(option)
  }

  /** The `try` block of `__main__`: three fetches, each followed by the
      keys computed from its answer. A refused fetch ends the block with the
      keys written so far; an exception of `get_countries` escapes. */
  function GocdbGather(verify: Verify, fetch: (string, Verify) -> Fetch): Outcome<map<string, Value>> {
    match fetch(SiteListUrl, verify)
    case Refused => Ok(map[])
    case Received(siteDoc) =>
      var m1 := map[SitesKey := IntVal(GetSites(siteDoc))];
      match fetch(CountryCountUrl, verify)
      case Refused => Ok(m1)
      case Received(countryDoc) =>
        match Countries(countryDoc)
        case Raised(e) => Raised(e)
        case Ok(countries) =>
          var m2 := m1[CountriesNumberKey := IntVal(countries.0)][CountriesListKey := ListVal(countries.1)];
          match fetch(UserUrl, verify)
          case Refused => Ok(m2)
          case Received(userDoc) =>
            Ok(m2[UsersKey := IntVal(ParseGetUserXml(userDoc))][RolesKey := IntVal(UsersWithRole(userDoc))])
  }

  /** `__main__(options)` with `options.write == write` and `options.verify ==
      verifyOpt`; `probe` is what `es_check` sees, `fetch` answers the
      registry requests, `queries` is what `get_queries` returns and `keys`
      the daily bucket keys. */
  function GocdbMain(write: string, verifyOpt: string, probe: Probe, fetch: (string, Verify) -> Fetch,
                     queries: int, keys: nat -> seq<string>): Outcome<Report>
  {
    var esUp :- EsCheck(probe);
    var gathered :- GocdbGather(GocdbVerify(verifyOpt), fetch);
    var metrics :=
      if esUp then gathered[QueriesKey := IntVal(queries)][IpsKey := IntVal(|KeysOverDays(keys, 28)|)]
      else gathered;
    Ok(Report(metrics, write == "True"))
  }

  /** `__main__(options)` as written: the dictionary filled step by step. */
  method RunGocdb(write: string, verifyOpt: string, probe: Probe, fetch: (string, Verify) -> Fetch,
                  queries: int, keys: nat -> seq<string>) returns (r: Outcome<Report>)
    ensures r == GocdbMain(write, verifyOpt, probe, fetch, queries, keys)
  {
    var verifyServerCert := GocdbVerify(verifyOpt);
    var esUp :- EsCheck(probe);
    var gocdbMetricsDict: map<string, Value> := map[];
    var response := fetch(SiteListUrl, verifyServerCert);
    if response.Received? {
      gocdbMetricsDict := gocdbMetricsDict[SitesKey := IntVal(GetSites(response.doc))];
      response := fetch(CountryCountUrl, verifyServerCert);
      if response.Received? {
        var countries := GetCountries(response.doc);
        if countries.Raised? {
          return Raised(countries.error);
        }
        var countryNumber, countryList := countries.value.0, countries.value.1;
        gocdbMetricsDict := gocdbMetricsDict[CountriesNumberKey := IntVal(countryNumber)];
        gocdbMetricsDict := gocdbMetricsDict[CountriesListKey := ListVal(countryList)];
        response := fetch(UserUrl, verifyServerCert);
        if response.Received? {
          var userNumber := ParseGetUserXml(response.doc);
          gocdbMetricsDict := gocdbMetricsDict[UsersKey := IntVal(userNumber)];
          var usersWithRoleNumber := ParseGetUserXmlRoles(response.doc);
          gocdbMetricsDict := gocdbMetricsDict[RolesKey := IntVal(usersWithRoleNumber)];
        }
      }
    }
    if esUp {
      gocdbMetricsDict := gocdbMetricsDict[QueriesKey := IntVal(queries)];
      var uniqueIps := GetUniqueIpsOver28Days(keys);
      gocdbMetricsDict := gocdbMetricsDict[IpsKey := IntVal(uniqueIps)];
    }
    return Ok(Report(gocdbMetricsDict, write == "True"));
  }

  // ---------------------------------------------------------------------
  // Properties of the assembly.

  /** The `try` block, when it ends normally, holds the registry keys of
      exactly the fetches that were answered before the first refused one,
      with the values computed from the answers, never more users with a
      role than users, and no other key. */
  lemma GocdbGatherKeys(v: Verify, fetch: (string, Verify) -> Fetch)
    requires GocdbGather(v, fetch).Ok?
    ensures var m := GocdbGather(v, fetch).value;
            && (SitesKey in m <==> fetch(SiteListUrl, v).Received?)
            && (SitesKey in m ==> m[SitesKey] == IntVal(GetSites(fetch(SiteListUrl, v).doc)))
            && (CountriesNumberKey in m <==> SitesKey in m && fetch(CountryCountUrl, v).Received?)
            && (CountriesListKey in m <==> CountriesNumberKey in m)
            && (CountriesNumberKey in m ==>
                  var c := Countries(fetch(CountryCountUrl, v).doc);
                  c.Ok? && m[CountriesNumberKey] == IntVal(c.value.0) && m[CountriesListKey] == ListVal(c.value.1))
            && (UsersKey in m <==> CountriesNumberKey in m && fetch(UserUrl, v).Received?)
            && (RolesKey in m <==> UsersKey in m)
            && (UsersKey in m ==>
                  && m[UsersKey] == IntVal(ParseGetUserXml(fetch(UserUrl, v).doc))
                  && m[RolesKey] == IntVal(UsersWithRole(fetch(UserUrl, v).doc))
                  && m[RolesKey].n <= m[UsersKey].n)
            && (forall key :: key in m ==>
                  key in {SitesKey, CountriesNumberKey, CountriesListKey, UsersKey, RolesKey})
  {
    match fetch(SiteListUrl, v)
    case Refused =>
    case Received(_) =>
      match fetch(CountryCountUrl, v)
      case Refused =>
      case Received(_) =>
        match fetch(UserUrl, v)
        case Refused =>
        case Received(userDoc) => UsersWithRoleBounds(userDoc);
  }

  /** A run that ends normally holds the registry keys of the `try` block,
      unchanged; the store keys exactly when the store answered 200; and it
      is published exactly when `write` is "True". */
  lemma GocdbReport(write: string, verifyOpt: string, probe: Probe, fetch: (string, Verify) -> Fetch,
                    queries: int, keys: nat -> seq<string>)
    requires GocdbMain(write, verifyOpt, probe, fetch, queries, keys).Ok?
    ensures probe.Responded?
    ensures GocdbGather(GocdbVerify(verifyOpt), fetch).Ok?
    ensures var report := GocdbMain(write, verifyOpt, probe, fetch, queries, keys).value;
            var m := report.metrics;
            var gathered := GocdbGather(GocdbVerify(verifyOpt), fetch).value;
            && (forall key :: key in gathered ==> key in m && m[key] == gathered[key])
            && (QueriesKey in m <==> probe.status == 200)
            && (IpsKey in m <==> probe.status == 200)
            && (probe.status == 200 ==>
                  m[QueriesKey] == IntVal(queries) && m[IpsKey] == IntVal(|KeysOverDays(keys, 28)|))
            && (forall key :: key in m ==>
                  key in gathered || key == QueriesKey || key == IpsKey)
            && (report.published <==> write == "True")
  {
    var v := GocdbVerify(verifyOpt);
    GocdbGatherKeys(v, fetch);
    StoreKeysFresh();
  }

  /** The two store keys are none of the registry keys. */
  lemma StoreKeysFresh()
    ensures QueriesKey !in {SitesKey, CountriesNumberKey, CountriesListKey, UsersKey, RolesKey, IpsKey}
    ensures IpsKey !in {SitesKey, CountriesNumberKey, CountriesListKey, UsersKey, RolesKey}
  {
    assert QueriesKey[10] == 'G' && IpsKey[10] == 'u';
    assert SitesKey[10] == 's' && CountriesNumberKey[10] == 'c' && CountriesListKey[0] == 'L';
    assert UsersKey[10] == 'r' && RolesKey[10] == 'r';
  }

  /** A run raises exactly when the store cannot be reached, or the country
      answer arrives and `get_countries` raises on it. */
  lemma GocdbCrashes(write: string, verifyOpt: string, probe: Probe, fetch: (string, Verify) -> Fetch,
                     queries: int, keys: nat -> seq<string>)
    ensures var v := GocdbVerify(verifyOpt);
            GocdbMain(write, verifyOpt, probe, fetch, queries, keys).Raised? <==>
              || probe.Unreachable?
              || (&& fetch(SiteListUrl, v).Received?
                  && fetch(CountryCountUrl, v).Received?
                  && Countries(fetch(CountryCountUrl, v).doc).Raised?)
  {
  }

  /** Whether and with what registry keys a run ends does not depend on the
      store's status code once it answers, and neither does publishing. */
  lemma GocdbPublishingIgnoresStore(write: string, verifyOpt: string, status1: int, status2: int,
                                    fetch: (string, Verify) -> Fetch, queries: int, keys: nat -> seq<string>)
    ensures var run1 := GocdbMain(write, verifyOpt, Responded(status1), fetch, queries, keys);
            var run2 := GocdbMain(write, verifyOpt, Responded(status2), fetch, queries, keys);
            && run1.Ok? == run2.Ok?
            && (run1.Ok? ==>
                  && run1.value.published == run2.value.published == (write == "True")
                  && forall key :: key in run1.value.metrics && key != QueriesKey && key != IpsKey ==>
                       key in run2.value.metrics && run2.value.metrics[key] == run1.value.metrics[key])
  {
  }
}
