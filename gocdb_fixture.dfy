/** The answers of the GOCDB collector's unit tests
    (test/test_metrics_gocdb.py) as parsed trees, and what the user, site and
    country counts return on them. The XML declaration, the white-space text
    between elements and the attributes are not part of the trees. */
module GocdbFixture {
  import opened Python
  import opened Dom
  import opened MetricsGocdb

  // ---------------------------------------------------------------------
  // Answers made of two, three or four records.

  lemma TwoRecordAnswer(t: string, a: Node, b: Node, name: string)
    requires t != name && name != "*"
    requires Matches(a, name) && ElementsByTagName(a, name) == []
    requires Matches(b, name) && ElementsByTagName(b, name) == []
    ensures ElementsByTagName(Document([Element(t, [a, b])]), name) == [a, b]
  {
    FlatAnswer(t, [a, b], name);
  }

  lemma ThreeRecordAnswer(t: string, a: Node, b: Node, c: Node, name: string)
    requires t != name && name != "*"
    requires Matches(a, name) && ElementsByTagName(a, name) == []
    requires Matches(b, name) && ElementsByTagName(b, name) == []
    requires Matches(c, name) && ElementsByTagName(c, name) == []
    ensures ElementsByTagName(Document([Element(t, [a, b, c])]), name) == [a, b, c]
  {
    FlatAnswer(t, [a, b, c], name);
  }

  lemma FourRecordAnswer(t: string, a: Node, b: Node, c: Node, d: Node, name: string)
    requires t != name && name != "*"
    requires Matches(a, name) && ElementsByTagName(a, name) == []
    requires Matches(b, name) && ElementsByTagName(b, name) == []
    requires Matches(c, name) && ElementsByTagName(c, name) == []
    requires Matches(d, name) && ElementsByTagName(d, name) == []
    ensures ElementsByTagName(Document([Element(t, [a, b, c, d])]), name) == [a, b, c, d]
  {
    FlatAnswer(t, [a, b, c, d], name);
  }

  // ---------------------------------------------------------------------
  // Users: two EGEE_USER records, the first with a (nested) USER_ROLE.

  function RoleFields(): seq<Node> {
    [ TextElement("USER_ROLE", "Site Operations Manager"),
      TextElement("ON_ENTITY", "RAL"),
      TextElement("ENTITY_TYPE", "site"),
      TextElement("PRIMARY_KEY", "4") ]
  }

  function Projects(): Node {
    Element("RECOGNISED_IN_PROJECTS", [TextElement("PROJECT", "EGI")])
  }

  function Role(): Node {
    Element("USER_ROLE", RoleFields() + [Projects()])
  }

  function FirstUserFields(): seq<Node> {
    [ TextElement("FORENAME", "ALEX"),
      TextElement("SURNAME", "TSELOS"),
      TextElement("TITLE", "MR"),
      Element("DESCRIPTION", []),
      Element("GOCDB_PORTAL_URL", []),
      TextElement("EMAIL", "LeeGit@user.com"),
      TextElement("TEL", "4"),
      Element("WORKING_HOURS_START", []),
      Element("WORKING_HOURS_END", []),
      TextElement("CERTDN", "LeeGit DN"),
      TextElement("SSOUSERNAME", "lgit"),
      Element("APPROVED", []),
      Element("ACTIVE", []),
      TextElement("HOMESITE", "STFC RAL") ]
  }

  function FirstUser(): Node {
    Element("EGEE_USER", FirstUserFields() + [Role()])
  }

  function SecondUserFields(): seq<Node> {
    [ TextElement("FORENAME", "X"),
      TextElement("SURNAME", "Y"),
      Element("TITLE", []),
      Element("DESCRIPTION", []),
      Element("GOCDB_PORTAL_URL", []),
      TextElement("EMAIL", "LeeGit@user.com"),
      TextElement("TEL", "2"),
      Element("WORKING_HOURS_START", []),
      Element("WORKING_HOURS_END", []),
      TextElement("CERTDN", "LeeGit DB"),
      TextElement("SSOUSERNAME", "lgit"),
      Element("APPROVED", []),
      Element("ACTIVE", []),
      Element("HOMESITE", []) ]
  }

  function SecondUser(): Node {
    Element("EGEE_USER", SecondUserFields())
  }

  function UserAnswer(): Node {
    Document([Element("results", [FirstUser(), SecondUser()])])
  }

  lemma FirstUserFieldsLack(name: string)
    requires name == "EGEE_USER" || name == "USER_ROLE"
    ensures forall i :: 0 <= i < |FirstUserFields()| ==> Lacks(FirstUserFields()[i], name)
  {
    LeavesLack(FirstUserFields(), name);
  }

  lemma SecondUserLacks(name: string)
    requires name == "EGEE_USER" || name == "USER_ROLE"
    ensures ElementsByTagName(SecondUser(), name) == []
  {
    LeavesLack(SecondUserFields(), name);
    NoneWithTag(SecondUserFields(), name);
  }

  lemma RoleLacksUser()
    ensures Lacks(Role(), "EGEE_USER")
  {
    LeavesLack(RoleFields(), "EGEE_USER");
    LeafLacks(TextElement("PROJECT", "EGI"), "EGEE_USER");
    ChildrenLack(Projects(), "EGEE_USER");
    SnocLacks(RoleFields(), Projects(), "EGEE_USER");
    ChildrenLack(Role(), "EGEE_USER");
  }

  /** No EGEE_USER is nested in the first user. */
  lemma FirstUserHoldsNoUser()
    ensures ElementsByTagName(FirstUser(), "EGEE_USER") == []
  {
    FirstUserFieldsLack("EGEE_USER");
    RoleLacksUser();
    NoneWithTagSnoc(FirstUserFields(), Role(), "EGEE_USER");
  }

  lemma FirstUserHasRole()
    ensures HasRole(FirstUser())
  {
    var children := FirstUserFields() + [Role()];
    FirstUserFieldsLack("USER_ROLE");
    assert forall i :: 0 <= i < |FirstUserFields()| ==> children[i] == FirstUserFields()[i];
    FirstWithTag(children, "USER_ROLE", |FirstUserFields()|);
    FirstOfElementsByTagName(FirstUser(), "USER_ROLE");
  }

  lemma UsersOfAnswer()
    ensures ElementsByTagName(UserAnswer(), "EGEE_USER") == [FirstUser(), SecondUser()]
  {
    FirstUserHoldsNoUser();
    SecondUserLacks("EGEE_USER");
    TwoRecordAnswer("results", FirstUser(), SecondUser(), "EGEE_USER");
  }

  /** `_parse_get_user_xml` gives 2. */
  lemma FixtureUsers()
    ensures ParseGetUserXml(UserAnswer()) == 2
  {
    UsersOfAnswer();
  }

  /** Of two users, one with a role and one without, one is counted. */
  lemma OneOfTwo(doc: Node, a: Node, b: Node)
    requires ElementsByTagName(doc, "EGEE_USER") == [a, b]
    requires HasRole(a) && !HasRole(b)
    ensures UsersWithRole(doc) == 1
  {
    TallySnoc([], a, HasRole);
    TallySnoc([a], b, HasRole);
    assert [a] + [b] == [a, b];
  }

  /** `_parse_get_user_xml_roles` gives 1. */
  lemma FixtureRoles()
    ensures UsersWithRole(UserAnswer()) == 1
  {
    UsersOfAnswer();
    FirstUserHasRole();
    SecondUserLacks("USER_ROLE");
    OneOfTwo(UserAnswer(), FirstUser(), SecondUser());
  }

  // ---------------------------------------------------------------------
  // Sites: three SITE elements, their data held in attributes.

  function SiteAnswer(): Node {
    Document([Element("results", [Element("SITE", []), Element("SITE", []), Element("SITE", [])])])
  }

  /** `get_sites` gives 3. */
  lemma FixtureSites()
    ensures GetSites(SiteAnswer()) == 3
  {
    ThreeRecordAnswer("results", Element("SITE", []), Element("SITE", []), Element("SITE", []), "SITE");
  }

  // ---------------------------------------------------------------------
  // Countries: four SITE records with a COUNTRY and a COUNT, only Algeria
  // with a non-zero count.

  function Site(country: string, count: string): Node {
    Element("SITE", [TextElement("COUNTRY", country), TextElement("COUNT", count)])
  }

  function CountrySites(): seq<Node> {
    [Site("Afghanistan", "0"), Site("Albania", "0"), Site("Algeria", "2"), Site("American Samoa", "0")]
  }

  function CountryAnswer(): Node {
    Document([Element("results", CountrySites())])
  }

  /** Each site's COUNTRY and COUNT are its two children. */
  lemma SiteLookups(country: string, count: string)
    ensures CountryOf(Site(country, count)) == Ok(Some(country))
    ensures CountTest(Site(country, count)) == Ok(NonZero(Some(count)))
    ensures ElementsByTagName(Site(country, count), "SITE") == []
  {
    var children := Site(country, count).children;
    UpperOfUpperCase("COUNTRY");
    FirstWithTag(children, "COUNTRY", 0);
    LeafLacks(children[0], "COUNT");
    FirstWithTag(children, "COUNT", 1);
    LeavesLack(children, "SITE");
    NoneWithTag(children, "SITE");
  }

  lemma CountriesOfAnswer()
    ensures ElementsByTagName(CountryAnswer(), "SITE") == CountrySites()
  {
    SiteLookups("Afghanistan", "0");
    SiteLookups("Albania", "0");
    SiteLookups("Algeria", "2");
    SiteLookups("American Samoa", "0");
    FourRecordAnswer("results", Site("Afghanistan", "0"), Site("Albania", "0"),
                     Site("Algeria", "2"), Site("American Samoa", "0"), "SITE");
  }

  lemma CountTexts()
    ensures NonZero(Some("0")) == Ok(false)
    ensures NonZero(Some("2")) == Ok(true)
  {
    NonZeroOfShowInt(0);
    NonZeroOfShowInt(2);
    assert ShowInt(0) == "0";
    assert ShowInt(2) == "2";
  }

  /** The loop over four sites of which only the third has a non-zero
      count keeps the third site's country alone. */
  lemma OnlyThirdCounts<R>(a: R, b: R, c: R, d: R, country: R -> Outcome<Option<string>>,
                           test: R -> Outcome<Outcome<bool>>, name: Option<string>)
    requires country(a).Ok? && test(a) == Ok(Ok(false))
    requires country(b).Ok? && test(b) == Ok(Ok(false))
    requires country(c) == Ok(name) && test(c) == Ok(Ok(true))
    requires country(d).Ok? && test(d) == Ok(Ok(false))
    ensures CountryLoop([a, b, c, d], country, test) == Ok([name])
  {
    var s := [a, b, c, d];
    assert s[..0] == [];
    CountryLoopStep(s, country, test, 0, []);
    CountryLoopStep(s, country, test, 1, []);
    CountryLoopStep(s, country, test, 2, []);
    var none: seq<Option<string>> := [];
    assert none + [name] == [name];
    CountryLoopStep(s, country, test, 3, [name]);
    assert s[..4] == s;
  }

  /** `get_countries` gives `(1, ["Algeria"])`: the sites with count 0 are
      passed over. */
  lemma FixtureCountries()
    ensures Countries(CountryAnswer()) == Ok((1, [Some("Algeria")]))
  {
    CountriesOfAnswer();
    CountTexts();
    SiteLookups("Afghanistan", "0");
    SiteLookups("Albania", "0");
    SiteLookups("Algeria", "2");
    SiteLookups("American Samoa", "0");
    OnlyThirdCounts(Site("Afghanistan", "0"), Site("Albania", "0"), Site("Algeria", "2"),
                    Site("American Samoa", "0"), CountryOf, CountTest, Some("Algeria"));
  }
}
