/** The service-endpoint answer of the APEL collector's unit tests
    (test/test_metrics_apel.py) as a parsed tree, and what the three
    aggregations return on it. The white-space text between elements and the
    attributes are not part of the tree; the empty portal URL keeps its line
    break. */
module ApelFixture {
  import opened Python
  import opened Dom
  import opened Common
  import opened Lists
  import opened MetricsApel

  function Scopes(): Node {
    Element("SCOPES", [TextElement("SCOPE", "EGI")])
  }

  /** The children of the one SERVICE_ENDPOINT record. */
  function Fields(): seq<Node> {
    [ TextElement("PRIMARY_KEY", "368G0"),
      TextElement("HOSTNAME", "node05-02.imi.renam.md"),
      TextElement("GOCDB_PORTAL_URL", "\n"),
      TextElement("BETA", "N"),
      TextElement("SERVICE_TYPE", "APEL"),
      Element("CORE", []),
      TextElement("IN_PRODUCTION", "Y"),
      TextElement("NODE_MONITORED", "Y"),
      TextElement("NOTIFICATIONS", "N"),
      TextElement("SITENAME", "MD-02-IMI"),
      TextElement("COUNTRY_NAME", "CRETE"),
      TextElement("COUNTRY_CODE", "MD"),
      TextElement("ROC_NAME", "NGI_MD"),
      Element("URL", []),
      Element("ENDPOINTS", []),
      Scopes(),
      Element("EXTENSIONS", []),
      TextElement("HOSTDN", " ALEX TSELOS ") ]
  }

  function Record(): Node {
    Element("SERVICE_ENDPOINT", Fields())
  }

  function Answer(): Node {
    Document([Element("results", [Record()])])
  }

  lemma ScopesLack(tag: string)
    requires tag != "*" && tag != "SCOPES" && tag != "SCOPE"
    ensures Lacks(Scopes(), tag)
  {
    LeafLacks(TextElement("SCOPE", "EGI"), tag);
    ChildrenLack(Scopes(), tag);
  }

  /** Every child of the record other than SCOPES is a leaf. */
  lemma FieldsAreLeaves(i: nat)
    requires i < |Fields()| && i != 15
    ensures Fields()[i].Element?
    ensures forall j :: 0 <= j < |Fields()[i].children| ==> Fields()[i].children[j].Text?
  {
  }

  /** The field `tag` of the record is its `k`-th child. */
  lemma FieldAt(tag: string, k: nat, text: string)
    requires k < |Fields()| && Fields()[k] == TextElement(tag, text)
    requires tag != "*" && tag != "SCOPES" && tag != "SCOPE"
    requires forall i :: 0 <= i < k ==> Fields()[i].tag != tag
    ensures FindFirst(Record(), tag) == Some(TextElement(tag, text))
  {
    forall i | 0 <= i < k ensures Lacks(Fields()[i], tag) {
      if i == 15 {
        ScopesLack(tag);
      } else {
        FieldsAreLeaves(i);
        LeafLacks(Fields()[i], tag);
      }
    }
    FirstWithTag(Fields(), tag, k);
  }

  lemma FindPortalUrl()
    ensures FindFirst(Record(), "GOCDB_PORTAL_URL") == Some(TextElement("GOCDB_PORTAL_URL", "\n"))
  {
    FieldAt("GOCDB_PORTAL_URL", 2, "\n");
  }

  lemma FindServiceType()
    ensures FindFirst(Record(), "SERVICE_TYPE") == Some(TextElement("SERVICE_TYPE", "APEL"))
  {
    FieldAt("SERVICE_TYPE", 4, "APEL");
  }

  lemma FindSiteName()
    ensures FindFirst(Record(), "SITENAME") == Some(TextElement("SITENAME", "MD-02-IMI"))
  {
    FieldAt("SITENAME", 9, "MD-02-IMI");
  }

  lemma FindCountry()
    ensures FindFirst(Record(), "COUNTRY_NAME") == Some(TextElement("COUNTRY_NAME", "CRETE"))
  {
    FieldAt("COUNTRY_NAME", 10, "CRETE");
  }

  lemma FindHostDn()
    ensures FindFirst(Record(), "HOSTDN") == Some(TextElement("HOSTDN", " ALEX TSELOS "))
  {
    FieldAt("HOSTDN", 17, " ALEX TSELOS ");
  }

  lemma UpperSiteName() ensures Upper("SITENAME") == "SITENAME" { UpperOfUpperCase("SITENAME"); }
  lemma UpperCountry() ensures Upper("COUNTRY_NAME") == "COUNTRY_NAME" { UpperOfUpperCase("COUNTRY_NAME"); }
  lemma UpperServiceType() ensures Upper("SERVICE_TYPE") == "SERVICE_TYPE" { UpperOfUpperCase("SERVICE_TYPE"); }

  /** A field held as text by the first element with its (upper-case)
      name, in a record with a portal URL. */
  lemma FieldValue(rec: Node, field: string, url: string, text: string)
    requires PortalUrl(rec) == Ok(Some(url))
    requires Upper(field) == field
    requires FindFirst(rec, field) == Some(TextElement(field, text))
    ensures FieldOf(rec, field) == Ok(Some(text))
  {
  }

  lemma SiteNameField()
    ensures FieldOf(Record(), "SITENAME") == Ok(Some("MD-02-IMI"))
  {
    PortalUrlField();
    UpperSiteName();
    FindSiteName();
    FieldValue(Record(), "SITENAME", "\n", "MD-02-IMI");
  }

  lemma CountryField()
    ensures FieldOf(Record(), "COUNTRY_NAME") == Ok(Some("CRETE"))
  {
    PortalUrlField();
    UpperCountry();
    FindCountry();
    FieldValue(Record(), "COUNTRY_NAME", "\n", "CRETE");
  }

  /** The value of an element holding only a text is that text. */
  lemma TextValue(n: Node, tag: string, text: string)
    requires FindFirst(n, tag) == Some(TextElement(tag, text))
    ensures FirstTagValue(n, tag) == Ok(Some(text))
  {
  }

  lemma PortalUrlField() ensures PortalUrl(Record()) == Ok(Some("\n")) {
    FindPortalUrl();
    TextValue(Record(), "GOCDB_PORTAL_URL", "\n");
  }

  lemma ServiceTypeField()
    ensures GetData("SERVICE_TYPE", Record(), Some("\n")).DataFinder() == Ok(Some("APEL"))
  {
    UpperServiceType();
    FindServiceType();
  }

  lemma HostDnField() ensures FirstTagValue(Record(), "HOSTDN") == Ok(Some(" ALEX TSELOS ")) {
    FindHostDn();
    TextValue(Record(), "HOSTDN", " ALEX TSELOS ");
  }

  /** The record is an APEL service with a HOSTDN, so it is counted. */
  lemma RecordQualifies()
    ensures ServiceTest(Record(), "APEL") == Ok(true)
  {
    PortalUrlField();
    ServiceTypeField();
    HostDnField();
  }

  lemma RecordHoldsNoRecord()
    ensures ElementsByTagName(Record(), "SERVICE_ENDPOINT") == []
  {
    forall i | 0 <= i < |Fields()| ensures Lacks(Fields()[i], "SERVICE_ENDPOINT") {
      if i == 15 {
        ScopesLack("SERVICE_ENDPOINT");
      } else {
        FieldsAreLeaves(i);
        LeafLacks(Fields()[i], "SERVICE_ENDPOINT");
      }
    }
    NoneWithTag(Fields(), "SERVICE_ENDPOINT");
  }

  lemma OneRecordAnswer(t: string, a: Node, name: string)
    requires t != name && name != "*"
    requires Matches(a, name) && ElementsByTagName(a, name) == []
    ensures ElementsByTagName(Document([Element(t, [a])]), name) == [a]
  {
    FlatAnswer(t, [a], name);
  }

  /** `getElementsByTagName('SERVICE_ENDPOINT')` on the answer is the one
      record. */
  lemma AnswerRecords()
    ensures ElementsByTagName(Answer(), "SERVICE_ENDPOINT") == [Record()]
  {
    RecordHoldsNoRecord();
    OneRecordAnswer("results", Record(), "SERVICE_ENDPOINT");
  }

  /** A loop over one record whose lookup returns. */
  lemma ScanOne<R, T>(r: R, f: R -> Outcome<T>)
    requires f(r).Ok?
    ensures ScanAll([r], f) == Scan([f(r).value], None)
  {
    assert [r][..0] == [];
  }

  /** `get_sites` on one record whose SITENAME lookup returns `v`. */
  lemma SitesOfOne(rec: Node, v: Option<string>)
    requires FieldOf(rec, "SITENAME") == Ok(v)
    ensures Sites([rec]) == Ok((1, [v]))
  {
    ScanOne(rec, FieldLookup("SITENAME"));
    assert AppendNew([], [v][..0]) == [];
  }

  /** `get_services` on one record that counts. */
  lemma ServicesOfOne(rec: Node, endpoint: string)
    requires ServiceTest(rec, endpoint) == Ok(true)
    ensures Services([rec], endpoint) == Ok(1)
  {
    ScanOne(rec, ServiceCheck(endpoint));
  }

  /** `get_countries` on one record whose COUNTRY_NAME lookup returns `v`. */
  lemma CountriesOfOne(rec: Node, v: Option<string>)
    requires FieldOf(rec, "COUNTRY_NAME") == Ok(v)
    ensures Countries([rec]) == Ok(([v], 1))
  {
    ScanOne(rec, FieldLookup("COUNTRY_NAME"));
    assert AppendNew([], [v][..0]) == [];
  }

  /** `get_sites("APEL", records)` gives `(1, ["MD-02-IMI"])`. */
  lemma FixtureSites()
    ensures Sites([Record()]) == Ok((1, [Some("MD-02-IMI")]))
  {
    SiteNameField();
    SitesOfOne(Record(), Some("MD-02-IMI"));
  }

  /** `get_services("APEL", records)` gives 1. */
  lemma FixtureServices()
    ensures Services([Record()], "APEL") == Ok(1)
  {
    RecordQualifies();
    ServicesOfOne(Record(), "APEL");
  }

  /** `get_countries("APEL", records)` gives `(["CRETE"], 1)`. */
  lemma FixtureCountries()
    ensures Countries([Record()]) == Ok(([Some("CRETE")], 1))
  {
    CountryField();
    CountriesOfOne(Record(), Some("CRETE"));
  }
}
