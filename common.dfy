/** The helpers shared by the APEL and GOCDB metric scripts: the defensive
    field lookup of class `GetData`, the availability probe of the metrics
    store, and the certificate-verification setting handed to the fetcher. */
module Common {
  import opened Python
  import opened Dom

  /** A `GetData(data, location, url)` object: a field name, the record to
      look it up in, and the URL that identifies the record in diagnostics
      (a string, or `None` when the caller had none). */
  datatype GetData = GetData(data: string, location: Node, url: Option<string>) {

    /** `data_finder()`: the value of the first child of the first element
        below `location` whose tag is the upper-cased field name. When no
        element matches, the `IndexError` is caught and `None` is returned;
        building the warning message then raises `TypeError` if `url` is
        `None`. An element without children raises `AttributeError`. */
    function DataFinder(): (r: Outcome<Option<string>>)
      ensures FindFirst(location, Upper(data)).None? ==>
                r == (if url.Some? then Ok(None) else Raised(TypeError))
      ensures FindFirst(location, Upper(data)).Some? ==>
                var e := FindFirst(location, Upper(data)).value;
                r == (if ChildNodes(e) == [] then Raised(AttributeError)
                      else Ok(NodeValue(ChildNodes(e)[0])))
    {
      match FirstTagValue(location, Upper(data))
      case Raised(IndexError) => if url.None? then Raised(TypeError) else Ok(None)
      case other => other
    }

    /** The warning `data_finder()` logs: one message, naming the field and
        the URL, exactly when no element matches and the URL is a string. */
    function Warning(): (w: Option<string>)
      ensures w.Some? <==> FindFirst(location, Upper(data)).None? && url.Some?
      ensures w.Some? ==> DataFinder() == Ok(None)
    {
      FirstOfElementsByTagName(location, Upper(data));
      if ElementsByTagName(location, Upper(data)) == [] && url.Some? then
        Some("Index error when requesting " + Upper(data) + "from" + url.value)
      else None
    }
  }

  /** Looking a field up by its lower-case or upper-case name gives the same
      outcome. */
  lemma DataFinderIgnoresCase(data: string, location: Node, url: Option<string>)
    ensures GetData(Upper(data), location, url).DataFinder() == GetData(data, location, url).DataFinder()
    ensures GetData(Upper(data), location, url).Warning() == GetData(data, location, url).Warning()
  {
    UpperIdempotent(data);
  }

  /** When several elements match, the value comes from the first of them in
      document order, verbatim. */
  lemma {:induction false} DataFinderTakesFirst(g: GetData)
    requires ElementsByTagName(g.location, Upper(g.data)) != []
    requires ChildNodes(ElementsByTagName(g.location, Upper(g.data))[0]) != []
    ensures g.DataFinder() ==
              Ok(NodeValue(ChildNodes(ElementsByTagName(g.location, Upper(g.data))[0])[0]))
  {
    FirstOfElementsByTagName(g.location, Upper(g.data));
  }

  /** What `es_check()` finds when it probes the metrics store. */
  datatype Probe = Responded(status: int) | Unreachable

  /** `es_check()`: `True` exactly when the probe answered with status 200; a
      probe that cannot connect raises `ConnectionError`, which is not caught. */
  function EsCheck(probe: Probe): (r: Outcome<bool>)
    ensures r.Raised? <==> probe.Unreachable?
    ensures r.Raised? ==> r.error == ConnectionError
    ensures r.Ok? ==> (r.value <==> probe.status == 200)
  {
    match probe
    case Responded(code) => Ok(code == 200)
    case Unreachable => Raised(ConnectionError)
  }

  /** The `verify=` argument given to the HTTPS fetcher: a flag, or the path
      of the CA certificates to verify against. */
  datatype Verify = Flag(on: bool) | CaPath(path: string)

  /** What a fetch of one registry URL yields: a parsed document, or a
      `ConnectionError`. */
  datatype Fetch = Received(doc: Node) | Refused

  /** A value of the metrics dictionary. */
  datatype Value =
    | IntVal(n: int)
    | StrVal(s: string)
    | ListVal(items: seq<Option<string>>)
    | SetVal(members: set<Option<string>>)

  /** The outcome of a run: the metrics dictionary, and whether it was handed
      to `ESWrite` (otherwise it was printed). */
  datatype Report = Report(metrics: map<string, Value>, published: bool)
}
