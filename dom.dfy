/** The part of the XML DOM (as built by xml.dom.minidom) that the metric
    scripts read: documents, elements with tag names and children, and text
    nodes; and `getElementsByTagName` with the meaning W3C DOM Level 1 Core,
    section 1.2, gives it. */
module Dom {
  import opened Python

  datatype Node =
    | Document(children: seq<Node>)
    | Element(tag: string, children: seq<Node>)
    | Text(data: string)

  /** An element holding only a text, `<tag>text</tag>`. */
  function TextElement(tag: string, text: string): Node {
    Element(tag, [Text(text)])
  }

  /** `node.childNodes` */
  function ChildNodes(n: Node): seq<Node> {
    if n.Text? then [] else n.children
  }

  /** `node.nodeValue`: the character data of a text node, `None` otherwise. */
  function NodeValue(n: Node): Option<string> {
    if n.Text? then Some(n.data) else None
  }

  /** An element whose tag is `name`; the name "*" matches every element. */
  predicate Matches(n: Node, name: string) {
    n.Element? && (name == "*" || n.tag == name)
  }

  /** `n.getElementsByTagName(name)`: every matching element strictly below
      `n`, in preorder (document order). */
  function ElementsByTagName(n: Node, name: string): (es: seq<Node>)
    ensures forall e :: e in es ==> Matches(e, name)
    decreases n, 1
  {
    if n.Text? then [] else ElementsByTagNameIn(n.children, name)
  }

  /** The matching elements in and below the nodes `ns`, in document order. */
  function ElementsByTagNameIn(ns: seq<Node>, name: string): (es: seq<Node>)
    ensures forall e :: e in es ==> Matches(e, name)
    decreases ns, 0
  {
    if ns == [] then []
    else
      (if Matches(ns[0], name) then [ns[0]] else [])
      + ElementsByTagName(ns[0], name)
      + ElementsByTagNameIn(ns[1..], name)
  }

  /** A depth-first search that stops at the first matching element below `n`:
      the reference meaning of "the first element in document order". */
  function FindFirst(n: Node, name: string): (r: Option<Node>)
    ensures r.Some? ==> Matches(r.value, name)
    decreases n, 1
  {
    if n.Text? then None else FindFirstIn(n.children, name)
  }

  function FindFirstIn(ns: seq<Node>, name: string): (r: Option<Node>)
    ensures r.Some? ==> Matches(r.value, name)
    decreases ns, 0
  {
    if ns == [] then None
    else if Matches(ns[0], name) then Some(ns[0])
    else
      match FindFirst(ns[0], name)
      case Some(e) => Some(e)
      case None => FindFirstIn(ns[1..], name)
  }

  function Head<T>(s: seq<T>): Option<T> {
    if s == [] then None else Some(s[0])
  }

  /** `getElementsByTagName(name)[0]` is the first match of a depth-first
      search, and the list is empty exactly when the search finds nothing. */
  lemma {:induction false} FirstOfElementsByTagName(n: Node, name: string)
    ensures FindFirst(n, name) == Head(ElementsByTagName(n, name))
    decreases n, 1
  {
    if !n.Text? {
      FirstOfElementsByTagNameIn(n.children, name);
    }
  }

  lemma {:induction false} FirstOfElementsByTagNameIn(ns: seq<Node>, name: string)
    ensures FindFirstIn(ns, name) == Head(ElementsByTagNameIn(ns, name))
    decreases ns, 0
  {
    if ns != [] && !Matches(ns[0], name) {
      FirstOfElementsByTagName(ns[0], name);
      FirstOfElementsByTagNameIn(ns[1..], name);
    }
  }

  /** An element with the tag `name`. */
  function TagIs(name: string): Node -> bool {
    (e: Node) => e.Element? && e.tag == name
  }

  /** The elements named `name` below `n` are as many as the elements below
      `n` that have that tag, counted over all of them. */
  lemma {:induction false} TaggedAmongAll(n: Node, name: string)
    requires name != "*"
    ensures |ElementsByTagName(n, name)| == Tally(ElementsByTagName(n, "*"), TagIs(name))
    decreases n, 1
  {
    if !n.Text? {
      TaggedAmongAllIn(n.children, name);
    }
  }

  lemma {:induction false} TaggedAmongAllIn(ns: seq<Node>, name: string)
    requires name != "*"
    ensures |ElementsByTagNameIn(ns, name)| == Tally(ElementsByTagNameIn(ns, "*"), TagIs(name))
    decreases ns, 0
  {
    if ns != [] {
      var head := if Matches(ns[0], "*") then [ns[0]] else [];
      var below := ElementsByTagName(ns[0], "*");
      var rest := ElementsByTagNameIn(ns[1..], "*");
      TaggedAmongAll(ns[0], name);
      TaggedAmongAllIn(ns[1..], name);
      TallyAppend(head + below, rest, TagIs(name));
      TallyAppend(head, below, TagIs(name));
      TallySnoc([], ns[0], TagIs(name));
      assert [] + [ns[0]] == [ns[0]];
    }
  }

  /** `n` is no element named `name` and holds none below it. */
  predicate Lacks(n: Node, name: string) {
    !Matches(n, name) && FindFirst(n, name).None? && ElementsByTagName(n, name) == []
  }

  /** Nodes that each lack the name hold no element with it. */
  lemma {:induction false} NoneWithTag(ns: seq<Node>, name: string)
    requires forall i :: 0 <= i < |ns| ==> Lacks(ns[i], name)
    ensures FindFirstIn(ns, name) == None
    ensures ElementsByTagNameIn(ns, name) == []
    decreases |ns|
  {
    if ns != [] {
      assert Lacks(ns[0], name);
      NoneWithTag(ns[1..], name);
    }
  }

  /** An element with another tag whose children all lack the name lacks it. */
  lemma ChildrenLack(n: Node, name: string)
    requires n.Element? && !Matches(n, name)
    requires forall i :: 0 <= i < |n.children| ==> Lacks(n.children[i], name)
    ensures Lacks(n, name)
  {
    NoneWithTag(n.children, name);
  }

  /** An element with another tag and only text below it, such as `<A>x</A>`
      or `<A/>`, lacks the name. */
  lemma LeafLacks(n: Node, name: string)
    requires n.Element? && !Matches(n, name)
    requires forall i :: 0 <= i < |n.children| ==> n.children[i].Text?
    ensures Lacks(n, name)
  {
    ChildrenLack(n, name);
  }

  /** Elements with other tags and only text below them lack the name. */
  lemma LeavesLack(ns: seq<Node>, name: string)
    requires forall i :: 0 <= i < |ns| ==> ns[i].Element? && !Matches(ns[i], name)
    requires forall i, j :: 0 <= i < |ns| && 0 <= j < |ns[i].children| ==> ns[i].children[j].Text?
    ensures forall i :: 0 <= i < |ns| ==> Lacks(ns[i], name)
  {
    forall i | 0 <= i < |ns| ensures Lacks(ns[i], name) {
      LeafLacks(ns[i], name);
    }
  }

  /** What the first of several sibling nodes contributes to
      `getElementsByTagName`. */
  lemma FirstChildContributes(c: Node, rest: seq<Node>, name: string)
    ensures ElementsByTagNameIn([c] + rest, name) ==
              (if Matches(c, name) then [c] else []) + ElementsByTagName(c, name)
              + ElementsByTagNameIn(rest, name)
  {
    assert ([c] + rest)[1..] == rest;
  }

  /** Siblings that all match and hold no match below them are exactly the
      matches. */
  lemma {:induction false} FlatMatches(ns: seq<Node>, name: string)
    requires forall i :: 0 <= i < |ns| ==> Matches(ns[i], name) && ElementsByTagName(ns[i], name) == []
    ensures ElementsByTagNameIn(ns, name) == ns
    decreases |ns|
  {
    if ns != [] {
      FlatMatches(ns[1..], name);
      FirstChildContributes(ns[0], ns[1..], name);
      assert [ns[0]] + ns[1..] == ns;
    }
  }

  /** A document whose one element holds flat matching records, the shape
      of an XML answer `<results><R/>...<R/></results>`: its matches are the
      records. */
  lemma FlatAnswer(t: string, ns: seq<Node>, name: string)
    requires !Matches(Element(t, ns), name)
    requires forall i :: 0 <= i < |ns| ==> Matches(ns[i], name) && ElementsByTagName(ns[i], name) == []
    ensures ElementsByTagName(Document([Element(t, ns)]), name) == ns
  {
    FlatMatches(ns, name);
    FirstChildContributes(Element(t, ns), [], name);
    assert [Element(t, ns)] + [] == [Element(t, ns)];
  }

  /** Nodes that lack the name, followed by one more that lacks it, all lack
      it. */
  lemma SnocLacks(ns: seq<Node>, m: Node, name: string)
    requires forall i :: 0 <= i < |ns| ==> Lacks(ns[i], name)
    requires Lacks(m, name)
    ensures forall i :: 0 <= i < |ns + [m]| ==> Lacks((ns + [m])[i], name)
  {
  }

  /** Nodes that lack the name, and one more that lacks it, hold no match. */
  lemma NoneWithTagSnoc(ns: seq<Node>, m: Node, name: string)
    requires forall i :: 0 <= i < |ns| ==> Lacks(ns[i], name)
    requires Lacks(m, name)
    ensures ElementsByTagNameIn(ns + [m], name) == []
  {
    NoneWithTag(ns + [m], name);
  }

  /** When every node before the `k`-th lacks the name, the first element
      with it is the `k`-th node. */
  lemma {:induction false} FirstWithTag(ns: seq<Node>, name: string, k: nat)
    requires k < |ns| && Matches(ns[k], name)
    requires forall i :: 0 <= i < k ==> Lacks(ns[i], name)
    ensures FindFirstIn(ns, name) == Some(ns[k])
    decreases k
  {
    if k > 0 {
      assert Lacks(ns[0], name);
      FirstWithTag(ns[1..], name, k - 1);
    }
  }

  /** `n.getElementsByTagName(tag)[0].firstChild.nodeValue`, with the
      exceptions that expression raises. */
  function FirstTagValue(n: Node, tag: string): (r: Outcome<Option<string>>)
    ensures r == Raised(IndexError) <==> FindFirst(n, tag).None?
    ensures r == Raised(AttributeError) <==>
              FindFirst(n, tag).Some? && ChildNodes(FindFirst(n, tag).value) == []
    ensures r.Ok? <==> FindFirst(n, tag).Some? && ChildNodes(FindFirst(n, tag).value) != []
    ensures r.Ok? ==> r.value == NodeValue(ChildNodes(FindFirst(n, tag).value)[0])
  {
    FirstOfElementsByTagName(n, tag);
    var es := ElementsByTagName(n, tag);
    if es == [] then Raised(IndexError)
    else if ChildNodes(es[0]) == [] then Raised(AttributeError)
    else Ok(NodeValue(ChildNodes(es[0])[0]))
  }

  // ---------------------------------------------------------------------
  // Upper-casing of tag names (`str.upper()` on ASCII text).

  function UpperChar(c: char): char {
    if 'a' <= c <= 'z' then (c as int - 32) as char else c
  }

  /** `s.upper()` */
  function Upper(s: string): (r: string)
    ensures |r| == |s|
    ensures forall i :: 0 <= i < |r| ==> !('a' <= r[i] <= 'z')
    ensures forall i :: 0 <= i < |s| && !('a' <= s[i] <= 'z') ==> r[i] == s[i]
    ensures forall i :: 0 <= i < |s| && 'a' <= s[i] <= 'z' ==> r[i] as int == s[i] as int - 32
  {
    seq(|s|, i requires 0 <= i < |s| => UpperChar(s[i]))
  }

  /** Upper-casing twice is upper-casing once. */
  lemma UpperIdempotent(s: string)
    ensures Upper(Upper(s)) == Upper(s)
  {
    var u := Upper(s);
    assert forall i :: 0 <= i < |u| ==> Upper(u)[i] == u[i];
  }

  /** A name without lower-case letters is its own upper-case form. */
  lemma UpperOfUpperCase(s: string)
    requires forall i :: 0 <= i < |s| ==> !('a' <= s[i] <= 'z')
    ensures Upper(s) == s
  {
    assert forall i :: 0 <= i < |s| ==> Upper(s)[i] == s[i];
  }
}
