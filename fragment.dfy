/**
 * The part of an NUnit XML report the extension looks at, as a tree: elements with a tag name,
 * an attribute map and ordered children, and text nodes. A document is its ordered top-level
 * nodes. The DOM queries the extension uses (FirstChild, GetAttribute, SelectSingleNode on a
 * child name, InnerText, GetElementsByTagName("test-case") with each hit's ParentNode) are
 * functions on that tree.
 */
module Fragment {
  import opened Wrappers

  datatype Node =
    | Element(name: string, attributes: map<string, string>, children: seq<Node>)
    | Text(value: string)

  datatype Document = Document(children: seq<Node>)

  /** XmlNode.Name: the tag of an element, "#text" for a text node. */
  function Name(n: Node): string
  {
    match n
    case Element(name, _, _) => name
    case Text(_) => "#text"
  }

  /** XmlNode.FirstChild; None stands for null. */
  function FirstChild(d: Document): (r: Option<Node>)
    ensures r.Some? <==> d.children != []
    ensures r.Some? ==> r.value == d.children[0]
  {
    if d.children == [] then None else Some(d.children[0])
  }

  /** GetAttribute(name); None stands for null (no such attribute, or not an element). */
  function GetAttribute(n: Node, key: string): (r: Option<string>)
    ensures r.Some? <==> n.Element? && key in n.attributes
    ensures r.Some? ==> r.value == n.attributes[key]
  {
    if n.Element? && key in n.attributes then Some(n.attributes[key]) else None
  }

  /** The first child element with the given tag, searching from `from` on. */
  function FirstNamed(ns: seq<Node>, tag: string, from: nat): (r: Option<Node>)
    requires from <= |ns|
    ensures r.Some? <==> exists i | from <= i < |ns| :: ns[i].Element? && ns[i].name == tag
    ensures r.Some? ==> r.value.Element? && r.value.name == tag && r.value in ns[from..]
    ensures r.Some? ==> exists i | from <= i < |ns| :: ns[i] == r.value &&
                          forall j | from <= j < i :: !(ns[j].Element? && ns[j].name == tag)
    decreases |ns| - from
  {
    if from == |ns| then None
    else if ns[from].Element? && ns[from].name == tag then Some(ns[from])
    else FirstNamed(ns, tag, from + 1)
  }

  /** SelectSingleNode(tag) with a plain child name as the path; None stands for null. */
  function SelectChild(n: Node, tag: string): Option<Node>
  {
    if n.Text? then None else FirstNamed(n.children, tag, 0)
  }

  /** InnerText: the text of every text node below, in document order. */
  function InnerText(n: Node): string
  {
    match n
    case Text(value) => value
    case Element(_, _, children) => InnerTextOf(children)
  }

  function InnerTextOf(ns: seq<Node>): string
  {
    if ns == [] then [] else InnerText(ns[0]) + InnerTextOf(ns[1..])
  }

  /** The `?.InnerText` of an optional node. */
  function InnerTextOpt(n: Option<Node>): Option<string>
  {
    if n.None? then None else Some(InnerText(n.value))
  }

  /**
   * An element found by a descendant search, with the "name" attribute of its parent
   * (ParentNode.GetAttribute("name")); None when the parent is the document itself.
   */
  datatype Located = Located(parentName: Option<string>, node: Node)

  const TestCaseTag: string := "test-case"

  /** GetElementsByTagName("test-case") below nodes whose parent has name `parentName`, in document order. */
  function CasesIn(parentName: Option<string>, ns: seq<Node>): seq<Located>
    decreases ns
  {
    if ns == [] then [] else CasesUnder(parentName, ns[0]) + CasesIn(parentName, ns[1..])
  }

  function CasesUnder(parentName: Option<string>, n: Node): seq<Located>
    decreases n
  {
    match n
    case Text(_) => []
    case Element(name, _, children) =>
      (if name == TestCaseTag then [Located(parentName, n)] else [])
        + CasesIn(GetAttribute(n, "name"), children)
  }

  /** The test-case elements of a report, in document order. */
  function TestCases(d: Document): seq<Located>
  {
    CasesIn(None, d.children)
  }

  /** Every element of a node list, each with its parent's name, in preorder (document order). */
  function ElementsIn(parentName: Option<string>, ns: seq<Node>): seq<Located>
    decreases ns
  {
    if ns == [] then [] else ElementsUnder(parentName, ns[0]) + ElementsIn(parentName, ns[1..])
  }

  function ElementsUnder(parentName: Option<string>, n: Node): seq<Located>
    decreases n
  {
    match n
    case Text(_) => []
    case Element(_, _, children) => [Located(parentName, n)] + ElementsIn(GetAttribute(n, "name"), children)
  }

  /** Keeps the entries whose node is a test-case element, in order. */
  function OnlyTestCases(ls: seq<Located>): (r: seq<Located>)
    ensures |r| <= |ls|
  {
    if ls == [] then []
    else (if ls[0].node.Element? && ls[0].node.name == TestCaseTag then [ls[0]] else [])
         + OnlyTestCases(ls[1..])
  }

  lemma {:induction false} OnlyTestCasesAppend(a: seq<Located>, b: seq<Located>)
    ensures OnlyTestCases(a + b) == OnlyTestCases(a) + OnlyTestCases(b)
  {
    if a != [] {
      assert (a + b)[1..] == a[1..] + b;
      OnlyTestCasesAppend(a[1..], b);
    } else {
      assert a + b == b;
    }
  }

  /**
   * The test-case search is the document-order walk of all elements filtered by tag:
   * GetElementsByTagName returns exactly the test-case elements, each once, in document order.
   */
  lemma {:induction false} CasesAreFilteredElements(parentName: Option<string>, ns: seq<Node>)
    ensures CasesIn(parentName, ns) == OnlyTestCases(ElementsIn(parentName, ns))
    decreases ns
  {
    if ns != [] {
      CasesUnderAreFilteredElements(parentName, ns[0]);
      CasesAreFilteredElements(parentName, ns[1..]);
      OnlyTestCasesAppend(ElementsUnder(parentName, ns[0]), ElementsIn(parentName, ns[1..]));
      assert CasesIn(parentName, ns) == CasesUnder(parentName, ns[0]) + CasesIn(parentName, ns[1..]);
      assert ElementsIn(parentName, ns) == ElementsUnder(parentName, ns[0]) + ElementsIn(parentName, ns[1..]);
    }
  }

  lemma {:induction false} CasesUnderAreFilteredElements(parentName: Option<string>, n: Node)
    ensures CasesUnder(parentName, n) == OnlyTestCases(ElementsUnder(parentName, n))
    decreases n
  {
    if n.Element? {
      var inner := ElementsIn(GetAttribute(n, "name"), n.children);
      CasesAreFilteredElements(GetAttribute(n, "name"), n.children);
      OnlyTestCasesAppend([Located(parentName, n)], inner);
      assert OnlyTestCases([Located(parentName, n)]) == (if n.name == TestCaseTag then [Located(parentName, n)] else []);
    }
  }

  /** Every entry of the search is a test-case element. */
  lemma {:induction false} CasesAreTestCases(parentName: Option<string>, ns: seq<Node>)
    ensures forall i | 0 <= i < |CasesIn(parentName, ns)| ::
      CasesIn(parentName, ns)[i].node.Element? && CasesIn(parentName, ns)[i].node.name == TestCaseTag
  {
    CasesAreFilteredElements(parentName, ns);
    OnlyTestCasesKeepsTestCases(ElementsIn(parentName, ns));
  }

  lemma {:induction false} OnlyTestCasesKeepsTestCases(ls: seq<Located>)
    ensures forall i | 0 <= i < |OnlyTestCases(ls)| ::
      OnlyTestCases(ls)[i].node.Element? && OnlyTestCases(ls)[i].node.name == TestCaseTag
  {
    if ls != [] {
      OnlyTestCasesKeepsTestCases(ls[1..]);
      var head := if ls[0].node.Element? && ls[0].node.name == TestCaseTag then [ls[0]] else [];
      assert OnlyTestCases(ls) == head + OnlyTestCases(ls[1..]);
      forall i | 0 <= i < |OnlyTestCases(ls)|
        ensures OnlyTestCases(ls)[i].node.Element? && OnlyTestCases(ls)[i].node.name == TestCaseTag
      {
        if i >= |head| {
          assert OnlyTestCases(ls)[i] == OnlyTestCases(ls[1..])[i - |head|];
        }
      }
    }
  }

  /** Searching two sibling lists one after the other is searching their concatenation. */
  lemma {:induction false} CasesInAppend(parentName: Option<string>, a: seq<Node>, b: seq<Node>)
    ensures CasesIn(parentName, a + b) == CasesIn(parentName, a) + CasesIn(parentName, b)
  {
    if a != [] {
      assert (a + b)[0] == a[0];
      assert (a + b)[1..] == a[1..] + b;
      CasesInAppend(parentName, a[1..], b);
      assert CasesIn(parentName, a + b) == CasesUnder(parentName, a[0]) + CasesIn(parentName, a[1..] + b);
    } else {
      assert a + b == b;
    }
  }

  /**
   * A completed run's report has the test-run element as its root: the root itself is never
   * a hit, and the cases below it are found with the run's own "name" attribute as the
   * parent name of its direct children (null when the run has no name).
   */
  lemma RunRootCases(attributes: map<string, string>, children: seq<Node>)
    ensures var root := Element("test-run", attributes, children);
      TestCases(Document([root])) == CasesIn(GetAttribute(root, "name"), children)
  {
    var root := Element("test-run", attributes, children);
    assert [root][1..] == [];
    assert root.name != TestCaseTag;
    assert CasesIn(None, [root]) == CasesUnder(None, root) + CasesIn(None, []);
  }
}
