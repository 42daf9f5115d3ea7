/**
 * An abstract stand-in for the DOM trees that `xml.dom.minidom` builds.
 * Only what the lookup client inspects is kept: elements with their tag
 * names and children, text nodes, and `Comment` for any non-element,
 * non-text node, which the client skips: comments, processing
 * instructions, CDATA sections.
 */
module XmlDom {

  datatype Node =
    | Element(tag: string, children: seq<Node>)
    | Text(data: string)
    | Comment(data: string)

  /** The DOM `nodeName`: the tag of an element, `#text` for a text node. */
  function NodeName(n: Node): string
  {
    match n
    case Element(tag, _) => tag
    case Text(_) => "#text"
    case Comment(_) => "#comment"
  }

  /** The DOM `childNodes`; only elements have children. */
  function ChildNodes(n: Node): seq<Node>
  {
    if n.Element? then n.children else []
  }

  /** Whether `getElementsByTagName(name)` selects `n`; `*` selects every element. */
  predicate Selects(name: string, n: Node)
  {
    n.Element? && (name == "*" || n.tag == name)
  }

  /**
   * The elements selected by `name` among `nodes` and all their
   * descendants, in document order (pre-order), as minidom's
   * getElementsByTagName collects them.
   */
  function ElementsIn(nodes: seq<Node>, name: string): (r: seq<Node>)
    ensures forall i :: 0 <= i < |r| ==> Selects(name, r[i])
    decreases nodes
  {
    if nodes == [] then []
    else
      var head := nodes[0];
      var here := if head.Element? then (if Selects(name, head) then [head] else []) + ElementsIn(head.children, name) else [];
      here + ElementsIn(nodes[1..], name)
  }

  /** `n.getElementsByTagName(name)`: descendants of `n`, never `n` itself. */
  function ElementsByTagName(n: Node, name: string): (r: seq<Node>)
    ensures forall i :: 0 <= i < |r| ==> Selects(name, r[i])
  {
    ElementsIn(ChildNodes(n), name)
  }

  /** The elements of `es` whose tag is `name`, in order. */
  function WithTag(es: seq<Node>, name: string): (r: seq<Node>)
    ensures forall i :: 0 <= i < |r| ==> r[i].Element? ==> r[i].tag == name
  {
    if es == [] then []
    else (if es[0].Element? && es[0].tag == name then [es[0]] else []) + WithTag(es[1..], name)
  }

  lemma WithTagAppend(a: seq<Node>, b: seq<Node>, name: string)
    ensures WithTag(a + b, name) == WithTag(a, name) + WithTag(b, name)
  {
    if a != [] {
      var first := if a[0].Element? && a[0].tag == name then [a[0]] else [];
      assert (a + b)[0] == a[0];
      assert (a + b)[1..] == a[1..] + b;
      WithTagAppend(a[1..], b, name);
      calc {
        WithTag(a + b, name);
        first + WithTag(a[1..] + b, name);
        first + (WithTag(a[1..], name) + WithTag(b, name));
        (first + WithTag(a[1..], name)) + WithTag(b, name);
      }
    } else {
      assert a + b == b;
    }
  }

  /**
   * Searching for one tag name selects exactly the elements with that
   * name among all descendant elements (the `*` search), in the same order.
   */
  lemma {:induction false} ElementsInIsFilteredWildcard(nodes: seq<Node>, name: string)
    requires name != "*"
    ensures ElementsIn(nodes, name) == WithTag(ElementsIn(nodes, "*"), name)
    decreases nodes
  {
    if nodes != [] {
      var head := nodes[0];
      ElementsInIsFilteredWildcard(nodes[1..], name);
      if head.Element? {
        ElementsInIsFilteredWildcard(head.children, name);
        var kids := ElementsIn(head.children, "*");
        assert ElementsIn(nodes, "*") == [head] + kids + ElementsIn(nodes[1..], "*");
        assert WithTag([head], name) == if head.tag == name then [head] else [];
        calc {
          WithTag(ElementsIn(nodes, "*"), name);
          WithTag([head] + kids + ElementsIn(nodes[1..], "*"), name);
          { WithTagAppend([head] + kids, ElementsIn(nodes[1..], "*"), name);
            WithTagAppend([head], kids, name); }
          WithTag([head], name) + WithTag(kids, name) + WithTag(ElementsIn(nodes[1..], "*"), name);
        }
      } else {
        assert ElementsIn(nodes, name) == ElementsIn(nodes[1..], name);
        assert ElementsIn(nodes, "*") == ElementsIn(nodes[1..], "*");
      }
    }
  }

  /** An element, at any depth below `nodes`, whose tag is `name`. */
  ghost predicate HasDescendant(nodes: seq<Node>, name: string)
    decreases nodes
  {
    exists i :: 0 <= i < |nodes| && nodes[i].Element? &&
      (nodes[i].tag == name || HasDescendant(nodes[i].children, name))
  }

  /** The search for `name` comes back empty exactly when no descendant has that tag. */
  lemma {:induction false} ElementsInEmpty(nodes: seq<Node>, name: string)
    requires name != "*"
    ensures ElementsIn(nodes, name) == [] <==> !HasDescendant(nodes, name)
    decreases nodes
  {
    if nodes == [] {
    } else {
      var head := nodes[0];
      ElementsInEmpty(nodes[1..], name);
      if head.Element? {
        ElementsInEmpty(head.children, name);
      }
      if HasDescendant(nodes, name) {
        var i :| 0 <= i < |nodes| && nodes[i].Element? &&
          (nodes[i].tag == name || HasDescendant(nodes[i].children, name));
        if i > 0 {
          assert nodes[1..][i - 1] == nodes[i];
        }
      } else {
        assert !(head.Element? && (head.tag == name || HasDescendant(head.children, name)));
      }
    }
  }
}
