/** The parsed document as ElementTree hands it to the analyser: an element
    has a tag (`{uri}Local` when namespaced), an attribute map, optional
    text and ordered children. Reading and parsing the file are outside the
    model; the analyser starts from such a tree. */
module Xml {
  import opened Basics
  import opened Text

  datatype Node = Node(tag: string, attrs: map<string, string>, text: Option<string>, children: seq<Node>)

  /** ElementTree's `elem.iter()`: the element itself, then each child's
      subtree in document order (pre-order). */
  function Iter(n: Node): (r: seq<Node>)
    ensures |r| >= 1 && r[0] == n
    decreases n, 1
  {
    [n] + IterAll(n.children)
  }

  function IterAll(ns: seq<Node>): seq<Node>
    decreases ns, 0
  {
    if ns == [] then [] else Iter(ns[0]) + IterAll(ns[1..])
  }

  /** ElementTree's `elem.get(key, default)`. */
  function Get(n: Node, key: string, default: Option<string>): (r: Option<string>)
    ensures key in n.attrs ==> r == Some(n.attrs[key])
    ensures key !in n.attrs ==> r == default
  {
    if key in n.attrs then Some(n.attrs[key]) else default
  }

  /** `elem.get(key, default)` with a string default. */
  function GetOr(n: Node, key: string, default: string): (r: string)
    ensures key in n.attrs ==> r == n.attrs[key]
    ensures key !in n.attrs ==> r == default
  {
    Get(n, key, Some(default)).value
  }

  /** The elements of `ns` whose tag contains `marker` (`if marker in x.tag`). */
  function TagContains(ns: seq<Node>, marker: string): (r: seq<Node>)
    ensures |r| <= |ns|
  {
    if ns == [] then []
    else (if Contains(ns[0].tag, marker) then [ns[0]] else []) + TagContains(ns[1..], marker)
  }

  /** The grandchildren reached by
      `for c in ns: if outer in c.tag: for g in c: if inner in g.tag`. */
  function NestedContains(ns: seq<Node>, outer: string, inner: string): seq<Node>
  {
    if ns == [] then []
    else
      (if Contains(ns[0].tag, outer) then TagContains(ns[0].children, inner) else [])
      + NestedContains(ns[1..], outer, inner)
  }

  lemma NestedContainsAppend(a: seq<Node>, b: seq<Node>, outer: string, inner: string)
    ensures NestedContains(a + b, outer, inner) == NestedContains(a, outer, inner) + NestedContains(b, outer, inner)
  {
    if a != [] {
      assert (a + b)[1..] == a[1..] + b;
      NestedContainsAppend(a[1..], b, outer, inner);
    } else {
      assert a + b == b;
    }
  }

  /** `TagContains` keeps exactly the elements whose tag holds the marker. */
  lemma {:induction false} TagContainsMembers(ns: seq<Node>, marker: string)
    ensures forall x :: x in TagContains(ns, marker) <==> x in ns && Contains(x.tag, marker)
  {
    if ns != [] {
      TagContainsMembers(ns[1..], marker);
      assert ns == [ns[0]] + ns[1..];
    }
  }

  lemma TagContainsAppend(a: seq<Node>, b: seq<Node>, marker: string)
    ensures TagContains(a + b, marker) == TagContains(a, marker) + TagContains(b, marker)
  {
    if a != [] {
      assert (a + b)[1..] == a[1..] + b;
      TagContainsAppend(a[1..], b, marker);
    } else {
      assert a + b == b;
    }
  }
}
