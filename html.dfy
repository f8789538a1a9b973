/**
 * The part of a parsed HTML document that the client queries: a tree of
 * elements, each with its tag name, its attributes and its classes. A
 * query walks the elements below a list of nodes in document order
 * (pre-order), as BeautifulSoup's `find` and `find_all` do.
 */
module Html {
  import opened Wrappers

  /**
   * An element. `attrs` holds the single-valued attributes (id, action,
   * href, name, value); `classes` holds the class list, which the parser
   * keeps apart because `class` is multi-valued. Text is not modelled.
   */
  datatype Node = Node(tag: string, attrs: map<string, string>, classes: seq<string>, children: seq<Node>)

  /** A parsed document: its top-level elements. */
  type Page = seq<Node>

  /** The node followed by everything below it, in document order. */
  function Preorder(n: Node): seq<Node>
    decreases n
  {
    [n] + Descendants(n.children)
  }

  /** Every element inside `ns`, in document order. */
  function Descendants(ns: seq<Node>): seq<Node>
    decreases ns
  {
    if ns == [] then [] else Preorder(ns[0]) + Descendants(ns[1..])
  }

  /** A tag name, optionally with an id and a class to match. */
  datatype Query = Query(tag: string, id: Option<string>, cls: Option<string>)

  predicate Matches(n: Node, q: Query) {
    && n.tag == q.tag
    && (q.id.Some? ==> "id" in n.attrs && n.attrs["id"] == q.id.value)
    && (q.cls.Some? ==> q.cls.value in n.classes)
  }

  /** `node.attrs.get(name)`. */
  function Attr(n: Node, name: string): Option<string> {
    if name in n.attrs then Some(n.attrs[name]) else None
  }

  /** `n` is the first element of `ds` that matches `q`. */
  ghost predicate FirstIn(ds: seq<Node>, q: Query, n: Node) {
    exists k :: 0 <= k < |ds| && ds[k] == n && Matches(n, q) && forall j :: 0 <= j < k ==> !Matches(ds[j], q)
  }

  /** No element of `ds` matches `q`. */
  ghost predicate NoneIn(ds: seq<Node>, q: Query) {
    forall k :: 0 <= k < |ds| ==> !Matches(ds[k], q)
  }

  /** The position of the first element of `ds` that matches `q`. */
  function FirstMatch(ds: seq<Node>, q: Query): (r: Option<nat>)
    ensures r.Some? ==> r.value < |ds| && Matches(ds[r.value], q)
    ensures r.Some? ==> forall j :: 0 <= j < r.value ==> !Matches(ds[j], q)
    ensures r.None? ==> NoneIn(ds, q)
    decreases |ds|
  {
    if ds == [] then None
    else if Matches(ds[0], q) then Some(0)
    else match FirstMatch(ds[1..], q)
      case None => None
      case Some(k) => Some(k + 1)
  }

  /** `find`: the first element inside `ns` that matches `q`, if any. */
  function Find(ns: seq<Node>, q: Query): (r: Option<Node>)
    ensures r.None? <==> NoneIn(Descendants(ns), q)
    ensures r.Some? ==> FirstIn(Descendants(ns), q, r.value)
  {
    var ds := Descendants(ns);
    match FirstMatch(ds, q)
    case None => None
    case Some(k) => Some(ds[k])
  }

  /** The elements of `ds` that match `q`, in their order in `ds`. */
  function Filter(ds: seq<Node>, q: Query): (r: seq<Node>)
    ensures |r| <= |ds|
    ensures forall n :: n in r <==> n in ds && Matches(n, q)
    decreases |ds|
  {
    if ds == [] then []
    else if Matches(ds[0], q) then [ds[0]] + Filter(ds[1..], q)
    else Filter(ds[1..], q)
  }

  /** `find_all`: every element inside `ns` that matches `q`, in document order. */
  function FindAll(ns: seq<Node>, q: Query): (r: seq<Node>)
    ensures forall n :: n in r <==> n in Descendants(ns) && Matches(n, q)
    ensures |r| <= |Descendants(ns)|
  {
    Filter(Descendants(ns), q)
  }

  /**
   * Filtering keeps document order: what matches in an earlier part of the
   * document comes before what matches in a later part.
   */
  lemma {:induction false} FilterAppend(a: seq<Node>, b: seq<Node>, q: Query)
    ensures Filter(a + b, q) == Filter(a, q) + Filter(b, q)
    decreases |a|
  {
    if a == [] {
      assert a + b == b;
    } else {
      assert (a + b)[0] == a[0] && (a + b)[1..] == a[1..] + b;
      FilterAppend(a[1..], b, q);
    }
  }

  /** The elements inside a list of siblings are those inside each sibling, in turn. */
  lemma {:induction false} DescendantsAppend(a: seq<Node>, b: seq<Node>)
    ensures Descendants(a + b) == Descendants(a) + Descendants(b)
    decreases |a|
  {
    if a == [] {
      assert a + b == b;
    } else {
      assert (a + b)[0] == a[0] && (a + b)[1..] == a[1..] + b;
      DescendantsAppend(a[1..], b);
    }
  }

  /**
   * So `find_all` over siblings is `find_all` over each sibling in turn:
   * the matches under the first come before the matches under the second.
   */
  lemma FindAllKeepsDocumentOrder(a: seq<Node>, b: seq<Node>, q: Query)
    ensures FindAll(a + b, q) == FindAll(a, q) + FindAll(b, q)
  {
    DescendantsAppend(a, b);
    FilterAppend(Descendants(a), Descendants(b), q);
  }
}
