/**
 * An abstract page: the element tree that the HTML parsers (jsdom, cheerio) build from a
 * fetched body. Only what the scraper reads is kept: tag name, `id`, attributes, element
 * children in document order, and text content.
 */
module Dom {
  import opened Wrappers

  /**
   * One element. `children` holds the element children only (the DOM's `children`
   * collection); `text` stands for the element's `textContent`.
   */
  datatype Element = Element(
    tag: string,
    id: Option<string>,
    attrs: map<string, string>,
    children: seq<Element>,
    text: string)

  /** All elements of the tree rooted at `e`, in document (pre-)order, `e` first. */
  function Preorder(e: Element): (r: seq<Element>)
    decreases e, 1
  {
    [e] + PreorderAll(e.children)
  }

  /** The document-order listing of a sequence of sibling trees. */
  function PreorderAll(es: seq<Element>): (r: seq<Element>)
    decreases es, 0
  {
    if es == [] then [] else Preorder(es[0]) + PreorderAll(es[1..])
  }

  /** The first element of `s` that satisfies `p`: the reference definition of a document-order search. */
  function FirstWhere(s: seq<Element>, p: Element -> bool): (r: Option<Element>)
    ensures r.None? <==> forall x :: x in s ==> !p(x)
    ensures r.Some? ==> exists k :: 0 <= k < |s| && s[k] == r.value && p(s[k]) && forall j :: 0 <= j < k ==> !p(s[j])
  {
    if s == [] then None else if p(s[0]) then Some(s[0]) else FirstWhere(s[1..], p)
  }

  /** Depth-first search of the tree rooted at `e` for the first element satisfying `p`. */
  function Find(e: Element, p: Element -> bool): (r: Option<Element>)
    decreases e, 1
  {
    if p(e) then Some(e) else FindAll(e.children, p)
  }

  /** Depth-first search of a sequence of sibling trees, left to right. */
  function FindAll(es: seq<Element>, p: Element -> bool): (r: Option<Element>)
    decreases es, 0
  {
    if es == [] then None
    else match Find(es[0], p)
      case Some(x) => Some(x)
      case None => FindAll(es[1..], p)
  }

  /** Searching a concatenation finds the first match of the left part, if any, else that of the right part. */
  lemma {:induction false} FirstWhereAppend(a: seq<Element>, b: seq<Element>, p: Element -> bool)
    ensures FirstWhere(a + b, p) == if FirstWhere(a, p).Some? then FirstWhere(a, p) else FirstWhere(b, p)
  {
    if a != [] {
      assert (a + b)[0] == a[0];
      assert (a + b)[1..] == a[1..] + b;
      FirstWhereAppend(a[1..], b, p);
    } else {
      assert a + b == b;
    }
  }

  /** The depth-first search returns exactly the first match in document order. */
  lemma {:induction false} FindIsFirstInDocumentOrder(e: Element, p: Element -> bool)
    ensures Find(e, p) == FirstWhere(Preorder(e), p)
    decreases e, 1
  {
    FindAllIsFirstInDocumentOrder(e.children, p);
    FirstWhereAppend([e], PreorderAll(e.children), p);
    assert FirstWhere([e], p) == if p(e) then Some(e) else FirstWhere([e][1..], p);
    assert [e][1..] == [];
  }

  /** The search of sibling trees returns the first match of their joint document-order listing. */
  lemma {:induction false} FindAllIsFirstInDocumentOrder(es: seq<Element>, p: Element -> bool)
    ensures FindAll(es, p) == FirstWhere(PreorderAll(es), p)
    decreases es, 0
  {
    if es != [] {
      FindIsFirstInDocumentOrder(es[0], p);
      FindAllIsFirstInDocumentOrder(es[1..], p);
      FirstWhereAppend(Preorder(es[0]), PreorderAll(es[1..]), p);
    }
  }

  /** The test "this element's `id` is `name`". */
  function HasId(name: string): Element -> bool
  {
    (x: Element) => x.id == Some(name)
  }

  /** The test "this element's tag name is `name`". */
  function HasTag(name: string): Element -> bool
  {
    (x: Element) => x.tag == name
  }

  /**
   * `document.getElementById(name)`: the first element of the page, in document order,
   * whose `id` is `name`, or `null` (None) when there is none.
   */
  function GetElementById(page: Element, name: string): (r: Option<Element>)
    ensures r == FirstWhere(Preorder(page), HasId(name))
    ensures r.Some? ==> r.value.id == Some(name) && r.value in Preorder(page)
    ensures r.None? <==> forall x :: x in Preorder(page) ==> x.id != Some(name)
  {
    FindIsFirstInDocumentOrder(page, HasId(name));
    Find(page, HasId(name))
  }

  /**
   * `document.querySelector(name)` for a bare tag-name selector: the first element of the page,
   * in document order, with that tag, or `null` (None).
   */
  function QuerySelectorTag(page: Element, name: string): (r: Option<Element>)
    ensures r == FirstWhere(Preorder(page), HasTag(name))
    ensures r.Some? ==> r.value.tag == name && r.value in Preorder(page)
    ensures r.None? <==> forall x :: x in Preorder(page) ==> x.tag != name
  {
    FindIsFirstInDocumentOrder(page, HasTag(name));
    Find(page, HasTag(name))
  }

  /** `element.children[i]`: the i-th element child, or `undefined` (None) when out of range. */
  function Child(e: Element, i: nat): (r: Option<Element>)
    ensures r.Some? <==> i < |e.children|
    ensures r.Some? ==> r.value == e.children[i]
  {
    if i < |e.children| then Some(e.children[i]) else None
  }

  /** `element.getAttribute(name)`: the attribute's value, or `null` (None) when it is absent. */
  function GetAttribute(e: Element, name: string): (r: Option<string>)
    ensures r.Some? <==> name in e.attrs
    ensures r.Some? ==> r.value == e.attrs[name]
  {
    if name in e.attrs then Some(e.attrs[name]) else None
  }

  /**
   * A chain `e.children[i0].children[i1]...`: follows `path` down the tree, failing (None) as soon
   * as an index is out of range.
   */
  function Descend(e: Element, path: seq<nat>): (r: Option<Element>)
    ensures path == [] ==> r == Some(e)
    ensures path != [] ==>
      r == if path[0] < |e.children| then Descend(e.children[path[0]], path[1..]) else None
    ensures r.Some? ==> r.value in Preorder(e)
    decreases |path|
  {
    if path == [] then Some(e)
    else match Child(e, path[0])
      case None => None
      case Some(c) =>
        var r := Descend(c, path[1..]);
        if r.Some? then ChildSubtreeInPreorder(e, path[0], r.value); r else r
  }

  /** Every element of a child's subtree appears in the parent's document-order listing. */
  lemma ChildSubtreeInPreorder(e: Element, i: nat, x: Element)
    requires i < |e.children| && x in Preorder(e.children[i])
    ensures x in Preorder(e)
  {
    SubtreeInPreorderAll(e.children, i, x);
  }

  /** Every element of the i-th sibling's subtree appears in the siblings' joint listing. */
  lemma {:induction false} SubtreeInPreorderAll(es: seq<Element>, i: nat, x: Element)
    requires i < |es| && x in Preorder(es[i])
    ensures x in PreorderAll(es)
    decreases |es|
  {
    if i > 0 {
      assert es[1..][i - 1] == es[i];
      SubtreeInPreorderAll(es[1..], i - 1, x);
    }
  }
}
