/**
 * The parsed document: a labelled tree whose nodes are numbered, node 0 being
 * the root, with the ElementTree lookups the extractor uses (`elem.find(tag)`,
 * `elem.findall('.//tag')`, `elem.iter()`) and the child-to-parent index built
 * once per document.
 */
module Document {
  import opened Wrappers
  import opened Seqs

  /** An element: its tag, its text (Python's `None` text is the empty string) and its children. */
  datatype Node = Node(tag: string, text: string, children: seq<nat>)

  /** All elements of one document, indexed by position; the root is element 0. */
  datatype Doc = Doc(nodes: seq<Node>)

  const Root: nat := 0

  function Tag(d: Doc, i: nat): string {
    if i < |d.nodes| then d.nodes[i].tag else ""
  }

  function TextOf(d: Doc, i: nat): string {
    if i < |d.nodes| then d.nodes[i].text else ""
  }

  /** The entries of `cs` that can be children of `i`: numbered after it and inside the document. */
  function ChildrenAfter(d: Doc, i: nat, cs: seq<nat>): (r: seq<nat>)
    ensures forall k :: 0 <= k < |r| ==> i < r[k] < |d.nodes|
    ensures forall c :: c in r <==> c in cs && i < c < |d.nodes|
    decreases |cs|
  {
    if cs == [] then []
    else (if i < cs[0] < |d.nodes| then [cs[0]] else []) + ChildrenAfter(d, i, cs[1..])
  }

  /**
   * The children of element i in document order. An element's children are
   * numbered after it (as a pre-order numbering does), which makes every
   * traversal below terminate.
   */
  function Children(d: Doc, i: nat): (r: seq<nat>)
    ensures forall k :: 0 <= k < |r| ==> i < r[k] < |d.nodes|
  {
    if i < |d.nodes| then ChildrenAfter(d, i, d.nodes[i].children) else []
  }

  /** `elem.iter()`: the element itself, then its descendants, in document order. */
  function Iter(d: Doc, i: nat): (r: seq<nat>)
    ensures i < |d.nodes| ==> |r| > 0 && r[0] == i
    ensures forall k :: 0 <= k < |r| ==> i <= r[k] < |d.nodes|
    decreases |d.nodes| - i, 1
  {
    if i < |d.nodes| then [i] + IterEach(d, i, Children(d, i)) else []
  }

  /** The subtrees of the children `cs` of `i`, one after the other. */
  function IterEach(d: Doc, i: nat, cs: seq<nat>): (r: seq<nat>)
    requires forall k :: 0 <= k < |cs| ==> i < cs[k] < |d.nodes|
    ensures forall k :: 0 <= k < |r| ==> i < r[k] < |d.nodes|
    decreases |d.nodes| - i, 0, |cs|
  {
    if cs == [] then [] else Iter(d, cs[0]) + IterEach(d, i, cs[1..])
  }

  /** The proper descendants of element i in document order (the `.//` axis). */
  function Descendants(d: Doc, i: nat): (r: seq<nat>)
    ensures forall k :: 0 <= k < |r| ==> i < r[k] < |d.nodes|
  {
    IterEach(d, i, Children(d, i))
  }

  /** The entries of `ids` whose tag is `tag`, in order. */
  function WithTag(d: Doc, ids: seq<nat>, tag: string): (r: seq<nat>)
    ensures forall x :: x in r <==> x in ids && Tag(d, x) == tag
    ensures |r| <= |ids|
    decreases |ids|
  {
    if ids == [] then []
    else (if Tag(d, ids[0]) == tag then [ids[0]] else []) + WithTag(d, ids[1..], tag)
  }

  /**
   * Selecting by tag works piecewise, so the selected entries keep the order
   * they had in `ids`; with the one-entry case (the entry if its tag matches,
   * else nothing) this fixes the result.
   */
  lemma {:induction false} WithTagAppend(d: Doc, a: seq<nat>, b: seq<nat>, tag: string)
    ensures WithTag(d, a + b, tag) == WithTag(d, a, tag) + WithTag(d, b, tag)
    decreases |a|
  {
    if a != [] {
      assert (a + b)[0] == a[0];
      assert (a + b)[1..] == a[1..] + b;
      WithTagAppend(d, a[1..], b, tag);
    } else {
      assert a + b == b;
    }
  }

  /**
   * The first entry selected is the first entry of `ids` with the tag: every
   * entry before it has another tag.
   */
  lemma {:induction false} WithTagHead(d: Doc, ids: seq<nat>, tag: string)
    requires WithTag(d, ids, tag) != []
    ensures exists k ::
              && 0 <= k < |ids| && ids[k] == WithTag(d, ids, tag)[0]
              && (forall j :: 0 <= j < k ==> Tag(d, ids[j]) != tag)
    decreases |ids|
  {
    if Tag(d, ids[0]) != tag {
      WithTagHead(d, ids[1..], tag);
      var k :| 0 <= k < |ids[1..]| && ids[1..][k] == WithTag(d, ids[1..], tag)[0]
        && forall j :: 0 <= j < k ==> Tag(d, ids[1..][j]) != tag;
      assert ids[k + 1] == WithTag(d, ids, tag)[0];
      assert forall j :: 0 <= j < k + 1 ==> Tag(d, ids[j]) != tag by {
        forall j | 0 <= j < k + 1 ensures Tag(d, ids[j]) != tag {
          if j > 0 { assert ids[j] == ids[1..][j - 1]; }
        }
      }
    } else {
      assert ids[0] == WithTag(d, ids, tag)[0];
    }
  }

  /** `elem.findall('.//tag')`. */
  function FindAll(d: Doc, i: nat, tag: string): seq<nat> {
    WithTag(d, Descendants(d, i), tag)
  }

  /** `elem.find('.//tag')`: the first descendant with that tag, in document order. */
  function FindFirst(d: Doc, i: nat, tag: string): (r: Option<nat>)
    ensures r.Some? ==> Tag(d, r.value) == tag
    ensures r.Some? ==> exists k ::
              && 0 <= k < |Descendants(d, i)| && Descendants(d, i)[k] == r.value
              && (forall j :: 0 <= j < k ==> Tag(d, Descendants(d, i)[j]) != tag)
    ensures r.None? <==> forall x :: x in Descendants(d, i) ==> Tag(d, x) != tag
  {
    var found := FindAll(d, i, tag);
    if found == [] then None
    else
      WithTagHead(d, Descendants(d, i), tag);
      assert found[0] in found;
      Some(found[0])
  }

  /** `elem.find(tag)`: the first direct child with that tag. */
  function FindChild(d: Doc, i: nat, tag: string): (r: Option<nat>)
    ensures r.Some? ==> r.value in Children(d, i) && Tag(d, r.value) == tag
    ensures r.Some? ==> exists k ::
              && 0 <= k < |Children(d, i)| && Children(d, i)[k] == r.value
              && (forall j :: 0 <= j < k ==> Tag(d, Children(d, i)[j]) != tag)
    ensures r.None? ==> forall c :: c in Children(d, i) ==> Tag(d, c) != tag
  {
    var found := WithTag(d, Children(d, i), tag);
    if found == [] then None
    else
      WithTagHead(d, Children(d, i), tag);
      Some(found[0])
  }

  /** `findall` of one descendant step from each of `ids`, concatenated. */
  function FindAllEach(d: Doc, ids: seq<nat>, tag: string): seq<nat>
    decreases |ids|
  {
    if ids == [] then [] else FindAll(d, ids[0], tag) + FindAllEach(d, ids[1..], tag)
  }

  /**
   * `elem.findall('.//A//B')` for steps [A, B]: ElementTree takes every match of
   * one step as the context of the next, without merging repeated matches.
   */
  function Select(d: Doc, ids: seq<nat>, steps: seq<string>): seq<nat>
    decreases |steps|
  {
    if steps == [] then ids else Select(d, FindAllEach(d, ids, steps[0]), steps[1..])
  }

  /** Every child of i is among its descendants. */
  lemma {:induction false} ChildIsDescendant(d: Doc, i: nat, c: nat)
    requires c in Children(d, i)
    ensures c in Descendants(d, i)
  {
    ChildInIterEach(d, i, Children(d, i), c);
  }

  lemma {:induction false} ChildInIterEach(d: Doc, i: nat, cs: seq<nat>, c: nat)
    requires forall k :: 0 <= k < |cs| ==> i < cs[k] < |d.nodes|
    requires c in cs
    ensures c in IterEach(d, i, cs)
    decreases |cs|
  {
    if cs[0] != c {
      ChildInIterEach(d, i, cs[1..], c);
    }
  }

  /** Links from each child of p back to p. */
  function ChildLinks(d: Doc, p: nat): (r: map<nat, nat>)
    ensures forall c :: c in r <==> c in Children(d, p)
    ensures forall c :: c in r ==> r[c] == p
  {
    map c | c in Children(d, p) :: p
  }

  /**
   * `{child: parent for parent in ids for child in parent}`: later entries
   * overwrite earlier ones, as in the Python comprehension.
   */
  function ParentsOf(d: Doc, ids: seq<nat>): (r: map<nat, nat>)
    ensures forall c :: c in r ==> c in Children(d, r[c]) && r[c] < c
    decreases |ids|
  {
    if ids == [] then map[]
    else
      var links := ChildLinks(d, ids[|ids| - 1]);
      assert forall c :: c in links ==> links[c] < c by {
        forall c | c in links ensures links[c] < c {
          var k :| 0 <= k < |Children(d, ids[|ids| - 1])| && Children(d, ids[|ids| - 1])[k] == c;
        }
      }
      ParentsOf(d, ids[..|ids| - 1]) + links
  }

  /** Every child of every listed element gets an entry. */
  lemma {:induction false} ParentsOfComplete(d: Doc, ids: seq<nat>, k: nat, c: nat)
    requires k < |ids| && c in Children(d, ids[k])
    ensures c in ParentsOf(d, ids)
    decreases |ids|
  {
    if k < |ids| - 1 {
      ParentsOfComplete(d, ids[..|ids| - 1], k, c);
    }
  }

  /** The child-to-parent index of the whole document, built once after parsing. */
  function ParentMap(d: Doc): map<nat, nat> {
    ParentsOf(d, Iter(d, Root))
  }

  /**
   * The walk of `_collect_tag_values` up the parent index: `current`, then its
   * parent, and so on, stopping at an element without a parent or at one
   * already visited.
   */
  function Climb(parent: map<nat, nat>, current: nat, visited: set<nat>): (r: seq<nat>)
    ensures current !in visited ==> |r| > 0 && r[0] == current
    ensures current in visited ==> r == []
    ensures NoDups(r)
    ensures forall k :: 0 <= k < |r| ==> r[k] !in visited
    ensures forall k :: 0 <= k < |r| - 1 ==> r[k] in parent && r[k + 1] == parent[r[k]]
    decreases parent.Keys - visited
  {
    if current in visited then []
    else if current in parent then [current] + Climb(parent, parent[current], visited + {current})
    else [current]
  }

  /**
   * Along the document's own parent index the walk visits ancestors only: each
   * element of the chain is a child of the next, and the chain ends at an
   * element with no parent.
   */
  lemma {:induction false} ClimbVisitsAncestors(d: Doc, start: nat)
    ensures var chain := Climb(ParentMap(d), start, {});
      && chain[0] == start
      && (forall k :: 0 <= k < |chain| - 1 ==> chain[k] in Children(d, chain[k + 1]) && chain[k + 1] < chain[k])
      && chain[|chain| - 1] !in ParentMap(d)
  {
    var parent := ParentMap(d);
    var chain := Climb(parent, start, {});
    var last := chain[|chain| - 1];
    if last in parent {
      // the parent of the last element would have been visited earlier, yet parents are numbered lower
      ClimbEndsAtRoot(parent, start, {});
    }
  }

  /** With parents numbered below their children, the walk only stops at an element without a parent. */
  lemma {:induction false} ClimbEndsAtRoot(parent: map<nat, nat>, current: nat, visited: set<nat>)
    requires forall c :: c in parent ==> parent[c] < c
    requires current !in visited
    requires forall v :: v in visited ==> v > current
    ensures var r := Climb(parent, current, visited); r[|r| - 1] !in parent
    decreases parent.Keys - visited
  {
    if current in parent {
      ClimbEndsAtRoot(parent, parent[current], visited + {current});
    }
  }
}
