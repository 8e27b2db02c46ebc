/** The hardware topology as an abstract tree of targets, the first-match
    search on the physical-path attribute, and the callback-driven walk that
    performs it (a pre-order traversal that stops as soon as the callback
    returns non-zero). */
module Topology {
  import opened Wrappers
  import opened Ints

  /** The HWAS state attribute: the functional flag and the id of the error
      log that deconfigured the unit. */
  datatype HwasState = HwasState(functional: bool, deconfiguredByEid: uint32)

  /** A topology node. Each attribute is `None` when reading it fails. */
  datatype Target = Target(
    name: string,
    physDevPath: Option<string>,
    hwasState: Option<HwasState>,
    locationCode: Option<string>,
    children: seq<Target>)

  /** The callback's test: the physical-path attribute is readable and equal
      to the path sought. */
  predicate Matches(t: Target, path: string)
  {
    t.physDevPath == Some(path)
  }

  /** The first node, in pre-order, that matches `path`. */
  function Search(t: Target, path: string): (r: Option<Target>)
    ensures r.Some? ==> Matches(r.value, path)
    decreases t, 1
  {
    if Matches(t, path) then Some(t) else SearchList(t.children, path)
  }

  /** The first match in the subtrees of `ts`, taken left to right. */
  function SearchList(ts: seq<Target>, path: string): (r: Option<Target>)
    ensures r.Some? ==> Matches(r.value, path)
    decreases ts, 0
  {
    if ts == [] then None
    else match Search(ts[0], path)
      case Some(found) => Some(found)
      case None => SearchList(ts[1..], path)
  }

  /** The nodes of the tree in the order the walk visits them. */
  function PreOrder(t: Target): seq<Target>
    decreases t, 1
  {
    [t] + PreOrderList(t.children)
  }

  function PreOrderList(ts: seq<Target>): seq<Target>
    decreases ts, 0
  {
    if ts == [] then [] else PreOrder(ts[0]) + PreOrderList(ts[1..])
  }

  /** The reference definition of a first-match search: a left-to-right scan
      of a list of nodes. Absent exactly when nothing matches; otherwise a
      matching node with no match before it. */
  function FirstMatch(nodes: seq<Target>, path: string): (r: Option<Target>)
    ensures r.None? <==> forall j :: 0 <= j < |nodes| ==> !Matches(nodes[j], path)
    ensures r.Some? ==> exists k :: 0 <= k < |nodes| && nodes[k] == r.value && Matches(nodes[k], path) &&
                                    forall j :: 0 <= j < k ==> !Matches(nodes[j], path)
  {
    if nodes == [] then None
    else if Matches(nodes[0], path) then Some(nodes[0])
    else
      var r := FirstMatch(nodes[1..], path);
      assert r.Some? ==> exists k :: 0 <= k < |nodes| && nodes[k] == r.value && Matches(nodes[k], path) &&
                                     forall j :: 0 <= j < k ==> !Matches(nodes[j], path) by {
        if r.Some? {
          var k :| 0 <= k < |nodes| - 1 && nodes[1..][k] == r.value && Matches(nodes[1..][k], path) &&
                   forall j :: 0 <= j < k ==> !Matches(nodes[1..][j], path);
          assert nodes[k + 1] == r.value;
          forall j | 0 <= j < k + 1 ensures !Matches(nodes[j], path) {
            if j > 0 { assert nodes[j] == nodes[1..][j - 1]; }
          }
        }
      }
      r
  }

  /** A scan of a concatenation finds the match of the first part if it has
      one, else that of the second. */
  lemma {:induction false} FirstMatchAppend(a: seq<Target>, b: seq<Target>, path: string)
    ensures FirstMatch(a + b, path) == if FirstMatch(a, path).Some? then FirstMatch(a, path) else FirstMatch(b, path)
    decreases |a|
  {
    if a == [] {
      assert a + b == b;
    } else {
      assert (a + b)[1..] == a[1..] + b;
      FirstMatchAppend(a[1..], b, path);
    }
  }

  /** The search is exactly the first match of the pre-order list. */
  lemma {:induction false} SearchIsFirstMatch(t: Target, path: string)
    ensures Search(t, path) == FirstMatch(PreOrder(t), path)
    decreases t, 1
  {
    SearchListIsFirstMatch(t.children, path);
    FirstMatchAppend([t], PreOrderList(t.children), path);
    assert ([t] + PreOrderList(t.children))[1..] == PreOrderList(t.children);
  }

  lemma {:induction false} SearchListIsFirstMatch(ts: seq<Target>, path: string)
    ensures SearchList(ts, path) == FirstMatch(PreOrderList(ts), path)
    decreases ts, 0
  {
    if ts != [] {
      SearchIsFirstMatch(ts[0], path);
      SearchListIsFirstMatch(ts[1..], path);
      FirstMatchAppend(PreOrder(ts[0]), PreOrderList(ts[1..]), path);
    }
  }

  /** The found node is the first node in traversal order whose physical
      path is readable and equal to `path`; absent exactly when no node has
      such a path. A node whose attribute is unreadable never matches. */
  lemma SearchFindsFirstMatch(t: Target, path: string)
    ensures Search(t, path).None? <==> forall j :: 0 <= j < |PreOrder(t)| ==> !Matches(PreOrder(t)[j], path)
    ensures Search(t, path).Some? ==>
      Search(t, path).value.physDevPath == Some(path) &&
      exists k :: 0 <= k < |PreOrder(t)| && PreOrder(t)[k] == Search(t, path).value &&
                  forall j :: 0 <= j < k ==> PreOrder(t)[j].physDevPath != Some(path)
  {
    SearchIsFirstMatch(t, path);
  }

  lemma {:induction false} SearchListAppend(a: seq<Target>, b: seq<Target>, path: string)
    ensures SearchList(a + b, path) == if SearchList(a, path).Some? then SearchList(a, path) else SearchList(b, path)
    decreases |a|
  {
    if a == [] {
      assert a + b == b;
    } else {
      assert (a + b)[1..] == a[1..] + b;
      SearchListAppend(a[1..], b, path);
    }
  }

  /** The `priv` data of the walk: the path sought and, once found, the
      matching target. */
  class GuardedTarget {
    var target: Option<Target>
    const phyDevPath: string

    constructor (path: string)
      ensures target == None && phyDevPath == path
    {
      target := None;
      phyDevPath := path;
    }

    /** The callback: records `t` and returns 1 when it matches, else
        returns 0 and leaves the record alone. */
    method GetGuardedTarget(t: Target) returns (ret: int)
      modifies this
      ensures ret == if Matches(t, phyDevPath) then 1 else 0
      ensures target == if Matches(t, phyDevPath) then Some(t) else old(target)
    {
      ret := 0;
      if t.physDevPath.Some? {
        if t.physDevPath.value == phyDevPath {
          target := Some(t);
          return 1;
        }
      }
    }

    /** The walk: call back on `t`, then walk each child in turn, stopping at
        the first non-zero result. It returns non-zero exactly when the
        search finds a node, which is then the one recorded. */
    method Traverse(t: Target) returns (ret: int)
      modifies this
      ensures ret == 0 || ret == 1
      ensures ret == 1 <==> Search(t, phyDevPath).Some?
      ensures target == if ret == 1 then Search(t, phyDevPath) else old(target)
      decreases t
    {
      ret := GetGuardedTarget(t);
      if ret != 0 {
        return;
      }
      var i := 0;
      while i < |t.children|
        invariant 0 <= i <= |t.children|
        invariant ret == 0 && target == old(target)
        invariant SearchList(t.children[..i], phyDevPath).None?
      {
        ret := Traverse(t.children[i]);
        assert t.children[..i + 1] == t.children[..i] + [t.children[i]];
        SearchListAppend(t.children[..i], [t.children[i]], phyDevPath);
        if ret != 0 {
          assert t.children == t.children[..i] + t.children[i..];
          SearchListAppend(t.children[..i], t.children[i..], phyDevPath);
          return;
        }
        i := i + 1;
      }
      assert t.children[..i] == t.children;
    }
  }
}
