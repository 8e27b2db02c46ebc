/** Collecting the optional results of a per-element step over a sequence,
    in order, and where each collected result came from. */
module Collections {
  import opened Wrappers

  /** The present results of `entryOf` over `rs`, in the order of `rs`. */
  function Collect<R, E>(rs: seq<R>, entryOf: R -> Option<E>): seq<E>
  {
    if rs == [] then []
    else Collect(rs[..|rs| - 1], entryOf) +
         match entryOf(rs[|rs| - 1])
         case Some(e) => [e]
         case None => []
  }

  lemma CollectSingleton<R, E>(r: R, entryOf: R -> Option<E>)
    ensures Collect([r], entryOf) == if entryOf(r).Some? then [entryOf(r).value] else []
  {
    assert [r][..0] == [];
  }

  /** Collecting over a concatenation concatenates the collections. */
  lemma {:induction false} CollectAppend<R, E>(a: seq<R>, b: seq<R>, entryOf: R -> Option<E>)
    ensures Collect(a + b, entryOf) == Collect(a, entryOf) + Collect(b, entryOf)
    decreases |b|
  {
    if b == [] {
      assert a + b == a;
    } else {
      assert (a + b)[..|a + b| - 1] == a + b[..|b| - 1];
      CollectAppend(a, b[..|b| - 1], entryOf);
    }
  }

  /** The positions in `rs` whose results are collected: one per collected
      result, increasing, each a valid index. */
  function Origins<R, E>(rs: seq<R>, entryOf: R -> Option<E>): (idx: seq<nat>)
    ensures |idx| == |Collect(rs, entryOf)|
    ensures forall k :: 0 <= k < |idx| ==> idx[k] < |rs|
    ensures forall k, l :: 0 <= k < l < |idx| ==> idx[k] < idx[l]
  {
    if rs == [] then []
    else Origins(rs[..|rs| - 1], entryOf) + if entryOf(rs[|rs| - 1]).Some? then [|rs| - 1] else []
  }

  /** Collected result `k` is the result of the element at `Origins[k]`. */
  lemma {:induction false} OriginsEntries<R, E>(rs: seq<R>, entryOf: R -> Option<E>)
    ensures forall k :: 0 <= k < |Origins(rs, entryOf)| ==>
              entryOf(rs[Origins(rs, entryOf)[k]]) == Some(Collect(rs, entryOf)[k])
  {
    if rs != [] {
      var n := |rs| - 1;
      var init := rs[..n];
      OriginsEntries(init, entryOf);
      var prev := Origins(init, entryOf);
      var idx := Origins(rs, entryOf);
      var before := Collect(init, entryOf);
      var whole := Collect(rs, entryOf);
      forall k | 0 <= k < |idx| ensures entryOf(rs[idx[k]]) == Some(whole[k]) {
        if k < |prev| {
          assert idx[k] == prev[k];
          assert init[prev[k]] == rs[prev[k]];
          assert whole[k] == before[k];
        }
      }
    }
  }

  /** Every element with a present result is among the origins. */
  lemma {:induction false} OriginsComplete<R, E>(rs: seq<R>, entryOf: R -> Option<E>)
    ensures forall i :: 0 <= i < |rs| && entryOf(rs[i]).Some? ==> i in Origins(rs, entryOf)
  {
    if rs != [] {
      var n := |rs| - 1;
      var init := rs[..n];
      OriginsComplete(init, entryOf);
      forall i | 0 <= i < |rs| && entryOf(rs[i]).Some? ensures i in Origins(rs, entryOf) {
        if i < n {
          assert init[i] == rs[i];
        }
      }
    }
  }
}
