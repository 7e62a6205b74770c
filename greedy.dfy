// The greedy size-bounded partition that both the transcript chunker and the
// payload batcher of src/server/pinecone.ts perform: walk the items in order,
// keep a running total, and close the current group BEFORE adding an item that
// would push the total over the limit. The test does not ask whether the current
// group is empty, so an over-weight first item closes an empty group.
module Greedy {
  import opened Seqs

  /** Summed weight of a group. */
  function Weight<T>(c: seq<T>, w: T -> nat): nat
  {
    if c == [] then 0 else Weight(c[..|c| - 1], w) + w(c[|c| - 1])
  }

  /** A group respects the limit, or holds at most one item (which is never split). */
  predicate Fits<T>(c: seq<T>, w: T -> nat, limit: int)
  {
    |c| <= 1 || Weight(c, w) <= limit
  }

  /** The loop's variables: groups already closed, the open group, its running total. */
  datatype State<T> = State(done: seq<seq<T>>, current: seq<T>, currentWeight: int)

  /** One iteration of the loop body for item x. */
  function Step<T>(s: State<T>, x: T, w: T -> nat, limit: int): State<T>
  {
    if s.currentWeight + w(x) > limit then
      State(s.done + [s.current], [x], w(x))
    else
      State(s.done, s.current + [x], s.currentWeight + w(x))
  }

  /** The loop's variables after it has consumed the items xs. */
  function Scan<T>(xs: seq<T>, w: T -> nat, limit: int): State<T>
  {
    if xs == [] then State([], [], 0)
    else Step(Scan(xs[..|xs| - 1], w, limit), xs[|xs| - 1], w, limit)
  }

  /** After the loop: the open group is emitted only if it holds something. */
  function Close<T>(s: State<T>): seq<seq<T>>
  {
    if |s.current| > 0 then s.done + [s.current] else s.done
  }

  /** The groups the greedy procedure returns for xs. */
  function Partition<T>(xs: seq<T>, w: T -> nat, limit: int): seq<seq<T>>
  {
    Close(Scan(xs, w, limit))
  }

  /** The first group the procedure has started, closed or not. */
  function First<T>(s: State<T>): seq<T>
  {
    if s.done != [] then s.done[0] else s.current
  }

  /** The closed groups and the open one, concatenated, are the items consumed so far. */
  ghost predicate Covers<T>(xs: seq<T>, s: State<T>)
  {
    Flatten(s.done) + s.current == xs
  }

  /** Every group started so far respects the limit or is a single item. */
  ghost predicate AllFit<T>(w: T -> nat, limit: int, s: State<T>)
  {
    && s.currentWeight == Weight(s.current, w)
    && (forall k :: 0 <= k < |s.done| ==> Fits(s.done[k], w, limit))
    && Fits(s.current, w, limit)
  }

  /** Only the first group can be empty, and it is empty exactly when the first item is too heavy. */
  ghost predicate Shape<T>(xs: seq<T>, w: T -> nat, limit: int, s: State<T>)
  {
    && (forall k :: 0 < k < |s.done| ==> s.done[k] != [])
    && (xs == [] ==> s.done == [] && s.current == [])
    && (xs != [] ==> s.current != [])
    && (xs != [] ==> (First(s) == [] <==> w(xs[0]) > limit))
  }

  /** Each closed group was closed because the next group's first item did not fit. */
  ghost predicate Maximal<T>(w: T -> nat, limit: int, s: State<T>)
  {
    && (forall k :: 0 < k < |s.done| ==> s.done[k] != [] && Weight(s.done[k - 1], w) + w(s.done[k][0]) > limit)
    && (s.done != [] ==> s.current != [] && Weight(s.done[|s.done| - 1], w) + w(s.current[0]) > limit)
  }

  /** What holds of the loop's variables after consuming xs. */
  ghost predicate Inv<T>(xs: seq<T>, w: T -> nat, limit: int, s: State<T>)
  {
    Covers(xs, s) && AllFit(w, limit, s) && Shape(xs, w, limit, s) && Maximal(w, limit, s)
  }

  lemma WeightAppend<T>(c: seq<T>, x: T, w: T -> nat)
    ensures Weight(c + [x], w) == Weight(c, w) + w(x)
  {
    assert (c + [x])[..|c + [x]| - 1] == c;
  }

  lemma StepCovers<T>(xs: seq<T>, x: T, w: T -> nat, limit: int, s: State<T>)
    requires Covers(xs, s)
    ensures Covers(xs + [x], Step(s, x, w, limit))
  {
    if s.currentWeight + w(x) > limit {
      FlattenAppend(s.done, [s.current]);
      FlattenSingleton(s.current);
    }
  }

  lemma StepAllFit<T>(x: T, w: T -> nat, limit: int, s: State<T>)
    requires AllFit(w, limit, s)
    ensures AllFit(w, limit, Step(s, x, w, limit))
  {
    var s' := Step(s, x, w, limit);
    if s.currentWeight + w(x) > limit {
      assert [x][..0] == [];
      assert Weight([x], w) == w(x);
      forall k | 0 <= k < |s'.done|
        ensures Fits(s'.done[k], w, limit)
      {
        if k < |s.done| {
          assert s'.done[k] == s.done[k];
        } else {
          assert s'.done[k] == s.current;
        }
      }
    } else {
      WeightAppend(s.current, x, w);
    }
  }

  lemma StepShape<T>(xs: seq<T>, x: T, w: T -> nat, limit: int, s: State<T>)
    requires Shape(xs, w, limit, s) && s.currentWeight == Weight(s.current, w)
    ensures Shape(xs + [x], w, limit, Step(s, x, w, limit))
  {
    var s' := Step(s, x, w, limit);
    var ys := xs + [x];
    assert xs != [] ==> ys[0] == xs[0];
    assert ys[0] == if xs == [] then x else xs[0];
    if s.currentWeight + w(x) > limit {
      assert forall k :: 0 <= k < |s.done| ==> s'.done[k] == s.done[k];
    }
  }

  lemma StepMaximal<T>(xs: seq<T>, x: T, w: T -> nat, limit: int, s: State<T>)
    requires Maximal(w, limit, s) && s.currentWeight == Weight(s.current, w)
    requires xs != [] ==> s.current != []
    requires xs == [] ==> s.done == []
    ensures Maximal(w, limit, Step(s, x, w, limit))
  {
    var s' := Step(s, x, w, limit);
    if s.currentWeight + w(x) > limit {
      assert forall k :: 0 <= k < |s.done| ==> s'.done[k] == s.done[k];
      assert s'.done[|s.done|] == s.current;
    } else {
      assert s.current != [] ==> s'.current[0] == s.current[0];
    }
  }

  lemma StepInv<T>(xs: seq<T>, x: T, w: T -> nat, limit: int, s: State<T>)
    requires Inv(xs, w, limit, s)
    ensures Inv(xs + [x], w, limit, Step(s, x, w, limit))
  {
    StepCovers(xs, x, w, limit, s);
    StepAllFit(x, w, limit, s);
    StepShape(xs, x, w, limit, s);
    StepMaximal(xs, x, w, limit, s);
  }

  lemma {:induction false} ScanInv<T>(xs: seq<T>, w: T -> nat, limit: int)
    ensures Inv(xs, w, limit, Scan(xs, w, limit))
    decreases |xs|
  {
    if xs == [] {
      assert Flatten<T>([]) == [];
    } else {
      var init := xs[..|xs| - 1];
      ScanInv(init, w, limit);
      assert init + [xs[|xs| - 1]] == xs;
      StepInv(init, xs[|xs| - 1], w, limit, Scan(init, w, limit));
    }
  }

  /** Concatenating the groups gives back the items: none dropped, duplicated or reordered. */
  lemma PartitionFlatten<T>(xs: seq<T>, w: T -> nat, limit: int)
    ensures Flatten(Partition(xs, w, limit)) == xs
  {
    var s := Scan(xs, w, limit);
    ScanInv(xs, w, limit);
    if |s.current| > 0 {
      FlattenAppend(s.done, [s.current]);
      FlattenSingleton(s.current);
    } else {
      assert s.current == [];
    }
  }

  /** Every group respects the limit unless it holds at most one item. */
  lemma PartitionFits<T>(xs: seq<T>, w: T -> nat, limit: int)
    ensures forall k :: 0 <= k < |Partition(xs, w, limit)| ==> Fits(Partition(xs, w, limit)[k], w, limit)
  {
    ScanInv(xs, w, limit);
  }

  /** No items, no groups; some items, some groups. */
  lemma PartitionEmpty<T>(xs: seq<T>, w: T -> nat, limit: int)
    ensures Partition(xs, w, limit) == [] <==> xs == []
  {
    ScanInv(xs, w, limit);
  }

  /** Only the first group can be empty, and it is empty exactly when the first item alone
      is over the limit; the last group is never empty. */
  lemma PartitionEmptyGroups<T>(xs: seq<T>, w: T -> nat, limit: int)
    ensures forall k :: 0 < k < |Partition(xs, w, limit)| ==> Partition(xs, w, limit)[k] != []
    ensures xs != [] ==> (Partition(xs, w, limit)[0] == [] <==> w(xs[0]) > limit)
    ensures Partition(xs, w, limit) != [] ==> Partition(xs, w, limit)[|Partition(xs, w, limit)| - 1] != []
  {
    ScanInv(xs, w, limit);
    var s := Scan(xs, w, limit);
    if xs != [] {
      assert Partition(xs, w, limit) == s.done + [s.current];
    }
  }

  /** The groups are as large as the limit lets them be: each group but the last was closed
      because the next group's first item would have taken it over the limit. */
  lemma PartitionMaximal<T>(xs: seq<T>, w: T -> nat, limit: int)
    ensures forall k :: 0 < k < |Partition(xs, w, limit)| ==>
      Partition(xs, w, limit)[k] != [] &&
      Weight(Partition(xs, w, limit)[k - 1], w) + w(Partition(xs, w, limit)[k][0]) > limit
  {
    ScanInv(xs, w, limit);
    var s := Scan(xs, w, limit);
    if xs != [] {
      var p := s.done + [s.current];
      assert Partition(xs, w, limit) == p;
      forall k | 0 < k < |p|
        ensures p[k] != [] && Weight(p[k - 1], w) + w(p[k][0]) > limit
      {
        if k < |s.done| {
          assert p[k - 1] == s.done[k - 1] && p[k] == s.done[k];
        } else {
          assert p[k - 1] == s.done[|s.done| - 1] && p[k] == s.current;
        }
      }
    }
  }
}
