/** Bounded queues and finite sets. */
module Collections {
  /** What is left of a queue whose front is popped until it fits. */
  function KeepLast<T>(q: seq<T>, max: nat): seq<T> { if |q| > max then q[|q| - max..] else q }

  function InsertAt<T>(q: seq<T>, p: nat, x: T): (r: seq<T>)
    requires p <= |q|
    ensures |r| == |q| + 1
    ensures forall i :: 0 <= i < |r| ==> r[i] == if i < p then q[i] else if i == p then x else q[i - 1]
  {
    q[..p] + [x] + q[p..]
  }

  lemma KeptAt<T>(q: seq<T>, max: nat, k: nat)
    requires k < |KeepLast(q, max)|
    ensures |KeepLast(q, max)| <= max && |KeepLast(q, max)| <= |q|
    ensures KeepLast(q, max)[k] == q[|q| - |KeepLast(q, max)| + k]
  {
  }

  /** Keeping the last `max` before an insertion changes nothing that is kept
      after it; `p` is where the insertion falls in the whole queue. */
  lemma EvictBeforeInsert<T>(q: seq<T>, p: nat, x: T, max: nat)
    requires p <= |q|
    ensures var kept := KeepLast(q, max);
            var p' := if p + |kept| >= |q| then p + |kept| - |q| else 0;
            KeepLast(InsertAt(kept, p', x), max) == KeepLast(InsertAt(q, p, x), max)
  {
    var kept := KeepLast(q, max);
    var d := |q| - |kept|;
    var p' := if p >= d then p - d else 0;
    var a, b := KeepLast(InsertAt(kept, p', x), max), KeepLast(InsertAt(q, p, x), max);
    forall i | 0 <= i < |a| ensures |a| == |b| && a[i] == b[i] {
      KeptAt(InsertAt(kept, p', x), max, i);
      KeptAt(InsertAt(q, p, x), max, i);
    }
  }

  lemma SubsetCount<T>(small: set<T>, large: set<T>)
    requires small <= large
    ensures |small| <= |large|
  {
    assert large == small + (large - small);
  }
}
