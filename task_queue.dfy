/** Value-level operations of the dispatch queue: an unbounded FIFO of task
    identities in which the same task may appear more than once. */
module TaskQueue {

  /** The index of the first occurrence of `t` in `q`. */
  function FirstIndex<T(==)>(q: seq<T>, t: T): (i: nat)
    requires t in q
    ensures i < |q| && q[i] == t
    ensures t !in q[..i]
  {
    if q[0] == t then 0
    else
      var j := FirstIndex(q[1..], t);
      assert q[..j + 1] == [q[0]] + q[1..][..j];
      1 + j
  }

  /** Removes one instance of `t`, scanning from the head, as the blocking
      queue's `remove(o)` does; returns `q` itself when `t` is not queued. */
  function RemoveFirst<T(==)>(q: seq<T>, t: T): (r: seq<T>)
    ensures multiset(r) == multiset(q) - multiset{t}
    ensures |r| == if t in q then |q| - 1 else |q|
    ensures t !in q ==> r == q
  {
    if q == [] then []
    else if q[0] == t then
      assert q == [q[0]] + q[1..];
      q[1..]
    else
      assert q == [q[0]] + q[1..];
      [q[0]] + RemoveFirst(q[1..], t)
  }

  /** Removal takes out exactly the first occurrence of `t`: every other
      element stays, in its original relative order. */
  lemma {:induction false} RemoveFirstSplices<T>(q: seq<T>, t: T)
    requires t in q
    ensures RemoveFirst(q, t) == q[..FirstIndex(q, t)] + q[FirstIndex(q, t) + 1..]
  {
    RemoveFirstAt(q, t, FirstIndex(q, t));
  }

  lemma {:induction false} RemoveFirstAt<T>(q: seq<T>, t: T, i: nat)
    requires i < |q| && q[i] == t && t !in q[..i]
    ensures RemoveFirst(q, t) == q[..i] + q[i + 1..]
  {
    if i == 0 {
      assert q[..0] + q[1..] == q[1..];
    } else {
      FirstOccurrenceInTail(q, t, i);
      RemoveFirstAt(q[1..], t, i - 1);
      SpliceCons(q, i);
    }
  }

  lemma FirstOccurrenceInTail<T>(q: seq<T>, t: T, i: nat)
    requires 0 < i < |q| && q[i] == t && t !in q[..i]
    ensures q[0] != t && q[1..][i - 1] == t && t !in q[1..][..i - 1]
  {
    assert q[0] in q[..i];
    assert q[1..][..i - 1] == q[1..i];
    assert forall x :: x in q[1..i] ==> x in q[..i];
  }

  lemma SpliceCons<T>(q: seq<T>, i: nat)
    requires 0 < i < |q|
    ensures q[..i] + q[i + 1..] == [q[0]] + (q[1..][..i - 1] + q[1..][i..])
  {
    assert q[..i] == [q[0]] + q[1..][..i - 1];
    assert q[i + 1..] == q[1..][i..];
  }

  /** A task that was not queued, offered and then removed again, leaves the
      queue as it was. */
  lemma {:induction false} RemoveFirstOfOffered<T>(q: seq<T>, t: T)
    requires t !in q
    ensures RemoveFirst(q + [t], t) == q
  {
    if q != [] {
      assert (q + [t])[1..] == q[1..] + [t];
      RemoveFirstOfOffered(q[1..], t);
      assert q == [q[0]] + q[1..];
    }
  }
}
