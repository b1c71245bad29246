/** What `SELECT ... ORDER BY ... LIMIT n` returns: the first rows of a set in the order of a sort key. */
module Selection {
  import opened Wrappers

  // The columns of an ORDER BY clause.
  datatype SortKey = SortKey(first: int, second: int, third: int)

  predicate AtMost(k: SortKey, l: SortKey) {
    || k.first < l.first
    || (k.first == l.first && k.second < l.second)
    || (k.first == l.first && k.second == l.second && k.third <= l.third)
  }

  predicate Distinct<T(==)>(s: seq<T>) {
    forall i, k :: 0 <= i < k < |s| ==> s[i] != s[k]
  }

  function Elements<T>(s: seq<T>): set<T> {
    set x | x in s
  }

  lemma {:induction false} DistinctElements<T>(s: seq<T>)
    requires Distinct(s)
    ensures |Elements(s)| == |s|
  {
    if s != [] {
      DistinctElements(s[1..]);
      assert Elements(s) == {s[0]} + Elements(s[1..]);
    } else {
      assert Elements(s) == {};
    }
  }

  predicate Sorted(keys: map<nat, SortKey>, batch: seq<nat>)
    requires forall x | x in batch :: x in keys
  {
    forall i, k :: 0 <= i < k < |batch| ==> AtMost(keys[batch[i]], keys[batch[k]])
  }

  // `batch` holds the first `limit` keys, in order; keys with equal columns come in any order.
  ghost predicate IsFirst(keys: map<nat, SortKey>, limit: nat, batch: seq<nat>) {
    && Distinct(batch)
    && (forall x | x in batch :: x in keys)
    && |batch| == Min(limit, |keys|)
    && Sorted(keys, batch)
    && (forall x, y | x in batch && y in keys && y !in batch :: AtMost(keys[x], keys[y]))
  }

  // Whatever was left out was left out because the limit was reached.
  lemma LeftOutByTheLimit(keys: map<nat, SortKey>, limit: nat, batch: seq<nat>, y: nat)
    requires IsFirst(keys, limit, batch) && y in keys && y !in batch
    ensures |batch| == limit
  {
    DistinctElements(batch);
    SubsetSize(Elements(batch) + {y}, keys.Keys);
    assert |keys.Keys| == |keys|;
  }

  lemma {:induction false} LeastExists(keys: map<nat, SortKey>, rest: set<nat>)
    requires rest != {} && rest <= keys.Keys
    ensures exists x :: x in rest && forall y | y in rest :: AtMost(keys[x], keys[y])
  {
    var z :| z in rest;
    if rest - {z} != {} {
      LeastExists(keys, rest - {z});
      var x :| x in rest - {z} && forall y | y in rest - {z} :: AtMost(keys[x], keys[y]);
      assert forall y | y in rest :: y == z || y in rest - {z};
      if AtMost(keys[z], keys[x]) {
        assert forall y | y in rest :: AtMost(keys[z], keys[y]);
      } else {
        assert forall y | y in rest :: AtMost(keys[x], keys[y]);
      }
    } else {
      assert rest == {z};
    }
  }

  method SelectFirst(keys: map<nat, SortKey>, limit: nat) returns (batch: seq<nat>)
    ensures IsFirst(keys, limit, batch)
  {
    batch := [];
    var rest := keys.Keys;
    while |batch| < limit && rest != {}
      invariant Distinct(batch) && |batch| <= limit && |batch| + |rest| == |keys|
      invariant forall x :: x in keys <==> x in batch || x in rest
      invariant forall x :: x in batch ==> x !in rest
      invariant Sorted(keys, batch)
      invariant forall x, y | x in batch && y in rest :: AtMost(keys[x], keys[y])
      decreases |rest|
    {
      LeastExists(keys, rest);
      var x :| x in rest && forall y | y in rest :: AtMost(keys[x], keys[y]);
      batch, rest := batch + [x], rest - {x};
    }
  }

  /** A key that must come before another is never left out in its favour. */
  lemma NothingJumpsTheQueue(keys: map<nat, SortKey>, limit: nat, batch: seq<nat>, x: nat, y: nat)
    requires IsFirst(keys, limit, batch) && x in keys && y in keys
    requires AtMost(keys[x], keys[y]) && !AtMost(keys[y], keys[x])
    ensures y in batch ==> x in batch && exists i, k :: 0 <= i < k < |batch| && batch[i] == x && batch[k] == y
  {
    if y in batch {
      var i, k :| 0 <= i < |batch| && 0 <= k < |batch| && batch[i] == x && batch[k] == y;
    }
  }

  // The passes that `due` rows take, `batchSize` at a time.
  function PassesFor(due: nat, batchSize: nat): nat
    requires batchSize >= 1
  {
    if due == 0 then 0 else 1 + PassesFor(due - Min(due, batchSize), batchSize)
  }

  /** That number is the quotient, rounded up. */
  lemma {:induction false} PassesAreTheRoundedQuotient(due: nat, batchSize: nat)
    requires batchSize >= 1
    ensures PassesFor(due, batchSize) * batchSize >= due
    ensures due > 0 ==> (PassesFor(due, batchSize) - 1) * batchSize < due
  {
    if due > 0 {
      PassesAreTheRoundedQuotient(due - Min(due, batchSize), batchSize);
    }
  }

  lemma PassesStep(due: nat, batchSize: nat)
    requires batchSize >= 1
    ensures PassesFor(due, batchSize) == PassesFor(due - Min(batchSize, due), batchSize) + if due == 0 then 0 else 1
  {
  }
}
