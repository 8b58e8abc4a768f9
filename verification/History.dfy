/** Values that are written now and then, and stand until they are written again. */
module History {
  datatype Write<T> = Untouched | Written(value: T)

  function Now<T>(write: Write<T>, held: T): T {
    if write.Written? then write.value else held
  }

  /** Each value is what was written since the one before, or that one. */
  predicate Follows<T(==)>(values: seq<T>, writes: seq<Write<T>>) {
    && |values| == |writes| + 1
    && forall n | 0 <= n < |writes| :: values[n + 1] == Now(writes[n], values[n])
  }

  /** Nothing is written from the i-th on, before the k-th. */
  predicate NoneFrom<T>(writes: seq<Write<T>>, i: nat, k: nat)
    requires k <= |writes|
  {
    forall n | i <= n < k :: writes[n].Untouched?
  }

  /** This is the i-th write, and nothing is written after it. */
  predicate LastWritten<T(==)>(now: T, writes: seq<Write<T>>, i: nat, k: nat)
    requires k <= |writes|
  {
    i < k && writes[i] == Written(now) && NoneFrom(writes, i + 1, k)
  }

  /** What stands is the last thing written, or what was there at first. */
  predicate Stands<T(==)>(now: T, first: T, writes: seq<Write<T>>, k: nat)
    requires k <= |writes|
  {
    (now == first && NoneFrom(writes, 0, k)) || exists i | 0 <= i < k :: LastWritten(now, writes, i, k)
  }

  lemma {:induction false} TheLastStands<T>(values: seq<T>, writes: seq<Write<T>>, k: nat)
    requires Follows(values, writes) && k <= |writes|
    ensures Stands(values[k], values[0], writes, k)
  {
    if k > 0 {
      var n := k - 1;
      var held := values[n];
      TheLastStands(values, writes, n);
      if writes[n].Written? {
        assert LastWritten(values[k], writes, n, k);
      } else if i :| 0 <= i < n && LastWritten(held, writes, i, n) {
        assert LastWritten(held, writes, i, k);
      }
    }
  }

  /** Only one thing can: two that stand over the same writes are the same. */
  lemma OneThingStands<T>(a: T, b: T, first: T, writes: seq<Write<T>>, k: nat)
    requires k <= |writes| && Stands(a, first, writes, k) && Stands(b, first, writes, k)
    ensures a == b
  {
    if i :| 0 <= i < k && LastWritten(a, writes, i, k) {
      if j :| 0 <= j < k && LastWritten(b, writes, j, k) {
        assert i == j;
      }
    }
  }
}
