/** Persisted Parquet files, the time filter queries apply to them, and the order on paths. */
module ParquetFiles {
  import opened Wrappers

  type Path = string

  datatype ParquetFile = ParquetFile(
    id: nat,
    path: Path,
    sizeBytes: nat,
    rowCount: nat,
    chunkTime: int,
    minTime: int,
    maxTime: int)

  /** The time bounds of a query; either side may be open. */
  datatype ChunkFilter = ChunkFilter(lower: Option<int>, upper: Option<int>) {
    predicate Overlaps(minTime: int, maxTime: int) {
      match (lower, upper)
      case (None, None) => true
      case (None, Some(u)) => minTime <= u
      case (Some(l), None) => maxTime >= l
      case (Some(l), Some(u)) => minTime <= u && maxTime >= l
    }

    predicate Admits(time: int) {
      (lower.Some? ==> lower.value <= time) && (upper.Some? ==> time <= upper.value)
    }
  }

  /**
   A file passes exactly if it does not end before the lower bound or start after the upper one; between
   bounds the right way round, exactly if some time of the file lies within them.
   */
  lemma OverlapsIff(q: ChunkFilter, minTime: int, maxTime: int)
    ensures q.Overlaps(minTime, maxTime) <==>
      (q.lower.Some? ==> q.lower.value <= maxTime) && (q.upper.Some? ==> minTime <= q.upper.value)
    ensures minTime <= maxTime && (q.lower.Some? && q.upper.Some? ==> q.lower.value <= q.upper.value) ==>
      (q.Overlaps(minTime, maxTime) <==>
       exists t :: minTime <= t <= maxTime && q.Admits(t))
  {
    if minTime <= maxTime && q.Overlaps(minTime, maxTime) {
      var t := if q.lower.Some? && minTime < q.lower.value then q.lower.value else minTime;
      assert q.lower.Some? && q.upper.Some? && q.lower.value <= q.upper.value ==> q.Admits(t);
      assert q.lower.None? || q.upper.None? ==> q.Admits(t);
    }
  }

  /** Lexicographic order on paths, by character code. */
  predicate PathLess(a: Path, b: Path) {
    b != [] && (a == [] || a[0] < b[0] || (a[0] == b[0] && PathLess(a[1..], b[1..])))
  }

  /** The first `k` characters agree, and then the shorter path ends or the smaller character comes. */
  predicate FirstDifference(a: Path, b: Path, k: nat) {
    k <= |a| && k < |b| && a[..k] == b[..k] && (k == |a| || a[k] < b[k])
  }

  lemma {:induction false} PathLessIff(a: Path, b: Path)
    ensures PathLess(a, b) <==> exists k :: FirstDifference(a, b, k)
  {
    if b != [] && (a == [] || a[0] < b[0]) {
      assert FirstDifference(a, b, 0);
    } else if b != [] && a[0] == b[0] {
      PathLessIff(a[1..], b[1..]);
      if k: nat :| FirstDifference(a[1..], b[1..], k) {
        assert a[..k + 1] == [a[0]] + a[1..][..k] && b[..k + 1] == [b[0]] + b[1..][..k];
        assert FirstDifference(a, b, k + 1);
      }
      if k: nat :| FirstDifference(a, b, k) {
        assert k > 0 && a[1..][..k - 1] == a[..k][1..] && b[1..][..k - 1] == b[..k][1..];
        assert FirstDifference(a[1..], b[1..], k - 1);
      }
    } else {
      assert forall k: nat :: k > 0 && k <= |a| && k <= |b| && a[..k] == b[..k] ==> a[..k][0] == b[..k][0];
    }
  }

  lemma {:induction false} PathLessIrreflexive(a: Path)
    ensures !PathLess(a, a)
  {
    if a != [] {
      PathLessIrreflexive(a[1..]);
    }
  }

  lemma {:induction false} PathLessTransitive(a: Path, b: Path, c: Path)
    requires PathLess(a, b) && PathLess(b, c)
    ensures PathLess(a, c)
  {
    if a != [] && a[0] == b[0] && b[0] == c[0] {
      PathLessTransitive(a[1..], b[1..], c[1..]);
    }
  }

  lemma {:induction false} PathLessTotal(a: Path, b: Path)
    ensures a == b || PathLess(a, b) || PathLess(b, a)
  {
    if a != [] && b != [] && a[0] == b[0] {
      PathLessTotal(a[1..], b[1..]);
      assert a == [a[0]] + a[1..] && b == [b[0]] + b[1..];
    }
  }
}
