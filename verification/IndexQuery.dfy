/** Which files a query reads from the index, in which order, and the dedup order that gives them. */
module IndexQuery {
  import opened Wrappers
  import opened ParquetFiles
  import opened IndexModel

  datatype Query = Query(db: nat, table: nat, filter: ChunkFilter, excluded: Option<string>) {
    predicate InScope(k: TableKey) {
      k.db == db && k.table == table && excluded != Some(k.node)
    }

    predicate Accepts(x: IndexedFile) {
      filter.Overlaps(x.file.minTime, x.file.maxTime)
    }
  }

  /** Some node other than the excluded one has `x` live in the queried table. */
  ghost predicate LiveIn(ix: Index, q: Query, x: IndexedFile) {
    exists k: TableKey :: k.db == q.db && k.table == q.table && q.excluded != Some(k.node) && x in Files(ix, k)
  }

  /** `x` is a live file of the queried table, not excluded, and overlaps the filter. */
  ghost predicate Matches(ix: Index, q: Query, x: IndexedFile) {
    q.Accepts(x) && exists k :: q.InScope(k) && x in Files(ix, k)
  }

  /** No two live files of the queried table share a path, within or across nodes. */
  ghost predicate DistinctPaths(ix: Index, q: Query) {
    forall k, l, i, j ::
      && q.InScope(k) && q.InScope(l)
      && 0 <= i < |Files(ix, k)| && 0 <= j < |Files(ix, l)|
      && Files(ix, k)[i].file.path == Files(ix, l)[j].file.path
      ==> k == l && i == j
  }

  /** Publication order: by log position, then by path. */
  predicate Before(a: IndexedFile, b: IndexedFile) {
    a.addedAt < b.addedAt || (a.addedAt == b.addedAt && PathLess(a.file.path, b.file.path))
  }

  ghost predicate Ordered(s: seq<IndexedFile>) {
    forall i, j :: 0 <= i < j < |s| ==> !Before(s[j], s[i])
  }

  ghost predicate StrictlyOrdered(s: seq<IndexedFile>) {
    forall i, j :: 0 <= i < j < |s| ==> Before(s[i], s[j])
  }

  lemma BeforeTransitive(a: IndexedFile, b: IndexedFile, c: IndexedFile)
    requires !Before(b, a) && !Before(c, b)
    ensures !Before(c, a)
  {
    PathLessTotal(a.file.path, b.file.path);
    PathLessTotal(b.file.path, c.file.path);
    if Before(c, a) {
      assert a.addedAt == b.addedAt == c.addedAt;
      if a.file.path == b.file.path || b.file.path == c.file.path {
        assert false;
      }
      PathLessTransitive(a.file.path, b.file.path, c.file.path);
      PathLessTransitive(a.file.path, c.file.path, a.file.path);
      PathLessIrreflexive(a.file.path);
    }
  }

  function Insert(x: IndexedFile, s: seq<IndexedFile>): seq<IndexedFile> {
    if s == [] || Before(x, s[0]) then [x] + s else [s[0]] + Insert(x, s[1..])
  }

  function Sort(s: seq<IndexedFile>): seq<IndexedFile> {
    if s == [] then [] else Insert(s[|s| - 1], Sort(s[..|s| - 1]))
  }

  lemma {:induction false} InsertOrders(x: IndexedFile, s: seq<IndexedFile>)
    requires Ordered(s)
    ensures Ordered(Insert(x, s)) && multiset(Insert(x, s)) == multiset(s) + multiset{x}
  {
    hide Before;
    if s != [] && !Before(x, s[0]) {
      InsertOrders(x, s[1..]);
      var r := Insert(x, s[1..]);
      assert s == [s[0]] + s[1..];
      forall i | 0 <= i < |r| ensures !Before(r[i], s[0]) {
        assert r[i] in multiset(r);
        if r[i] != x { assert r[i] in multiset(s[1..]); }
      }
    } else if s != [] {
      forall i | 0 <= i < |s| ensures !Before(s[i], x) {
        BeforeIrreflexive(s[0]);
        assert !Before(s[i], s[0]);
        BeforeAsymmetric(x, s[0]);
        BeforeTransitive(x, s[0], s[i]);
      }
    }
  }

  lemma BeforeIrreflexive(a: IndexedFile)
    ensures !Before(a, a)
  {
    PathLessIrreflexive(a.file.path);
  }

  lemma BeforeAsymmetric(a: IndexedFile, b: IndexedFile)
    requires Before(a, b)
    ensures !Before(b, a)
  {
    if Before(b, a) {
      PathLessTransitive(a.file.path, b.file.path, a.file.path);
      PathLessIrreflexive(a.file.path);
    }
  }

  lemma {:induction false} SortOrders(s: seq<IndexedFile>)
    ensures Ordered(Sort(s)) && multiset(Sort(s)) == multiset(s)
  {
    if s != [] {
      SortOrders(s[..|s| - 1]);
      InsertOrders(s[|s| - 1], Sort(s[..|s| - 1]));
      assert s == s[..|s| - 1] + [s[|s| - 1]];
    }
  }

  /** Sorting files of distinct paths leaves no tie. */
  lemma SortOfDistinct(s: seq<IndexedFile>)
    requires UniquePaths(s)
    ensures StrictlyOrdered(Sort(s))
  {
    SortOrders(s);
    var r := Sort(s);
    forall i, j | 0 <= i < j < |r| ensures Before(r[i], r[j]) {
      if r[i].file.path == r[j].file.path {
        TwiceInMultiset(r, i, j);
        UniqueOnce(s, r[i], r[j]);
      }
      PathLessTotal(r[i].file.path, r[j].file.path);
    }
  }

  lemma TwiceInMultiset(r: seq<IndexedFile>, i: nat, j: nat)
    requires i < j < |r|
    ensures r[i] != r[j] ==> multiset(r)[r[i]] >= 1 && multiset(r)[r[j]] >= 1
    ensures r[i] == r[j] ==> multiset(r)[r[i]] >= 2
  {
    var front, back := r[..j], r[j..];
    assert r == front + back;
    assert front[i] in multiset(front) && back[0] in multiset(back);
  }

  lemma {:induction false} UniqueOnce(s: seq<IndexedFile>, a: IndexedFile, b: IndexedFile)
    requires UniquePaths(s) && a in s && b in s && a.file.path == b.file.path
    ensures a == b && multiset(s)[a] == 1
  {
    var i :| 0 <= i < |s| && s[i] == a;
    var j :| 0 <= j < |s| && s[j] == b;
    assert s == s[..i] + [s[i]] + s[i + 1..];
    assert a !in s[..i] && a !in s[i + 1..];
    assert multiset(s) == multiset(s[..i]) + multiset{a} + multiset(s[i + 1..]);
  }

  /** At most one sequence lists a set of files in publication order. */
  lemma {:induction false} OrderUnique(a: seq<IndexedFile>, b: seq<IndexedFile>)
    requires StrictlyOrdered(a) && StrictlyOrdered(b)
    requires forall x :: x in a <==> x in b
    ensures a == b
  {
    assert a != [] ==> a[0] in b;
    assert b != [] ==> b[0] in a;
    if a != [] && b != [] {
      if a[0] != b[0] {
        var i :| 0 <= i < |b| && b[i] == a[0];
        var j :| 0 <= j < |a| && a[j] == b[0];
        assert Before(a[0], b[0]) && Before(b[0], a[0]);
        BeforeAsymmetric(a[0], b[0]);
      }
      HeadOnce(a);
      HeadOnce(b);
      forall x ensures x in a[1..] <==> x in b[1..] {
        assert x in a <==> x == a[0] || x in a[1..];
        assert x in b <==> x == b[0] || x in b[1..];
      }
      OrderUnique(a[1..], b[1..]);
      assert a == [a[0]] + a[1..] && b == [b[0]] + b[1..];
    }
  }

  lemma HeadOnce(a: seq<IndexedFile>)
    requires StrictlyOrdered(a) && a != []
    ensures a[0] !in a[1..]
  {
    if a[0] in a[1..] {
      var i :| 0 <= i < |a[1..]| && a[1..][i] == a[0];
      assert Before(a[0], a[i + 1]);
      PathLessIrreflexive(a[0].file.path);
    }
  }

  /** `picked` is an answer to `q`: exactly the matching files, in publication order. */
  ghost predicate Answers(ix: Index, q: Query, picked: seq<IndexedFile>) {
    && Ordered(picked)
    && (forall x :: x in picked <==> Matches(ix, q, x))
    && (DistinctPaths(ix, q) ==> StrictlyOrdered(picked))
  }

  /**
   An answer holds exactly the live files of the queried database and table, of every node but the
   excluded one, that neither end before the lower bound nor start after the upper one; and it lists
   them by log position, and by path where the positions are the same.
   */
  lemma AnswerMeans(ix: Index, q: Query, picked: seq<IndexedFile>)
    requires Answers(ix, q, picked)
    ensures forall x :: x in picked <==>
      && (q.filter.lower.Some? ==> q.filter.lower.value <= x.file.maxTime)
      && (q.filter.upper.Some? ==> x.file.minTime <= q.filter.upper.value)
      && LiveIn(ix, q, x)
    ensures forall i, j :: 0 <= i < j < |picked| ==>
      || picked[i].addedAt < picked[j].addedAt
      || (picked[i].addedAt == picked[j].addedAt && !PathLess(picked[j].file.path, picked[i].file.path))
  {
    forall x
      ensures x in picked <==>
        && (q.filter.lower.Some? ==> q.filter.lower.value <= x.file.maxTime)
        && (q.filter.upper.Some? ==> x.file.minTime <= q.filter.upper.value)
        && LiveIn(ix, q, x)
    {
      OverlapsIff(q.filter, x.file.minTime, x.file.maxTime);
      if LiveIn(ix, q, x) {
        var k: TableKey :| k.db == q.db && k.table == q.table && q.excluded != Some(k.node) && x in Files(ix, k);
        assert q.InScope(k);
      }
    }
  }

  /**
   Two replicas at the same view give the same files in the same order, however each of them
   happens to walk its hash maps.
   */
  lemma ReplicasAgree(a: Index, b: Index, q: Query, pa: seq<IndexedFile>, pb: seq<IndexedFile>)
    requires SameView(a, b) && DistinctPaths(a, q)
    requires Answers(a, q, pa) && Answers(b, q, pb)
    ensures pa == pb
  {
    assert DistinctPaths(b, q) by {
      forall k, l, i, j |
        && q.InScope(k) && q.InScope(l)
        && 0 <= i < |Files(b, k)| && 0 <= j < |Files(b, l)|
        && Files(b, k)[i].file.path == Files(b, l)[j].file.path
        ensures k == l && i == j
      {
        assert Files(a, k) == Files(b, k) && Files(a, l) == Files(b, l);
      }
    }
    forall x ensures Matches(a, q, x) <==> Matches(b, q, x) {
      if Matches(a, q, x) {
        var k :| q.InScope(k) && x in Files(a, k);
        assert x in Files(b, k);
      }
      if Matches(b, q, x) {
        var k :| q.InScope(k) && x in Files(b, k);
        assert x in Files(a, k);
      }
    }
    OrderUnique(pa, pb);
  }

  // ---- Chunk orders ----

  datatype Chunk = Local(id: nat) | Peer(file: ParquetFile, order: nat)

  function PlainFiles(picked: seq<IndexedFile>): seq<ParquetFile> {
    seq(|picked|, i requires 0 <= i < |picked| => picked[i].file)
  }

  /** Local chunks first, then every peer file with its position as its order. */
  ghost predicate Positioned(local: seq<Chunk>, peers: seq<ParquetFile>, chunks: seq<Chunk>) {
    && |chunks| == |local| + |peers|
    && chunks[..|local|] == local
    && (forall i :: 0 <= i < |peers| ==> chunks[|local| + i] == Peer(peers[i], |local| + i))
  }

  /** Too many files for one query is an error that reports the total. */
  method TableChunks(local: seq<Chunk>, peers: seq<ParquetFile>, fileLimit: nat)
    returns (r: Result<seq<Chunk>, nat>)
    ensures r.Failure? <==> peers != [] && |local| + |peers| > fileLimit
    ensures r.Failure? ==> r.error == |local| + |peers|
    ensures r.Success? ==> Positioned(local, peers, r.value)
  {
    if peers == [] {
      return Success(local);
    }
    if |local| + |peers| > fileLimit {
      return Failure(|local| + |peers|);
    }
    var chunks := local;
    for i := 0 to |peers|
      invariant Positioned(local, peers[..i], chunks)
    {
      chunks := chunks + [Peer(peers[i], |local| + i)];
    }
    assert peers[..|peers|] == peers;
    r := Success(chunks);
  }

  /**
   Among the peer files of one answer, the later publication always has the strictly higher
   order, and so wins deduplication.
   */
  lemma LaterPublicationWins(ix: Index, q: Query, picked: seq<IndexedFile>, local: seq<Chunk>,
                             chunks: seq<Chunk>, c: nat, d: nat)
    requires Answers(ix, q, picked) && Positioned(local, PlainFiles(picked), chunks)
    requires |local| <= c < |chunks| && |local| <= d < |chunks|
    requires picked[c - |local|].addedAt < picked[d - |local|].addedAt
    ensures chunks[c] == Peer(picked[c - |local|].file, c) && chunks[d] == Peer(picked[d - |local|].file, d)
    ensures chunks[c].order < chunks[d].order
  {
    var i, j := c - |local|, d - |local|;
    assert PlainFiles(picked)[i] == picked[i].file && PlainFiles(picked)[j] == picked[j].file;
    assert chunks[|local| + i] == Peer(picked[i].file, c);
    assert chunks[|local| + j] == Peer(picked[j].file, d);
    assert Before(picked[i], picked[j]);
  }
}
