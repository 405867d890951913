/**
 Choosing which files to merge: the eligible files in time order, packed greedily into runs. The
 packing is optimal, the merged record covers its inputs, and merging with nothing new coming in
 comes to an end.
 */
module MergeSelection {
  import opened ParquetFiles

  datatype CompactionConfig = CompactionConfig(maxInputSizeBytes: nat, targetSizeBytes: nat, maxInputs: nat)

  datatype MergeGroup = MergeGroup(db: nat, table: nat, inputs: seq<ParquetFile>)

  /** Cold and small. */
  predicate Eligible(f: ParquetFile, coldBefore: int, cfg: CompactionConfig) {
    f.chunkTime < coldBefore && f.sizeBytes < cfg.maxInputSizeBytes
  }

  function EligibleOf(files: seq<ParquetFile>, coldBefore: int, cfg: CompactionConfig): (r: seq<ParquetFile>)
    ensures forall f :: f in r <==> f in files && f.chunkTime < coldBefore && f.sizeBytes < cfg.maxInputSizeBytes
    ensures |r| <= |files|
  {
    if files == [] then []
    else
      var rest := EligibleOf(files[1..], coldBefore, cfg);
      if Eligible(files[0], coldBefore, cfg) then [files[0]] + rest else rest
  }

  /** The eligible files keep their order, and each is kept once for every time it is there. */
  lemma {:induction false} EligibleOfConcat(
      a: seq<ParquetFile>, b: seq<ParquetFile>, coldBefore: int, cfg: CompactionConfig)
    ensures EligibleOf(a + b, coldBefore, cfg) == EligibleOf(a, coldBefore, cfg) + EligibleOf(b, coldBefore, cfg)
    ensures |a| == 1 ==>
      EligibleOf(a, coldBefore, cfg) ==
        if a[0].chunkTime < coldBefore && a[0].sizeBytes < cfg.maxInputSizeBytes then a else []
  {
    if a == [] {
      assert a + b == b;
    } else {
      assert (a + b)[0] == a[0] && (a + b)[1..] == a[1..] + b;
      EligibleOfConcat(a[1..], b, coldBefore, cfg);
      if |a| == 1 { assert a == [a[0]] && EligibleOf(a[1..], coldBefore, cfg) == []; }
    }
  }

  // ---- The stable sort by (chunk time, min time) ----

  predicate KeyAtMost(a: ParquetFile, b: ParquetFile) {
    a.chunkTime < b.chunkTime || (a.chunkTime == b.chunkTime && a.minTime <= b.minTime)
  }

  ghost predicate InTimeOrder(s: seq<ParquetFile>) {
    forall i, j :: 0 <= i < j < |s| ==> KeyAtMost(s[i], s[j])
  }

  /** The files of `s` with the chunk time and min time of `f`, in the order of `s`. */
  function WithKey(s: seq<ParquetFile>, f: ParquetFile): seq<ParquetFile> {
    if s == [] then []
    else if s[0].chunkTime == f.chunkTime && s[0].minTime == f.minTime then [s[0]] + WithKey(s[1..], f)
    else WithKey(s[1..], f)
  }

  function Insert(f: ParquetFile, s: seq<ParquetFile>): seq<ParquetFile> {
    if s == [] || KeyAtMost(f, s[0]) then [f] + s else [s[0]] + Insert(f, s[1..])
  }

  function SortByTime(s: seq<ParquetFile>): seq<ParquetFile> {
    if s == [] then [] else Insert(s[0], SortByTime(s[1..]))
  }

  lemma {:induction false} InsertSorted(f: ParquetFile, s: seq<ParquetFile>)
    requires InTimeOrder(s)
    ensures InTimeOrder(Insert(f, s)) && multiset(Insert(f, s)) == multiset(s) + multiset{f}
  {
    if s == [] || KeyAtMost(f, s[0]) {
      assert ([f] + s)[1..] == s;
    } else {
      InsertSorted(f, s[1..]);
      var r := Insert(f, s[1..]);
      assert s == [s[0]] + s[1..];
      assert ([s[0]] + r)[1..] == r;
      forall j | 0 <= j < |r| ensures KeyAtMost(s[0], r[j]) {
        assert r[j] in multiset(r);
        assert r[j] == f || r[j] in s[1..];
      }
    }
  }

  lemma {:induction false} InsertStable(f: ParquetFile, s: seq<ParquetFile>, g: ParquetFile)
    ensures WithKey(Insert(f, s), g) ==
      if f.chunkTime == g.chunkTime && f.minTime == g.minTime then [f] + WithKey(s, g) else WithKey(s, g)
  {
    if s == [] || KeyAtMost(f, s[0]) {
      assert ([f] + s)[1..] == s;
    } else {
      InsertStable(f, s[1..], g);
      assert ([s[0]] + Insert(f, s[1..]))[1..] == Insert(f, s[1..]);
    }
  }

  /** Sorting rearranges, orders by key and keeps the order of files with equal keys. */
  lemma {:induction false} SortByTimeCorrect(s: seq<ParquetFile>)
    ensures InTimeOrder(SortByTime(s)) && multiset(SortByTime(s)) == multiset(s)
    ensures forall f :: WithKey(SortByTime(s), f) == WithKey(s, f)
  {
    if s != [] {
      SortByTimeCorrect(s[1..]);
      InsertSorted(s[0], SortByTime(s[1..]));
      forall f ensures WithKey(SortByTime(s), f) == WithKey(s, f) {
        InsertStable(s[0], SortByTime(s[1..]), f);
      }
      assert s == [s[0]] + s[1..];
    }
  }

  /** The key is the chunk time, and the min time between equal chunk times. */
  lemma SortedByChunkTime(s: seq<ParquetFile>, i: nat, j: nat)
    requires i < j < |SortByTime(s)|
    ensures var a, b := SortByTime(s)[i], SortByTime(s)[j];
      a.chunkTime < b.chunkTime || (a.chunkTime == b.chunkTime && a.minTime <= b.minTime)
  {
    SortByTimeCorrect(s);
  }

  lemma SortByTimeMembers(s: seq<ParquetFile>)
    ensures |SortByTime(s)| == |s| && forall f :: f in SortByTime(s) <==> f in s
  {
    SortByTimeCorrect(s);
    assert |multiset(SortByTime(s))| == |multiset(s)|;
    forall f ensures f in SortByTime(s) <==> f in s {
      assert f in multiset(SortByTime(s)) <==> f in multiset(s);
    }
  }

  lemma {:induction false} WithKeyHead(s: seq<ParquetFile>, f: ParquetFile)
    requires InTimeOrder(s) && WithKey(s, f) != []
    ensures s != [] && KeyAtMost(s[0], f)
  {
    if s[0].chunkTime != f.chunkTime || s[0].minTime != f.minTime {
      WithKeyHead(s[1..], f);
      assert KeyAtMost(s[0], s[1]);
    }
  }

  lemma OwnKey(s: seq<ParquetFile>)
    ensures s == [] || exists f :: WithKey(s, f) != []
  {
    if s != [] { assert WithKey(s, s[0]) != []; }
  }

  /** Order by key and order within a key leave one arrangement. */
  lemma {:induction false} StableSortUnique(a: seq<ParquetFile>, b: seq<ParquetFile>)
    requires InTimeOrder(a) && InTimeOrder(b)
    requires forall f :: WithKey(a, f) == WithKey(b, f)
    ensures a == b
  {
    if a == [] {
      OwnKey(b);
    } else {
      assert WithKey(b, a[0]) == WithKey(a, a[0]);
      WithKeyHead(b, a[0]);
      assert WithKey(a, b[0]) == WithKey(b, b[0]);
      WithKeyHead(a, b[0]);
      assert a[0] == WithKey(a, a[0])[0] && b[0] == WithKey(b, a[0])[0];
      forall f ensures WithKey(a[1..], f) == WithKey(b[1..], f) {
        assert WithKey(a, f) == WithKey(b, f);
        if a[0].chunkTime == f.chunkTime && a[0].minTime == f.minTime {
          assert WithKey(a[1..], f) == WithKey(a, f)[1..] && WithKey(b[1..], f) == WithKey(b, f)[1..];
        }
      }
      StableSortUnique(a[1..], b[1..]);
      assert a == [a[0]] + a[1..] && b == [b[0]] + b[1..];
    }
  }

  // ---- Packing ----

  function Size(g: seq<ParquetFile>): nat { if g == [] then 0 else g[0].sizeBytes + Size(g[1..]) }

  /** A single file, or several within both limits. */
  predicate Fits(g: seq<ParquetFile>, cfg: CompactionConfig) {
    |g| <= 1 || (Size(g) <= cfg.targetSizeBytes && |g| <= cfg.maxInputs)
  }

  lemma {:induction false} SizeConcat(a: seq<ParquetFile>, b: seq<ParquetFile>)
    ensures Size(a + b) == Size(a) + Size(b)
  {
    if a == [] {
      assert a + b == b;
    } else {
      assert (a + b)[1..] == a[1..] + b;
      SizeConcat(a[1..], b);
    }
  }

  /** Any run inside a fitting run fits. */
  lemma RunFits(g: seq<ParquetFile>, i: nat, j: nat, cfg: CompactionConfig)
    requires Fits(g, cfg) && i <= j <= |g|
    ensures Fits(g[i..j], cfg)
  {
    assert g == g[..i] + (g[i..j] + g[j..]);
    SizeConcat(g[..i], g[i..j] + g[j..]);
    SizeConcat(g[i..j], g[j..]);
  }

  lemma OneFits(files: seq<ParquetFile>, cfg: CompactionConfig)
    requires files != []
    ensures Fits(files[..1], cfg)
  {
  }

  lemma PrefixFits(files: seq<ParquetFile>, n: nat, m: nat, cfg: CompactionConfig)
    requires n <= m <= |files| && Fits(files[..m], cfg)
    ensures Fits(files[..n], cfg)
  {
    RunFits(files[..m], 0, n, cfg);
    assert files[..m][0..n] == files[..n];
  }

  /** The length of the longest fitting prefix, given that the first `n` files fit. */
  function LongestFit(files: seq<ParquetFile>, n: nat, cfg: CompactionConfig): (m: nat)
    requires 1 <= n <= |files| && Fits(files[..n], cfg)
    ensures n <= m <= |files| && Fits(files[..m], cfg)
    ensures m < |files| ==> !Fits(files[..m + 1], cfg)
    decreases |files| - n
  {
    if n < |files| && Fits(files[..n + 1], cfg) then LongestFit(files, n + 1, cfg) else n
  }

  /** The longest fitting prefix first, then the rest likewise. */
  function Pack(files: seq<ParquetFile>, cfg: CompactionConfig): seq<seq<ParquetFile>> {
    if files == [] then []
    else
      var n := LongestFit(files, 1, cfg);
      [files[..n]] + Pack(files[n..], cfg)
  }

  function Flatten(p: seq<seq<ParquetFile>>): seq<ParquetFile> {
    if p == [] then [] else p[0] + Flatten(p[1..])
  }

  /** `p` cuts `files` into consecutive non-empty runs, each of which fits. */
  ghost predicate Cuts(p: seq<seq<ParquetFile>>, files: seq<ParquetFile>, cfg: CompactionConfig) {
    Flatten(p) == files && forall i :: 0 <= i < |p| ==> p[i] != [] && Fits(p[i], cfg)
  }

  lemma {:induction false} PackCuts(files: seq<ParquetFile>, cfg: CompactionConfig)
    ensures Cuts(Pack(files, cfg), files, cfg)
    decreases |files|
  {
    hide Size, Fits, LongestFit;
    if files != [] {
      OneFits(files, cfg);
      var n := LongestFit(files, 1, cfg);
      PackCuts(files[n..], cfg);
      assert Pack(files, cfg)[1..] == Pack(files[n..], cfg);
      assert files == files[..n] + files[n..];
    }
  }

  lemma LongestIsLongest(files: seq<ParquetFile>, m: nat, cfg: CompactionConfig)
    requires 1 <= m <= |files| && Fits(files[..m], cfg)
    ensures LongestFit(files, 1, cfg) >= m
  {
    var n := LongestFit(files, 1, cfg);
    if n < m { PrefixFits(files, n + 1, m, cfg); }
  }

  /** Packing any suffix takes no more groups than any way of cutting the whole. */
  lemma {:induction false} PackSuffix(files: seq<ParquetFile>, k: nat, p: seq<seq<ParquetFile>>, cfg: CompactionConfig)
    requires k <= |files| && Flatten(p) == files && forall i :: 0 <= i < |p| ==> Fits(p[i], cfg)
    ensures |Pack(files[k..], cfg)| <= |p|
    decreases |p|
  {
    hide Size, Fits, LongestFit;
    if p != [] {
      var g, rest := p[0], Flatten(p[1..]);
      assert files == g + rest;
      if k >= |g| {
        assert files[k..] == rest[k - |g|..];
        PackSuffix(rest, k - |g|, p[1..], cfg);
      } else {
        var s := files[k..];
        assert s[..|g| - k] == g[k..];
        RunFits(g, k, |g|, cfg);
        assert g[k..|g|] == g[k..];
        LongestIsLongest(s, |g| - k, cfg);
        OneFits(s, cfg);
        var n := LongestFit(s, 1, cfg);
        assert s[n..] == rest[n + k - |g|..];
        PackSuffix(rest, n + k - |g|, p[1..], cfg);
      }
    }
  }

  /**
   Greedy packing uses the fewest groups: no way of cutting the files into runs of one file, or of at
   most `maxInputs` files of at most the target size together, has fewer.
   */
  lemma PackFewest(files: seq<ParquetFile>, p: seq<seq<ParquetFile>>, cfg: CompactionConfig)
    requires Flatten(p) == files
    requires forall i :: 0 <= i < |p| ==>
      |p[i]| == 1 || (|p[i]| <= cfg.maxInputs && Size(p[i]) <= cfg.targetSizeBytes)
    ensures |Pack(files, cfg)| <= |p|
  {
    assert files[0..] == files;
    PackSuffix(files, 0, p, cfg);
  }

  /** And it is such a way itself: no file is left out, moved or repeated, and no group is empty. */
  lemma PackWithinLimits(files: seq<ParquetFile>, cfg: CompactionConfig)
    ensures Flatten(Pack(files, cfg)) == files
    ensures forall i :: 0 <= i < |Pack(files, cfg)| ==>
      var g := Pack(files, cfg)[i];
      |g| == 1 || (2 <= |g| <= cfg.maxInputs && Size(g) <= cfg.targetSizeBytes)
  {
    PackCuts(files, cfg);
  }

  lemma LongestIs(files: seq<ParquetFile>, m: nat, cfg: CompactionConfig)
    requires 1 <= m <= |files| && Fits(files[..m], cfg)
    requires m == |files| || !Fits(files[..m + 1], cfg)
    ensures LongestFit(files, 1, cfg) == m
  {
    LongestIsLongest(files, m, cfg);
    var n := LongestFit(files, 1, cfg);
    if n > m { PrefixFits(files, m + 1, n, cfg); }
  }

  /** Closing a group that the next file would overfill is what `Pack` does. */
  lemma PackCloses(current: seq<ParquetFile>, rest: seq<ParquetFile>, cfg: CompactionConfig)
    requires current != [] && Fits(current, cfg) && (rest == [] || !Fits(current + [rest[0]], cfg))
    ensures Pack(current + rest, cfg) == [current] + Pack(rest, cfg)
  {
    var files := current + rest;
    assert files[..|current|] == current && files[|current|..] == rest;
    if rest != [] { assert files[..|current| + 1] == current + [rest[0]]; }
    LongestIs(files, |current|, cfg);
  }

  lemma SizeSnoc(g: seq<ParquetFile>, f: ParquetFile)
    ensures Size(g + [f]) == Size(g) + f.sizeBytes
  {
    SizeConcat(g, [f]);
  }

  /** Moving the next file into the running group leaves `Pack` as it was. */
  lemma PackMoves(current: seq<ParquetFile>, eligible: seq<ParquetFile>, i: nat)
    requires i < |eligible|
    ensures current + eligible[i..] == (current + [eligible[i]]) + eligible[i + 1..]
  {
  }

  /** The loop over the files: a running group and its running size. */
  method PackLoop(eligible: seq<ParquetFile>, cfg: CompactionConfig) returns (groups: seq<seq<ParquetFile>>)
    ensures groups == Pack(eligible, cfg)
  {
    SizeNothing();
    PackNothing(cfg);
    hide Pack, Size;
    groups := [];
    var current: seq<ParquetFile>, currentSize := [], 0;
    assert [] + eligible[0..] == eligible;
    for i := 0 to |eligible|
      invariant Fits(current, cfg) && currentSize == Size(current)
      invariant Pack(eligible, cfg) == groups + Pack(current + eligible[i..], cfg)
    {
      var file := eligible[i];
      SizeSnoc(current, file);
      if current != [] && (currentSize + file.sizeBytes > cfg.targetSizeBytes || |current| >= cfg.maxInputs) {
        PackCloses(current, eligible[i..], cfg);
        assert [] + eligible[i..] == eligible[i..];
        groups, current, currentSize := groups + [current], [], 0;
        SizeSnoc([], file);
      }
      PackMoves(current, eligible, i);
      currentSize := currentSize + file.sizeBytes;
      current := current + [file];
    }
    assert current + eligible[|eligible|..] == current + [];
    if current != [] {
      PackCloses(current, [], cfg);
      groups := groups + [current];
    }
  }

  lemma SizeNothing()
    ensures Size([]) == 0
  {
  }

  lemma PackNothing(cfg: CompactionConfig)
    ensures Pack([], cfg) == []
  {
  }

  // ---- Selection ----

  function Merging(p: seq<seq<ParquetFile>>): (r: seq<seq<ParquetFile>>)
    ensures forall g :: g in r <==> g in p && |g| >= 2
  {
    if p == [] then []
    else if |p[0]| >= 2 then [p[0]] + Merging(p[1..])
    else Merging(p[1..])
  }

  /** The groups chosen for one table. */
  function Chosen(files: seq<ParquetFile>, coldBefore: int, cfg: CompactionConfig): seq<seq<ParquetFile>> {
    Merging(Pack(SortByTime(EligibleOf(files, coldBefore, cfg)), cfg))
  }

  lemma FewNotMerged(s: seq<ParquetFile>, cfg: CompactionConfig)
    requires |s| < 2
    ensures Merging(Pack(s, cfg)) == []
  {
  }

  lemma {:induction false} GroupWithin(p: seq<seq<ParquetFile>>, g: seq<ParquetFile>)
    requires g in p
    ensures |g| <= |Flatten(p)| && forall f :: f in g ==> f in Flatten(p)
  {
    if g != p[0] { GroupWithin(p[1..], g); }
  }

  method SelectMerges(db: nat, table: nat, files: seq<ParquetFile>, coldBefore: int, cfg: CompactionConfig)
    returns (groups: seq<MergeGroup>)
    ensures |groups| == |Chosen(files, coldBefore, cfg)|
    ensures forall i :: 0 <= i < |groups| ==> groups[i] == MergeGroup(db, table, Chosen(files, coldBefore, cfg)[i])
  {
    var eligible := EligibleOf(files, coldBefore, cfg);
    SortByTimeMembers(eligible);
    if |eligible| < 2 {
      FewNotMerged(SortByTime(eligible), cfg);
      return [];
    }
    eligible := SortByTime(eligible);
    var packed := PackLoop(eligible, cfg);
    var kept := Merging(packed);
    groups := seq(|kept|, i requires 0 <= i < |kept| => MergeGroup(db, table, kept[i]));
  }

  /** Chosen groups hold 2 to `maxInputs` eligible files of the table, within the size target. */
  lemma ChosenWithinLimits(files: seq<ParquetFile>, coldBefore: int, cfg: CompactionConfig, g: seq<ParquetFile>)
    requires g in Chosen(files, coldBefore, cfg)
    ensures 2 <= |g| <= cfg.maxInputs && Size(g) <= cfg.targetSizeBytes
    ensures forall f :: f in g ==> f in files && f.chunkTime < coldBefore && f.sizeBytes < cfg.maxInputSizeBytes
  {
    var eligible := EligibleOf(files, coldBefore, cfg);
    var sorted := SortByTime(eligible);
    PackCuts(sorted, cfg);
    GroupWithin(Pack(sorted, cfg), g);
    SortByTimeMembers(eligible);
  }

  predicate IsRun(g: seq<ParquetFile>, s: seq<ParquetFile>, at: nat) {
    at + |g| <= |s| && s[at..at + |g|] == g
  }

  /** The groups are runs of `s`, one after the other, from position `from` on. */
  ghost predicate Runs(groups: seq<seq<ParquetFile>>, s: seq<ParquetFile>, from: nat)
    decreases |groups|
  {
    groups == [] ||
    exists at: nat :: from <= at && IsRun(groups[0], s, at) && Runs(groups[1..], s, at + |groups[0]|)
  }

  lemma {:induction false} RunsOfCut(p: seq<seq<ParquetFile>>, s: seq<ParquetFile>, from: nat)
    requires from <= |s| && Flatten(p) == s[from..]
    ensures Runs(Merging(p), s, from)
    decreases |p|
  {
    if p != [] {
      var next := from + |p[0]|;
      assert s[from..][..|p[0]|] == p[0] && s[from..][|p[0]|..] == Flatten(p[1..]);
      assert s[from..next] == p[0] && s[next..] == Flatten(p[1..]);
      RunsOfCut(p[1..], s, next);
      if |p[0]| >= 2 {
        assert IsRun(p[0], s, from);
        assert Merging(p)[0] == p[0] && Merging(p)[1..] == Merging(p[1..]);
      } else {
        LaterRuns(Merging(p[1..]), s, next, from);
      }
    }
  }

  lemma LaterRuns(groups: seq<seq<ParquetFile>>, s: seq<ParquetFile>, from: nat, earlier: nat)
    requires Runs(groups, s, from) && earlier <= from
    ensures Runs(groups, s, earlier)
  {
  }

  /** Chosen groups are disjoint runs of the eligible files in time order. */
  lemma ChosenAreRuns(files: seq<ParquetFile>, coldBefore: int, cfg: CompactionConfig)
    ensures Runs(Chosen(files, coldBefore, cfg), SortByTime(EligibleOf(files, coldBefore, cfg)), 0)
  {
    var sorted := SortByTime(EligibleOf(files, coldBefore, cfg));
    PackCuts(sorted, cfg);
    assert sorted[0..] == sorted;
    RunsOfCut(Pack(sorted, cfg), sorted, 0);
  }

  /** How many files merging the groups removes. */
  function Saved(groups: seq<seq<ParquetFile>>): int {
    if groups == [] then 0 else |groups[0]| - 1 + Saved(groups[1..])
  }

  lemma {:induction false} SavedMerging(p: seq<seq<ParquetFile>>)
    requires forall i :: 0 <= i < |p| ==> p[i] != []
    ensures Saved(Merging(p)) == |Flatten(p)| - |p|
  {
    if p != [] {
      SavedMerging(p[1..]);
      if |p[0]| >= 2 { assert Merging(p)[1..] == Merging(p[1..]); }
    }
  }

  /**
   No other choice of runs within the limits leaves fewer of the same files behind: merging the chosen
   groups removes at least as many files as cutting them any other way does.
   */
  lemma ChosenSavesMost(files: seq<ParquetFile>, coldBefore: int, cfg: CompactionConfig, p: seq<seq<ParquetFile>>)
    requires Flatten(p) == SortByTime(EligibleOf(files, coldBefore, cfg))
    requires forall i :: 0 <= i < |p| ==>
      |p[i]| == 1 || (2 <= |p[i]| <= cfg.maxInputs && Size(p[i]) <= cfg.targetSizeBytes)
    ensures Saved(Chosen(files, coldBefore, cfg)) >= |Flatten(p)| - |p| == Saved(Merging(p))
  {
    var sorted := SortByTime(EligibleOf(files, coldBefore, cfg));
    PackCuts(sorted, cfg);
    PackFewest(sorted, p, cfg);
    SavedMerging(p);
    SavedMerging(Pack(sorted, cfg));
  }

  // ---- The merged record ----

  function Min(a: int, b: int): int { if a <= b then a else b }

  function Max(a: int, b: int): int { if a >= b then a else b }

  function LeastChunkTime(g: seq<ParquetFile>): int
    requires g != []
  {
    if |g| == 1 then g[0].chunkTime else Min(g[0].chunkTime, LeastChunkTime(g[1..]))
  }

  function LeastMinTime(g: seq<ParquetFile>): int
    requires g != []
  {
    if |g| == 1 then g[0].minTime else Min(g[0].minTime, LeastMinTime(g[1..]))
  }

  function GreatestMaxTime(g: seq<ParquetFile>): int
    requires g != []
  {
    if |g| == 1 then g[0].maxTime else Max(g[0].maxTime, GreatestMaxTime(g[1..]))
  }

  /** The record announced for a merge of `g`; the owner gives it its id. */
  function Merged(g: seq<ParquetFile>, path: Path, sizeBytes: nat, rowCount: nat): ParquetFile
    requires g != []
  {
    ParquetFile(0, path, sizeBytes, rowCount, LeastChunkTime(g), LeastMinTime(g), GreatestMaxTime(g))
  }

  /** The bounds hold for every file and are each reached by one. */
  lemma {:induction false} BoundsTight(g: seq<ParquetFile>)
    requires g != []
    ensures forall f :: f in g ==>
      LeastChunkTime(g) <= f.chunkTime && LeastMinTime(g) <= f.minTime && f.maxTime <= GreatestMaxTime(g)
    ensures exists f :: f in g && f.chunkTime == LeastChunkTime(g)
    ensures exists f :: f in g && f.minTime == LeastMinTime(g)
    ensures exists f :: f in g && f.maxTime == GreatestMaxTime(g)
  {
    assert g[0] in g;
    if |g| > 1 {
      BoundsTight(g[1..]);
      forall f | f in g[1..] ensures f in g {}
    }
  }

  /**
   The merged file is found by every time filter that finds one of its inputs, spans no more than
   they do, and is as cold as they are.
   */
  lemma MergedCovers(files: seq<ParquetFile>, coldBefore: int, cfg: CompactionConfig, g: seq<ParquetFile>,
                     path: Path, sizeBytes: nat, rowCount: nat)
    requires g in Chosen(files, coldBefore, cfg)
    ensures var m := Merged(g, path, sizeBytes, rowCount);
      && m.chunkTime < coldBefore
      && (forall f, filter: ChunkFilter ::
            f in g && filter.Overlaps(f.minTime, f.maxTime) ==> filter.Overlaps(m.minTime, m.maxTime))
      && (exists f :: f in g && f.minTime == m.minTime)
      && (exists f :: f in g && f.maxTime == m.maxTime)
  {
    ChosenWithinLimits(files, coldBefore, cfg, g);
    BoundsTight(g);
  }
}
