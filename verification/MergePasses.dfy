/**
 Recording merges at the owner, pass after pass. With nothing new coming in, every recorded merge
 makes the table shorter, so all passes together record fewer merges than the table had files.
 */
module MergePasses {
  import opened Wrappers
  import opened ParquetFiles
  import opened MergeSelection

  function Paths(files: seq<ParquetFile>): set<Path> { set f | f in files :: f.path }

  ghost predicate DistinctPaths(files: seq<ParquetFile>) {
    forall i, j :: 0 <= i < j < |files| ==> files[i].path != files[j].path
  }

  function Keep(files: seq<ParquetFile>, removed: set<Path>): seq<ParquetFile> {
    if files == [] then []
    else if files[0].path in removed then Keep(files[1..], removed)
    else [files[0]] + Keep(files[1..], removed)
  }

  /** The owner adds the merged file, unless it has that path, and then drops the inputs. */
  function Record(files: seq<ParquetFile>, g: seq<ParquetFile>, merged: ParquetFile): seq<ParquetFile> {
    Keep(if merged.path in Paths(files) then files else files + [merged], Paths(g))
  }

  /** What became of a pass's groups: recorded as a merged file, or failed and left in place. */
  function RecordAll(files: seq<ParquetFile>, groups: seq<seq<ParquetFile>>, outcomes: seq<Option<ParquetFile>>)
    : seq<ParquetFile>
    requires |groups| == |outcomes|
    decreases |groups|
  {
    if groups == [] then files
    else
      var next := match outcomes[0]
        case Some(m) => Record(files, groups[0], m)
        case None => files;
      RecordAll(next, groups[1..], outcomes[1..])
  }

  // ---- Counting ----

  lemma {:induction false} DistinctSize(files: seq<ParquetFile>)
    requires DistinctPaths(files)
    ensures |Paths(files)| == |files|
  {
    if files != [] {
      DistinctSize(files[1..]);
      assert files == [files[0]] + files[1..];
      assert Paths(files) == {files[0].path} + Paths(files[1..]);
      assert files[0].path !in Paths(files[1..]);
    }
  }

  lemma {:induction false} KeepFacts(files: seq<ParquetFile>, removed: set<Path>)
    ensures Paths(Keep(files, removed)) == Paths(files) - removed
    ensures DistinctPaths(files) ==> DistinctPaths(Keep(files, removed))
  {
    if files != [] {
      var rest := Keep(files[1..], removed);
      KeepFacts(files[1..], removed);
      assert files == [files[0]] + files[1..];
      assert Paths(files) == {files[0].path} + Paths(files[1..]);
      if files[0].path !in removed {
        assert Paths([files[0]] + rest) == {files[0].path} + Paths(rest);
        if DistinctPaths(files) {
          forall j | 0 <= j < |rest| ensures rest[j].path != files[0].path {
            assert rest[j] in rest && rest[j].path in Paths(files[1..]);
          }
        }
      }
    }
  }

  lemma AddFresh(files: seq<ParquetFile>, m: ParquetFile)
    requires DistinctPaths(files) && m.path !in Paths(files)
    ensures DistinctPaths(files + [m]) && Paths(files + [m]) == Paths(files) + {m.path}
  {
  }

  lemma SwapSize(all: set<Path>, part: set<Path>, x: Path)
    requires part <= all && x !in all
    ensures all + {x} - part == all - part + {x} && |all - part + {x}| == |all| - |part| + 1
  {
  }

  lemma RecordOne(files: seq<ParquetFile>, g: seq<ParquetFile>, m: ParquetFile)
    requires DistinctPaths(files) && DistinctPaths(g) && Paths(g) <= Paths(files) && m.path !in Paths(files)
    ensures DistinctPaths(Record(files, g, m)) && Paths(Record(files, g, m)) == Paths(files) - Paths(g) + {m.path}
    ensures |Record(files, g, m)| == |files| - |g| + 1
  {
    hide DistinctPaths, Paths, Keep;
    AddFresh(files, m);
    KeepFacts(files + [m], Paths(g));
    SwapSize(Paths(files), Paths(g), m.path);
    DistinctSize(files);
    DistinctSize(g);
    DistinctSize(Record(files, g, m));
  }

  /** The table then lists the merged file and every file but the inputs, and nothing else. */
  lemma {:induction false} RecordLeaves(files: seq<ParquetFile>, g: seq<ParquetFile>, m: ParquetFile)
    requires m.path !in Paths(files) && Paths(g) <= Paths(files)
    ensures forall f :: f in Record(files, g, m) <==>
      f == m || (f in files && forall x :: x in g ==> x.path != f.path)
  {
    KeepMembers(files + [m], Paths(g));
  }

  lemma {:induction false} KeepMembers(files: seq<ParquetFile>, removed: set<Path>)
    ensures forall f :: f in Keep(files, removed) <==> f in files && f.path !in removed
  {
    if files != [] {
      KeepMembers(files[1..], removed);
      assert files == [files[0]] + files[1..];
    }
  }

  /** The merged files of a pass have new, different paths. */
  ghost predicate FreshPaths(outcomes: seq<Option<ParquetFile>>, files: seq<ParquetFile>) {
    && (forall i :: 0 <= i < |outcomes| && outcomes[i].Some? ==> outcomes[i].value.path !in Paths(files))
    && (forall i, j :: 0 <= i < j < |outcomes| && outcomes[i].Some? && outcomes[j].Some? ==>
          outcomes[i].value.path != outcomes[j].value.path)
  }

  function RecordedSaving(groups: seq<seq<ParquetFile>>, outcomes: seq<Option<ParquetFile>>): int
    requires |groups| == |outcomes|
  {
    if groups == [] then 0
    else (if outcomes[0].Some? then |groups[0]| - 1 else 0) + RecordedSaving(groups[1..], outcomes[1..])
  }

  function Recorded(outcomes: seq<Option<ParquetFile>>): nat {
    if outcomes == [] then 0 else (if outcomes[0].Some? then 1 else 0) + Recorded(outcomes[1..])
  }

  lemma PathsConcat(a: seq<ParquetFile>, b: seq<ParquetFile>)
    ensures Paths(a + b) == Paths(a) + Paths(b)
  {
  }

  lemma DistinctSplit(a: seq<ParquetFile>, b: seq<ParquetFile>)
    requires DistinctPaths(a + b)
    ensures DistinctPaths(a) && DistinctPaths(b) && Paths(a) !! Paths(b)
  {
    forall i, j | 0 <= i < j < |a| ensures a[i].path != a[j].path {
      assert (a + b)[i] == a[i] && (a + b)[j] == a[j];
    }
    forall i, j | 0 <= i < j < |b| ensures b[i].path != b[j].path {
      assert (a + b)[|a| + i] == b[i] && (a + b)[|a| + j] == b[j];
    }
    forall i, j | 0 <= i < |a| && 0 <= j < |b| ensures a[i].path != b[j].path {
      assert (a + b)[i] == a[i] && (a + b)[|a| + j] == b[j];
    }
  }

  lemma {:induction false} RecordMany(files: seq<ParquetFile>, groups: seq<seq<ParquetFile>>,
      outcomes: seq<Option<ParquetFile>>)
    requires |groups| == |outcomes| && DistinctPaths(files) && FreshPaths(outcomes, files)
    requires DistinctPaths(Flatten(groups)) && Paths(Flatten(groups)) <= Paths(files)
    ensures DistinctPaths(RecordAll(files, groups, outcomes))
    ensures |RecordAll(files, groups, outcomes)| == |files| - RecordedSaving(groups, outcomes)
    decreases |groups|
  {
    if groups != [] {
      DistinctSplit(groups[0], Flatten(groups[1..]));
      PathsConcat(groups[0], Flatten(groups[1..]));
      if outcomes[0].Some? {
        RecordOne(files, groups[0], outcomes[0].value);
        RecordMany(Record(files, groups[0], outcomes[0].value), groups[1..], outcomes[1..]);
      } else {
        RecordMany(files, groups[1..], outcomes[1..]);
      }
    }
  }

  // ---- The chosen groups are disjoint parts of the table ----

  lemma {:induction false} EligibleDistinct(files: seq<ParquetFile>, coldBefore: int, cfg: CompactionConfig)
    requires DistinctPaths(files)
    ensures DistinctPaths(EligibleOf(files, coldBefore, cfg))
    ensures Paths(EligibleOf(files, coldBefore, cfg)) <= Paths(files)
  {
    if files != [] {
      var rest := EligibleOf(files[1..], coldBefore, cfg);
      EligibleDistinct(files[1..], coldBefore, cfg);
      forall j | 0 <= j < |rest| ensures rest[j].path != files[0].path {
        assert rest[j] in rest && rest[j] in files[1..];
      }
    }
  }

  lemma {:induction false} InsertDistinct(f: ParquetFile, s: seq<ParquetFile>)
    requires DistinctPaths(s) && f.path !in Paths(s)
    ensures DistinctPaths(Insert(f, s)) && Paths(Insert(f, s)) == Paths(s) + {f.path}
  {
    if s == [] || KeyAtMost(f, s[0]) {
      assert Paths([f] + s) == {f.path} + Paths(s);
      forall j | 0 <= j < |s| ensures s[j].path != f.path { assert s[j] in s; }
    } else {
      var r := Insert(f, s[1..]);
      assert s == [s[0]] + s[1..];
      assert Paths(s) == {s[0].path} + Paths(s[1..]);
      InsertDistinct(f, s[1..]);
      assert Paths([s[0]] + r) == {s[0].path} + Paths(r);
      forall j | 0 <= j < |r| ensures r[j].path != s[0].path {
        assert r[j] in r && r[j].path in Paths(r);
        assert s[0].path !in Paths(s[1..]);
      }
    }
  }

  lemma {:induction false} SortDistinct(s: seq<ParquetFile>)
    requires DistinctPaths(s)
    ensures DistinctPaths(SortByTime(s)) && Paths(SortByTime(s)) == Paths(s)
  {
    if s != [] {
      SortDistinct(s[1..]);
      assert s == [s[0]] + s[1..];
      assert Paths(s) == {s[0].path} + Paths(s[1..]);
      InsertDistinct(s[0], SortByTime(s[1..]));
    }
  }

  lemma {:induction false} MergingDistinct(p: seq<seq<ParquetFile>>)
    requires DistinctPaths(Flatten(p))
    ensures DistinctPaths(Flatten(Merging(p))) && Paths(Flatten(Merging(p))) <= Paths(Flatten(p))
  {
    if p != [] {
      DistinctSplit(p[0], Flatten(p[1..]));
      PathsConcat(p[0], Flatten(p[1..]));
      MergingDistinct(p[1..]);
      if |p[0]| >= 2 {
        var rest := Flatten(Merging(p[1..]));
        assert Merging(p)[1..] == Merging(p[1..]);
        PathsConcat(p[0], rest);
        DistinctJoin(p[0], rest);
      }
    }
  }

  lemma DistinctJoin(a: seq<ParquetFile>, b: seq<ParquetFile>)
    requires DistinctPaths(a) && DistinctPaths(b) && Paths(a) !! Paths(b)
    ensures DistinctPaths(a + b)
  {
    forall i, j | 0 <= i < |a| && 0 <= j < |b| ensures a[i].path != b[j].path {
      assert a[i].path in Paths(a) && b[j].path in Paths(b);
    }
  }

  lemma ChosenDistinct(files: seq<ParquetFile>, coldBefore: int, cfg: CompactionConfig)
    requires DistinctPaths(files)
    ensures DistinctPaths(Flatten(Chosen(files, coldBefore, cfg)))
    ensures Paths(Flatten(Chosen(files, coldBefore, cfg))) <= Paths(files)
  {
    var eligible := EligibleOf(files, coldBefore, cfg);
    EligibleDistinct(files, coldBefore, cfg);
    SortDistinct(eligible);
    PackCuts(SortByTime(eligible), cfg);
    MergingDistinct(Pack(SortByTime(eligible), cfg));
  }

  lemma {:induction false} SavingAtLeast(groups: seq<seq<ParquetFile>>, outcomes: seq<Option<ParquetFile>>)
    requires |groups| == |outcomes| && forall g :: g in groups ==> |g| >= 2
    ensures RecordedSaving(groups, outcomes) >= Recorded(outcomes)
    decreases |groups|
  {
    if groups != [] {
      assert groups[0] in groups;
      SavingAtLeast(groups[1..], outcomes[1..]);
    }
  }

  // ---- Passes ----

  /** One pass over a table: when it ran, what became of each chosen group and what it left. */
  datatype Pass = Pass(coldBefore: int, outcomes: seq<Option<ParquetFile>>)

  ghost predicate Possible(files: seq<ParquetFile>, pass: Pass, cfg: CompactionConfig) {
    |pass.outcomes| == |Chosen(files, pass.coldBefore, cfg)| && FreshPaths(pass.outcomes, files)
  }

  function Result(files: seq<ParquetFile>, pass: Pass, cfg: CompactionConfig): seq<ParquetFile>
    requires |pass.outcomes| == |Chosen(files, pass.coldBefore, cfg)|
  {
    RecordAll(files, Chosen(files, pass.coldBefore, cfg), pass.outcomes)
  }

  /** A pass removes at least one file for every merge it records. */
  lemma PassShrinks(files: seq<ParquetFile>, pass: Pass, cfg: CompactionConfig)
    requires DistinctPaths(files) && Possible(files, pass, cfg)
    ensures DistinctPaths(Result(files, pass, cfg))
    ensures |Result(files, pass, cfg)| + Recorded(pass.outcomes) <= |files|
  {
    var groups := Chosen(files, pass.coldBefore, cfg);
    ChosenDistinct(files, pass.coldBefore, cfg);
    RecordMany(files, groups, pass.outcomes);
    SavingAtLeast(groups, pass.outcomes);
  }

  ghost predicate History(files: seq<ParquetFile>, passes: seq<Pass>, cfg: CompactionConfig)
    decreases |passes|
  {
    passes == [] || (Possible(files, passes[0], cfg) && History(Result(files, passes[0], cfg), passes[1..], cfg))
  }

  ghost function Left(files: seq<ParquetFile>, passes: seq<Pass>, cfg: CompactionConfig): seq<ParquetFile>
    requires History(files, passes, cfg)
    decreases |passes|
  {
    if passes == [] then files else Left(Result(files, passes[0], cfg), passes[1..], cfg)
  }

  function AllRecorded(passes: seq<Pass>): nat {
    if passes == [] then 0 else Recorded(passes[0].outcomes) + AllRecorded(passes[1..])
  }

  /** However many passes run, they record no more merges than the number of files they removed. */
  lemma {:induction false} MergingEnds(files: seq<ParquetFile>, passes: seq<Pass>, cfg: CompactionConfig)
    requires DistinctPaths(files) && History(files, passes, cfg)
    ensures DistinctPaths(Left(files, passes, cfg))
    ensures |Left(files, passes, cfg)| + AllRecorded(passes) <= |files|
    decreases |passes|
  {
    if passes != [] {
      PassShrinks(files, passes[0], cfg);
      MergingEnds(Result(files, passes[0], cfg), passes[1..], cfg);
    }
  }
}
