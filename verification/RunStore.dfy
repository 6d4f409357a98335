/**
 `run.MemoryStore`: run records with an index by merge request, artifacts, the
 latest commit of each merge request, and paging.
 */
module RunStore {
  datatype RunState = Running | Success | Failed | Canceled
  datatype Record = Record(id: int, mr: int, sha: string, project: string, state: RunState, error: string)
  datatype Artifact = Artifact(runID: int, name: string, data: string)

  // ----- Paging -----

  const DEFAULT_PAGE_SIZE := 20

  function Min(a: int, b: int): int { if a < b then a else b }

  /** What a page holds, and how many elements come before it; page and size fall back
      to 1 and 20. */
  function SizeOf(pageSize: int): (size: nat)
    ensures size >= 1
  {
    if pageSize <= 0 then DEFAULT_PAGE_SIZE else pageSize
  }

  function StartOf(page: int, pageSize: int): (start: nat) {
    if page <= 1 then 0 else Times(page - 1, SizeOf(pageSize))
  }

  function Times(a: nat, b: nat): (r: nat) {
    a * b
  }

  lemma TimesNext(a: nat, b: nat)
    ensures Times(a + 1, b) == Times(a, b) + b && Times(0, b) == 0
  {
  }

  /** At most size elements from start on. */
  function Slice<T>(xs: seq<T>, start: nat, size: nat): (p: seq<T>)
    ensures |p| <= size
  {
    if start >= |xs| then [] else xs[start..Min(start + size, |xs|)]
  }

  /** One page of a list. */
  function Page<T>(xs: seq<T>, page: int, pageSize: int): (p: seq<T>) {
    Slice(xs, StartOf(page, pageSize), SizeOf(pageSize))
  }

  /** The first n pages one after the other. */
  function FirstPages<T>(xs: seq<T>, size: int, n: nat): (r: seq<T>) {
    if n == 0 then [] else FirstPages(xs, size, n - 1) + Page(xs, n, size)
  }

  lemma {:induction false} PagesArePrefix<T>(xs: seq<T>, size: int, n: nat)
    requires size >= 1
    ensures FirstPages(xs, size, n) == xs[..Min(StartOf(n + 1, size), |xs|)]
  {
    if n > 0 {
      PagesArePrefix(xs, size, n - 1);
      TimesNext(n - 1, size);
      assert StartOf(n, size) == Times(n - 1, size) && StartOf(n + 1, size) == Times(n, size);
      NextSlice(xs, StartOf(n, size), size);
    }
  }

  lemma NextSlice<T>(xs: seq<T>, start: nat, size: nat)
    ensures xs[..Min(start, |xs|)] + Slice(xs, start, size) == xs[..Min(start + size, |xs|)]
  {
  }

  /** Reading pages until one comes back empty lists everything exactly once, in order. */
  lemma PagesListAll<T>(xs: seq<T>, size: int, n: nat)
    requires size >= 1 && Page(xs, n + 1, size) == []
    ensures FirstPages(xs, size, n) == xs
  {
    PagesArePrefix(xs, size, n);
    assert Slice(xs, StartOf(n + 1, size), size) == [];
    assert xs[..|xs|] == xs;
  }

  // ----- Order of a listing -----

  predicate Increasing(ids: seq<int>) {
    forall i, j :: 0 <= i < j < |ids| ==> ids[i] < ids[j]
  }

  /** sort.Slice with the greater-than order, by insertion. */
  function Insert(x: int, ids: seq<int>): (r: seq<int>) {
    if ids == [] || x > ids[0] then [x] + ids else [ids[0]] + Insert(x, ids[1..])
  }

  function SortDescending(ids: seq<int>): (r: seq<int>) {
    if ids == [] then [] else Insert(ids[|ids| - 1], SortDescending(ids[..|ids| - 1]))
  }

  function Reversed<T>(xs: seq<T>): (r: seq<T>)
    ensures |r| == |xs|
  {
    seq(|xs|, i requires 0 <= i < |xs| => xs[|xs| - 1 - i])
  }

  /** The index of a merge request is increasing, so sorting it newest first reverses it. */
  lemma {:induction false} SortOfIncreasing(ids: seq<int>)
    requires Increasing(ids)
    ensures SortDescending(ids) == Reversed(ids)
    decreases |ids|
  {
    if ids != [] {
      var n := |ids| - 1;
      var rest := Reversed(ids[..n]);
      SortOfIncreasing(ids[..n]);
      if rest != [] { assert rest[0] == ids[n - 1]; }
      assert Insert(ids[n], rest) == [ids[n]] + rest;
      assert Reversed(ids) == [ids[n]] + rest;
    }
  }

  // ----- The store -----

  type Runs = map<int, Record>
  type Index = map<int, seq<int>>

  function IdsIn(byMR: Index, mr: int): (ids: seq<int>) {
    if mr in byMR then byMR[mr] else []
  }

  /** Ids are 1 .. next-1, each run is filed under its own id, and the index splits
      the runs by merge request, in increasing order. */
  ghost predicate Indexed(next: int, runs: Runs, byMR: Index) {
    && next >= 1
    && (forall id :: id in runs <==> 1 <= id < next)
    && (forall id :: id in runs ==> runs[id].id == id && id in IdsIn(byMR, runs[id].mr))
    && (forall mr :: mr in byMR ==> Increasing(byMR[mr]))
    && (forall mr, id :: mr in byMR && id in byMR[mr] ==> id in runs && runs[id].mr == mr)
  }

  lemma StartIndexes(next: int, runs: Runs, byMR: Index, r: Record)
    requires Indexed(next, runs, byMR) && r.id == next
    ensures Indexed(next + 1, runs[next := r], byMR[r.mr := IdsIn(byMR, r.mr) + [next]])
  {
    var ids := IdsIn(byMR, r.mr);
    var ids' := ids + [next];
    assert next in ids';
    assert forall id :: id in ids' <==> id in ids || id == next;
    forall i | 0 <= i < |ids| ensures ids[i] < next {
      assert r.mr in byMR && ids[i] in byMR[r.mr];
      assert ids[i] in runs;
    }
    assert Increasing(ids');
    var byMR' := byMR[r.mr := ids'];
    forall mr, id | mr in byMR' && id in byMR'[mr] ensures id in runs[next := r] && runs[next := r][id].mr == mr {
      if mr != r.mr || id != next {
        assert mr in byMR && id in byMR[mr];
        assert id in runs && id < next;
      }
    }
  }

  lemma CompleteIndexes(next: int, runs: Runs, byMR: Index, r: Record)
    requires Indexed(next, runs, byMR) && r.id in runs && r.mr == runs[r.id].mr
    ensures Indexed(next, runs[r.id := r], byMR)
  {
    var runs' := runs[r.id := r];
    assert forall id :: id in runs' <==> id in runs;
    assert forall id :: id in runs ==> runs'[id].id == runs[id].id && runs'[id].mr == runs[id].mr;
  }

  function Lookup(runs: Runs, id: int): (r: Record) {
    if id in runs then runs[id] else Record(0, 0, "", "", Running, "")
  }

  function Fetch(runs: Runs, ids: seq<int>): (rs: seq<Record>)
    ensures |rs| == |ids|
  {
    seq(|ids|, i requires 0 <= i < |ids| => Lookup(runs, ids[i]))
  }

  /** All runs of a merge request, newest first. */
  function HistoryOf(runs: Runs, byMR: Index, mr: int): (rs: seq<Record>) {
    Fetch(runs, Reversed(IdsIn(byMR, mr)))
  }

  lemma FetchPage(runs: Runs, ids: seq<int>, page: int, pageSize: int)
    ensures Fetch(runs, Page(ids, page, pageSize)) == Page(Fetch(runs, ids), page, pageSize)
  {
    var start, size := StartOf(page, pageSize), SizeOf(pageSize);
    if start < |ids| { FetchSlice(runs, ids, start, Min(start + size, |ids|)); }
  }

  lemma FetchSlice(runs: Runs, ids: seq<int>, lo: int, hi: int)
    requires 0 <= lo <= hi <= |ids|
    ensures Fetch(runs, ids[lo..hi]) == Fetch(runs, ids)[lo..hi]
  {
  }

  /** The listing of a merge request has each of its runs once, ids strictly falling. */
  lemma HistoryComplete(next: int, runs: Runs, byMR: Index, mr: int)
    requires Indexed(next, runs, byMR)
    ensures var h := HistoryOf(runs, byMR, mr);
      && (forall i, j :: 0 <= i < j < |h| ==> h[i].id > h[j].id)
      && (forall r: Record :: r in h <==> r.id in runs && runs[r.id] == r && r.mr == mr)
  {
    var h, ids := HistoryOf(runs, byMR, mr), IdsIn(byMR, mr);
    forall i | 0 <= i < |h|
      ensures h[i].id == ids[|ids| - 1 - i] && h[i].id in runs && runs[h[i].id] == h[i] && h[i].mr == mr
    {
      assert Reversed(ids)[i] in ids;
    }
    forall r: Record | r.id in runs && runs[r.id] == r && r.mr == mr ensures r in h {
      var k :| 0 <= k < |ids| && ids[k] == r.id;
      assert h[|ids| - 1 - k] == r;
    }
  }

  class MemoryStore {
    var nextRunID: int
    var runs: Runs
    var byMR: Index
    var artifacts: map<int, seq<Artifact>>
    var latestSHA: map<int, string>
    /** The runs completed so far, in the order of the Complete calls. */
    ghost var completions: seq<int>

    ghost predicate Valid()
      reads this
    {
      Indexed(nextRunID, runs, byMR)
    }

    function IdsOf(mr: int): (ids: seq<int>)
      reads this
    {
      IdsIn(byMR, mr)
    }

    function Artifacts(runID: int): (items: seq<Artifact>)
      reads this
    {
      if runID in artifacts then artifacts[runID] else []
    }

    constructor ()
      ensures Valid() && nextRunID == 1 && completions == [] && artifacts == map[] && latestSHA == map[]
    {
      nextRunID, runs, byMR, artifacts, latestSHA, completions := 1, map[], map[], map[], map[], [];
    }

    method Start(mr: int, sha: string, project: string) returns (r: Record)
      requires Valid()
      modifies this
      ensures Valid()
      ensures r == Record(old(nextRunID), mr, sha, project, Running, "")
      ensures nextRunID == old(nextRunID) + 1 && runs == old(runs)[r.id := r]
      ensures IdsOf(mr) == old(IdsOf(mr)) + [r.id] && forall m :: m != mr ==> IdsOf(m) == old(IdsOf(m))
      ensures artifacts == old(artifacts) && latestSHA == old(latestSHA) && completions == old(completions)
    {
      r := Record(nextRunID, mr, sha, project, Running, "");
      StartIndexes(nextRunID, runs, byMR, r);
      nextRunID := nextRunID + 1;
      runs := runs[r.id := r];
      byMR := byMR[mr := IdsOf(mr) + [r.id]];
    }

    /** Completing an unknown run does nothing. */
    method Complete(runID: int, state: RunState, error: string)
      requires Valid()
      modifies this
      ensures Valid()
      ensures runs == if runID in old(runs) then old(runs)[runID := old(runs)[runID].(state := state, error := error)] else old(runs)
      ensures completions == if runID in old(runs) then old(completions) + [runID] else old(completions)
      ensures nextRunID == old(nextRunID) && byMR == old(byMR) && artifacts == old(artifacts) && latestSHA == old(latestSHA)
    {
      if runID !in runs {
        return;
      }
      var r := runs[runID].(state := state, error := error);
      CompleteIndexes(nextRunID, runs, byMR, r);
      runs := runs[runID := r];
      completions := completions + [runID];
    }

    method AddArtifact(runID: int, name: string, data: string)
      modifies this
      ensures artifacts == old(artifacts)[runID := old(Artifacts(runID)) + [Artifact(runID, name, data)]]
      ensures nextRunID == old(nextRunID) && runs == old(runs) && byMR == old(byMR)
      ensures latestSHA == old(latestSHA) && completions == old(completions)
    {
      artifacts := artifacts[runID := Artifacts(runID) + [Artifact(runID, name, data)]];
    }

    /** A page of a run's artifacts: those numbered from the page's start on, as many as
        a page holds, in the order in which they were added. */
    method ListArtifacts(runID: int, page: int, pageSize: int) returns (out: seq<Artifact>)
      ensures out == Page(Artifacts(runID), page, pageSize)
      ensures var items, start := Artifacts(runID), StartOf(page, pageSize);
        && |out| == Min(SizeOf(pageSize), |items| - Min(start, |items|))
        && forall i :: 0 <= i < |out| ==> start + i < |items| && out[i] == items[start + i]
    {
      var items := Artifacts(runID);
      var size := SizeOf(pageSize);
      var start := StartOf(page, pageSize);
      out := [];
      if start >= |items| {
        return;
      }
      var end := Min(start + size, |items|);
      for i := start to end
        invariant out == items[start..i]
      {
        out := out + [items[i]];
      }
    }

    method SetLatestSHA(mr: int, sha: string)
      modifies this
      ensures latestSHA == old(latestSHA)[mr := sha]
      ensures nextRunID == old(nextRunID) && runs == old(runs) && byMR == old(byMR)
      ensures artifacts == old(artifacts) && completions == old(completions)
    {
      latestSHA := latestSHA[mr := sha];
    }

    predicate IsStale(mr: int, sha: string)
      reads this
    {
      mr in latestSHA && latestSHA[mr] != "" && latestSHA[mr] != sha
    }

    method List(mr: int, page: int, pageSize: int) returns (out: seq<Record>)
      requires Valid()
      ensures out == Page(HistoryOf(runs, byMR, mr), page, pageSize)
    {
      var ids := SortDescending(IdsOf(mr));
      SortOfIncreasing(IdsOf(mr));
      FetchPage(runs, ids, page, pageSize);
      out := Records(Page(ids, page, pageSize));
    }

    method Records(ids: seq<int>) returns (out: seq<Record>)
      ensures out == Fetch(runs, ids)
    {
      out := [];
      for i := 0 to |ids|
        invariant out == Fetch(runs, ids[..i])
      {
        out := out + [Lookup(runs, ids[i])];
      }
      assert ids[..|ids|] == ids;
    }
  }

  /** The first page of size n holds the first n elements, or all if there are fewer; a
      size that is not positive is 20. */
  lemma FirstPageHolds<T>(xs: seq<T>, n: int)
    ensures n >= 1 ==> Page(xs, 1, n) == xs[..Min(n, |xs|)]
    ensures n <= 0 ==> Page(xs, 1, n) == xs[..Min(20, |xs|)]
  {
  }

  /** The page after one that ends within the list starts where that one ended. */
  lemma PagesFollow<T>(xs: seq<T>, n: int, page: int)
    requires n >= 1 && page >= 1
    ensures StartOf(page + 1, n) == StartOf(page, n) + n && StartOf(1, n) == 0
  {
    TimesNext(page - 1, n);
  }
}
