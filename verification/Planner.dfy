/**
 `Planner.PlanForEvent`: one plan, from the pending status to the comment and the
 final status, with the run records kept in step. What the file system, the
 renderer and the cluster answer for a project is an input, and so is a newer
 commit that another worker may record for the merge request in the meantime.
 */
module Planner {
  import opened Options
  import opened Text
  import opened RunStore
  import opened Parts
  import opened Report
  import Admission
  import Compute
  import Discovery
  import Vcs

  /** A project that is to be planned: its desired and live resources, its diff options,
      and the findings of the policy evaluator. */
  datatype Work = Work(
    project: string,
    desired: seq<Compute.Resource>,
    actual: seq<Compute.Resource>,
    prune: bool,
    ignoreFields: seq<string>,
    findings: seq<Finding>)
  {
    function Diff(): Compute.DiffOptions { Compute.DiffOptions(prune, ignoreFields, true) }
  }

  /** What the planner finds for one discovered project. */
  datatype Found =
    | NoConfig
    | LoadError(error: string)
    | RenderError(maxDetails: int, error: string)
    | NothingToPlan(maxDetails: int)
    | ReadError(maxDetails: int, project: string, error: string)
    | Planned(maxDetails: int, work: Work)
  {
    predicate Loaded() { !NoConfig? && !LoadError? }
    predicate IsError() { LoadError? || RenderError? || ReadError? }

    /** The project a run is started for, if one is. */
    function Run(): (projects: seq<string>) {
      if ReadError? then [project] else if Planned? then [work.project] else []
    }
  }

  /** How a plan ends. Outdated returns nil like Completed, but leaves everything open. */
  datatype Verdict = Completed | Erred(error: string) | Outdated

  /** A verdict and how many projects were looked at before it, the failing one included. */
  datatype Ending = Ending(verdict: Verdict, reached: nat)

  /** The latest commit known once the i-th project is reached. */
  function LatestAt(sha: string, newer: nat -> Option<string>, i: nat): (latest: string) {
    if newer(i).Some? then newer(i).value
    else if i == 0 then sha
    else LatestAt(sha, newer, i - 1)
  }

  predicate StaleAt(sha: string, newer: nat -> Option<string>, i: nat) {
    LatestAt(sha, newer, i) != "" && LatestAt(sha, newer, i) != sha
  }

  /** The ending from the i-th project on: the first stale check or error decides. */
  function EndFrom(found: seq<Found>, newer: nat -> Option<string>, sha: string, tracked: bool, i: nat): (e: Ending)
    requires i <= |found|
    ensures i <= e.reached <= |found|
    decreases |found| - i
  {
    if i == |found| then Ending(Completed, i)
    else if tracked && StaleAt(sha, newer, i) then Ending(Outdated, i)
    else if found[i].IsError() then Ending(Erred(found[i].error), i + 1)
    else EndFrom(found, newer, sha, tracked, i + 1)
  }

  lemma EndStep(found: seq<Found>, newer: nat -> Option<string>, sha: string, tracked: bool, i: nat)
    requires i < |found|
    ensures EndFrom(found, newer, sha, tracked, i) ==
      if tracked && StaleAt(sha, newer, i) then Ending(Outdated, i)
      else if found[i].IsError() then Ending(Erred(found[i].error), i + 1)
      else EndFrom(found, newer, sha, tracked, i + 1)
  {
  }

  /** A plan is given up as outdated exactly when a newer commit is seen before any
      project fails. */
  lemma {:induction false} OutdatedIff(found: seq<Found>, newer: nat -> Option<string>, sha: string, tracked: bool, i: nat)
    requires i <= |found|
    ensures EndFrom(found, newer, sha, tracked, i).verdict == Outdated <==>
      exists k :: i <= k < |found| && tracked && StaleAt(sha, newer, k) && forall j :: i <= j < k ==> !found[j].IsError()
    decreases |found| - i
  {
    if i < |found| {
      OutdatedIff(found, newer, sha, tracked, i + 1);
    }
  }

  /** With one plan at a time nothing newer is recorded, and the stale check never fires:
      the plan fails iff some project does. */
  lemma {:induction false} AloneNeverOutdated(found: seq<Found>, newer: nat -> Option<string>, sha: string, tracked: bool, i: nat)
    requires i <= |found|
    requires forall k :: newer(k) == None
    ensures EndFrom(found, newer, sha, tracked, i).verdict != Outdated
    ensures EndFrom(found, newer, sha, tracked, i).verdict.Erred? <==> exists k :: i <= k < |found| && found[k].IsError()
    decreases |found| - i
  {
    if i < |found| {
      AloneNeverOutdated(found, newer, sha, tracked, i + 1);
      UnchangedLatest(newer, sha, i);
    }
  }

  lemma {:induction false} UnchangedLatest(newer: nat -> Option<string>, sha: string, i: nat)
    requires forall k :: newer(k) == None
    ensures LatestAt(sha, newer, i) == sha
  {
    if i > 0 { UnchangedLatest(newer, sha, i - 1); }
  }

  /** A check fires exactly when the last commit recorded since the plan began is a
      different one, and not empty. */
  lemma {:induction false} StaleIff(sha: string, newer: nat -> Option<string>, i: nat)
    ensures StaleAt(sha, newer, i) <==> exists k :: 0 <= k <= i && LastRecorded(newer, k, i) && newer(k).value != "" && newer(k).value != sha
  {
    if newer(i).Some? {
      assert LastRecorded(newer, i, i);
      forall k | 0 <= k < i ensures !LastRecorded(newer, k, i) {
      }
    } else if i > 0 {
      StaleIff(sha, newer, i - 1);
      forall k ensures 0 <= k <= i && LastRecorded(newer, k, i) <==> 0 <= k <= i - 1 && LastRecorded(newer, k, i - 1) {
      }
    }
  }

  ghost predicate LastRecorded(newer: nat -> Option<string>, k: int, i: nat) {
    0 <= k <= i && newer(k).Some? && forall j :: k < j <= i ==> newer(j).None?
  }

  /** A different commit that is recorded before the i-th project ends the plan there. */
  lemma {:induction false} EndsWhenNewer(found: seq<Found>, newer: nat -> Option<string>, sha: string, n: nat, i: nat)
    requires n <= i < |found| && newer(i).Some? && newer(i).value != "" && newer(i).value != sha
    requires forall k :: 0 <= k < i ==> newer(k).None? && !found[k].IsError()
    ensures EndFrom(found, newer, sha, true, n) == Ending(Outdated, i)
    decreases i - n
  {
    if n < i {
      NotYetStale(newer, sha, n);
      EndsWhenNewer(found, newer, sha, n + 1, i);
    }
  }

  lemma {:induction false} NotYetStale(newer: nat -> Option<string>, sha: string, n: nat)
    requires forall k :: 0 <= k <= n ==> newer(k).None?
    ensures LatestAt(sha, newer, n) == sha
  {
    if n > 0 { NotYetStale(newer, sha, n - 1); }
  }

  /** A plan fails with an error exactly when that is the error of the first project that
      fails, and no check up to there is stale. */
  lemma {:induction false} ErredIff(found: seq<Found>, newer: nat -> Option<string>, sha: string, tracked: bool, i: nat, m: string)
    requires i <= |found|
    ensures EndFrom(found, newer, sha, tracked, i).verdict == Erred(m) <==>
      exists k :: i <= k < |found| && FirstError(found, i, k) && found[k].error == m && !StaleBy(newer, sha, tracked, i, k)
    decreases |found| - i
  {
    if i < |found| {
      ErredIff(found, newer, sha, tracked, i + 1, m);
      forall k | i < k < |found| ensures StaleBy(newer, sha, tracked, i, k) <==> StaleBy(newer, sha, tracked, i + 1, k) || (tracked && StaleAt(sha, newer, i)) {
      }
      forall k | i < k < |found| ensures FirstError(found, i, k) <==> FirstError(found, i + 1, k) && !found[i].IsError() {
      }
      assert StaleBy(newer, sha, tracked, i, i) <==> tracked && StaleAt(sha, newer, i);
      assert FirstError(found, i, i) <==> found[i].IsError();
    }
  }

  ghost predicate FirstError(found: seq<Found>, i: nat, k: nat) {
    i <= k < |found| && found[k].IsError() && forall j :: i <= j < k ==> !found[j].IsError()
  }

  ghost predicate StaleBy(newer: nat -> Option<string>, sha: string, tracked: bool, i: nat, k: nat) {
    tracked && exists j :: i <= j <= k && StaleAt(sha, newer, j)
  }

  // ----- The plan of one project -----

  /** What is reported of a project: its changes as texts, their summary, its findings. */
  function PlanFor(w: Work, e: Encoder): (p: ProjectPlan) {
    var cs := Compute.Plan(w.desired, w.actual, w.Diff());
    ProjectPlan(w.project, EncodedAll(cs, e), Compute.Tally(cs), w.findings)
  }

  /** Any function that gives every project this plan. Proofs about the loop are for such
      a function; WorkAsked opens it. */
  type Planning = Work -> ProjectPlan

  ghost predicate WorkAsked(w: Work) {
    true
  }

  ghost predicate Plans(pl: Planning, e: Encoder) {
    forall w {:trigger WorkAsked(w)} :: pl(w) == PlanFor(w, e)
  }

  lemma APlanning(e: Encoder) returns (pl: Planning)
    ensures Plans(pl, e)
  {
    pl := w => PlanFor(w, e);
  }

  ghost predicate NothingToDo(w: Work) {
    var opts := Compute.DiffOptions(w.prune, w.ignoreFields, true);
    Compute.Satisfied(Compute.Index(w.desired, opts), Compute.Index(w.actual, opts), w.prune)
  }

  /** A project is shown in the comment exactly when something is to be done for it, that
      is, when some desired resource is not live or not contained in the live one, or one
      is to be pruned; or when it has a finding. */
  lemma ShownIffToDo(w: Work, e: Encoder)
    ensures HasActionableChanges(PlanFor(w, e)) <==>
      || w.findings != []
      || !NothingToDo(w)
  {
    var cs := Compute.Plan(w.desired, w.actual, w.Diff());
    ShownIffListsChange(PlanFor(w, e), cs, e);
    Compute.ActsIffUnsatisfied(w.desired, w.actual, w.Diff());
    if Acts(cs) {
      var i :| 0 <= i < |cs| && cs[i].action != Compute.NoOp;
      assert cs[i] in cs;
    }
  }

  /** There is nothing to be done or reported for a project. */
  ghost predicate UpToDate(w: Work) {
    w.findings == [] && NothingToDo(w)
  }

  // ----- What the loop gathers -----

  datatype Gathered = Gathered(planned: bool, plans: seq<ProjectPlan>, maxDetails: int)

  /** The largest detail limit, the plans in order, and whether there was any project. */
  function Gather(found: seq<Found>, pl: Planning, n: nat): (g: Gathered)
    requires n <= |found|
  {
    if n == 0 then Gathered(false, [], 0)
    else Gain(Gather(found, pl, n - 1), found[n - 1], PlansOf(found[n - 1], pl))
  }

  function PlansOf(f: Found, pl: Planning): seq<ProjectPlan> {
    if f.Planned? then [pl(f.work)] else []
  }

  function Gain(g: Gathered, f: Found, plans: seq<ProjectPlan>): Gathered {
    match f
    case NoConfig => g
    case LoadError(_) => Gathered(true, g.plans, g.maxDetails)
    case _ => Gathered(true, g.plans + plans, Max(g.maxDetails, f.maxDetails))
  }

  /** What was gathered: whether any project has a config, exactly the plans found, and
      the largest detail limit of the configs that could be loaded, or 0. */
  lemma {:induction false} GatherMeans(found: seq<Found>, pl: Planning, n: nat)
    requires n <= |found|
    ensures var g := Gather(found, pl, n);
      && (g.planned <==> exists k :: 0 <= k < n && !found[k].NoConfig?)
      && (forall p :: p in g.plans <==> exists k :: 0 <= k < n && found[k].Planned? && pl(found[k].work) == p)
      && (forall k :: 0 <= k < n && found[k].Loaded() ==> found[k].maxDetails <= g.maxDetails)
      && g.maxDetails >= 0
      && (g.maxDetails > 0 ==> exists k :: 0 <= k < n && found[k].Loaded() && found[k].maxDetails == g.maxDetails)
  {
    if n > 0 {
      GatherMeans(found, pl, n - 1);
      var before, f, g := Gather(found, pl, n - 1), found[n - 1], Gather(found, pl, n);
      forall p ensures p in g.plans <==> p in before.plans || (f.Planned? && pl(f.work) == p) {
      }
    }
  }

  /** Of the plans gathered none is shown, and the comment says that there is no diff,
      exactly when nothing is to be done for any project planned. */
  lemma NoDiffIff(found: seq<Found>, pl: Planning, e: Encoder, n: nat)
    requires n <= |found| && Plans(pl, e)
    ensures Visible(Gather(found, pl, n).plans) == [] <==> forall k :: 0 <= k < n && found[k].Planned? ==> UpToDate(found[k].work)
  {
    var plans := Gather(found, pl, n).plans;
    GatherMeans(found, pl, n);
    forall k | 0 <= k < n && found[k].Planned? ensures HasActionableChanges(pl(found[k].work)) <==> !UpToDate(found[k].work) {
      assert WorkAsked(found[k].work);
      ShownIffToDo(found[k].work, e);
    }
    if Visible(plans) == [] {
      forall k | 0 <= k < n && found[k].Planned? ensures UpToDate(found[k].work) {
        assert pl(found[k].work) in plans;
      }
    } else {
      assert Visible(plans)[0] in Visible(plans);
    }
  }

  /** The projects of the runs started for the first n findings. */
  function Started(found: seq<Found>, n: nat): (projects: seq<string>)
    requires n <= |found|
  {
    if n == 0 then [] else Started(found, n - 1) + found[n - 1].Run()
  }

  /** In a plan that completes, the runs are those of the plans reported, in that order. */
  lemma {:induction false} StartedArePlanned(found: seq<Found>, pl: Planning, e: Encoder, n: nat)
    requires n <= |found| && Plans(pl, e) && forall k :: 0 <= k < n ==> !found[k].IsError()
    ensures |Started(found, n)| == |Gather(found, pl, n).plans|
    ensures forall k :: 0 <= k < |Started(found, n)| ==> Started(found, n)[k] == Gather(found, pl, n).plans[k].project
    ensures !Gather(found, pl, n).planned ==> Started(found, n) == [] && Gather(found, pl, n).plans == []
  {
    if n > 0 {
      StartedArePlanned(found, pl, e, n - 1);
      if found[n - 1].Planned? { ProjectOfPlan(found[n - 1].work, pl, e); }
    }
  }

  lemma ProjectOfPlan(w: Work, pl: Planning, e: Encoder)
    requires Plans(pl, e)
    ensures pl(w).project == w.project
  {
    assert WorkAsked(w);
  }

  // ----- Runs of one plan -----

  /** The run store before a plan: its runs, its next id, the runs completed so far;
      and the merge request and commit planned. */
  datatype Context = Context(runs: Runs, first: int, done: seq<int>, mr: int, sha: string)

  function Range(lo: int, hi: int): (r: seq<int>)
    decreases hi - lo
  {
    if lo >= hi then [] else Range(lo, hi - 1) + [hi - 1]
  }

  lemma {:induction false} RangeIndex(lo: int, hi: int)
    requires lo <= hi
    ensures |Range(lo, hi)| == hi - lo
    ensures forall i :: 0 <= i < hi - lo ==> Range(lo, hi)[i] == lo + i
    decreases hi - lo
  {
    if lo < hi { RangeIndex(lo, hi - 1); }
  }

  ghost predicate SameBefore(runs: Runs, before: Runs, first: int) {
    forall id :: id < first ==> (id in runs <==> id in before) && (id in before ==> runs[id] == before[id])
  }

  /** The runs lo .. hi-1 of a plan are all in this state. */
  ghost predicate EachRun(runs: Runs, c: Context, projects: seq<string>, lo: int, hi: int, state: RunState, error: string)
    requires c.first <= lo && hi <= c.first + |projects|
  {
    forall id :: lo <= id < hi ==> id in runs && runs[id] == Record(id, c.mr, c.sha, projects[id - c.first], state, error)
  }

  /** One run for each of the projects, of which those before m are completed. */
  ghost predicate Progress(runs: Runs, c: Context, projects: seq<string>, m: int, state: RunState, error: string) {
    && c.first <= m <= c.first + |projects|
    && SameBefore(runs, c.runs, c.first)
    && EachRun(runs, c, projects, c.first, m, state, error)
    && EachRun(runs, c, projects, m, c.first + |projects|, Running, "")
  }

  lemma OneMore(runs: Runs, c: Context, projects: seq<string>, m: int, state: RunState, error: string)
    requires Progress(runs, c, projects, m, state, error) && m < c.first + |projects|
    ensures m in runs
    ensures Progress(runs[m := runs[m].(state := state, error := error)], c, projects, m + 1, state, error)
    ensures Range(c.first, m + 1) == Range(c.first, m) + [m]
  {
  }

  function FinalState(v: Verdict): (s: RunState) {
    match v
    case Completed => RunState.Success
    case Erred(_) => RunState.Failed
    case Outdated => Running
  }

  function ErrorOf(v: Verdict): (e: string) {
    if v.Erred? then v.error else ""
  }

  // ----- Status checks and files of one plan -----

  const CONTEXT := "thule/plan"

  /** The status checks one plan writes: a pending one, and a final one unless it is outdated. */
  function FinalCheck(mr: int, sha: string, v: Verdict): (cs: seq<Vcs.StatusCheck>) {
    match v
    case Completed => [Vcs.StatusCheck(mr, sha, CONTEXT, Vcs.Success, "Thule plan completed")]
    case Erred(e) => [Vcs.StatusCheck(mr, sha, CONTEXT, Vcs.Failed, e)]
    case Outdated => []
  }

  function Checks(mr: int, sha: string, v: Verdict): (cs: seq<Vcs.StatusCheck>) {
    [Vcs.StatusCheck(mr, sha, CONTEXT, Vcs.Pending, "Thule plan running")] + FinalCheck(mr, sha, v)
  }

  /** What a call of the planner has published: first a pending check, then, unless it was
      outdated, one more: Failed with the error that it returned, or Success. */
  ghost predicate ChecksConclude(before: seq<Vcs.StatusCheck>, after: seq<Vcs.StatusCheck>, mr: int, sha: string, err: Option<string>, outdated: bool) {
    && |after| == |before| + (if outdated then 1 else 2) && before <= after
    && after[|before|].state == Vcs.Pending && after[|before|].mr == mr && after[|before|].sha == sha
    && (!outdated ==>
          var last := after[|after| - 1];
          && last.mr == mr && last.sha == sha
          && (err == None ==> last.state == Vcs.Success)
          && (err != None ==> last.state == Vcs.Failed && last.description == err.value))
  }

  lemma ChecksDo(before: seq<Vcs.StatusCheck>, mr: int, sha: string, v: Verdict)
    ensures ChecksConclude(before, before + Checks(mr, sha, v), mr, sha, if v.Erred? then Some(v.error) else None, v.Outdated?)
  {
    var after := before + Checks(mr, sha, v);
    assert after[|before|] == Checks(mr, sha, v)[0];
    if !v.Outdated? { assert after[|before| + 1] == Checks(mr, sha, v)[1]; }
  }

  /** And the runs that it has started: all Failed with the error returned, all Success, or
      all still running if it was outdated. */
  ghost predicate RunsConclude(runs: Runs, first: int, next: int, mr: int, sha: string, err: Option<string>, outdated: bool) {
    forall id :: first <= id < next ==>
      && id in runs && runs[id].mr == mr && runs[id].sha == sha
      && (outdated ==> runs[id].state == RunState.Running)
      && (!outdated && err == None ==> runs[id].state == RunState.Success && runs[id].error == "")
      && (!outdated && err != None ==> runs[id].state == RunState.Failed && runs[id].error == err.value)
  }

  lemma RunsDo(runs: Runs, c: Context, projects: seq<string>, next: int, v: Verdict)
    requires next == c.first + |projects| && Progress(runs, c, projects, next, FinalState(v), ErrorOf(v))
    ensures RunsConclude(runs, c.first, next, c.mr, c.sha, if v.Erred? then Some(v.error) else None, v.Outdated?)
  {
    forall id | c.first <= id < next ensures id in runs && runs[id].state == FinalState(v) && runs[id].error == ErrorOf(v)
      && runs[id].mr == c.mr && runs[id].sha == c.sha
    {
      assert runs[id] == Record(id, c.mr, c.sha, projects[id - c.first], FinalState(v), ErrorOf(v));
    }
  }

  type Files = map<int, seq<Artifact>>

  function FilesOf(files: Files, id: int): (items: seq<Artifact>) {
    if id in files then files[id] else []
  }

  function Add(files: Files, a: Artifact): (r: Files) {
    files[a.runID := FilesOf(files, a.runID) + [a]]
  }

  /** What a successful plan files under one of its runs. */
  function Filed(files: Files, id: int, body: string, commentID: int): (r: Files) {
    var with := Add(files, Artifact(id, "plan-comment", body));
    if commentID > 0 then Add(with, Artifact(id, "comment-id", Decimal(commentID))) else with
  }

  /** The same under each of the runs lo .. hi-1. */
  function FiledAll(files: Files, lo: int, hi: int, body: string, commentID: int): (r: Files)
    decreases hi - lo
  {
    if lo >= hi then files else Filed(FiledAll(files, lo, hi - 1, body, commentID), hi - 1, body, commentID)
  }

  /** Every run of the plan, and no other, has the comment and its id filed once. */
  lemma {:induction false} FiledUnder(files: Files, lo: int, hi: int, body: string, commentID: int, id: int)
    ensures FilesOf(FiledAll(files, lo, hi, body, commentID), id) == FilesOf(files, id) +
      (if !(lo <= id < hi) then []
       else if commentID > 0 then [Artifact(id, "plan-comment", body), Artifact(id, "comment-id", Decimal(commentID))]
       else [Artifact(id, "plan-comment", body)])
    decreases hi - lo
  {
    if lo < hi {
      FiledUnder(files, lo, hi - 1, body, commentID, id);
    }
  }

  // ----- The projects of an event -----

  /** The config paths an event's files lead to. */
  function ConfigPaths(files: seq<string>): (paths: set<string>) {
    set d | d in Discovery.Roots(files) :: Discovery.PathText(Discovery.ConfigOf(d))
  }

  /** What is found for each of them, sorted by path. */
  function Findings(files: seq<string>, look: string -> Found): (found: seq<Found>) {
    Looked(SortedKeys(ConfigPaths(files)), look)
  }

  function Looked(paths: seq<string>, look: string -> Found): (found: seq<Found>)
    ensures |found| == |paths|
  {
    seq(|paths|, i requires 0 <= i < |paths| => look(paths[i]))
  }

  /** The projects are looked at in the order of their config paths, which are exactly
      those of a thule.conf in a root of the files. */
  lemma FindingsMean(files: seq<string>, look: string -> Found) returns (paths: seq<string>)
    ensures StrictlySorted(paths) && |Findings(files, look)| == |paths|
    ensures forall t :: t in paths <==> exists d :: d in Discovery.Roots(files) && t == ConfigText(d)
    ensures forall i :: 0 <= i < |paths| ==> Findings(files, look)[i] == look(paths[i])
  {
    paths := SortedKeys(ConfigPaths(files));
    forall d ensures ConfigText(d) == Discovery.PathText(Discovery.ConfigOf(d)) {
      assert Discovery.ConfigOf(d) == Discovery.CleanPath(d.rooted, d.parts + ["thule.conf"]);
    }
  }

  function ConfigText(d: Discovery.CleanPath): string {
    Discovery.PathText(Discovery.CleanPath(d.rooted, d.parts + ["thule.conf"]))
  }

  /** The resources of a project fit in memory. */
  predicate SmallWork(f: Found) {
    f.Planned? ==> |f.work.desired| + |f.work.actual| < MAX_LENGTH
  }

  ghost predicate Sized(look: string -> Found) {
    forall p :: SmallWork(look(p))
  }

  ghost predicate FindingsAsked(n: nat) {
    true
  }

  /** Findings, kept out of proofs that do not say FindingsAsked. */
  ghost predicate Finds(found: seq<Found>, files: seq<string>, look: string -> Found) {
    forall n {:trigger FindingsAsked(n)} :: n == 0 ==> found == Findings(files, look)
  }

  method Discover(files: seq<string>, look: string -> Found) returns (found: seq<Found>)
    requires Sized(look)
    ensures Finds(found, files, look)
    ensures forall f :: f in found ==> SmallWork(f)
  {
    var paths := DiscoverPaths(files);
    found := Looked(paths, look);
    assert found == Findings(files, look);
    LookedSized(paths, look);
  }

  method DiscoverPaths(files: seq<string>) returns (paths: seq<string>)
    ensures paths == SortedKeys(ConfigPaths(files))
  {
    var projects := Discovery.DiscoverFromChangedFiles(files);
    var texts := set p | p in projects :: Discovery.PathText(p.config);
    SameConfigs(projects, files);
    paths := SortedKeys(texts);
  }

  lemma LookedSized(paths: seq<string>, look: string -> Found)
    requires Sized(look)
    ensures forall f :: f in Looked(paths, look) ==> SmallWork(f)
  {
  }

  lemma SameConfigs(projects: seq<Discovery.Project>, files: seq<string>)
    requires forall i :: 0 <= i < |projects| ==> projects[i].config == Discovery.ConfigOf(projects[i].root)
    requires (set i | 0 <= i < |projects| :: projects[i].root) == Discovery.Roots(files)
    ensures (set p | p in projects :: Discovery.PathText(p.config)) == ConfigPaths(files)
  {
    var roots := set i | 0 <= i < |projects| :: projects[i].root;
    var texts := set p | p in projects :: Discovery.PathText(p.config);
    forall t | t in texts ensures t in ConfigPaths(files) {
      var p :| p in projects && t == Discovery.PathText(p.config);
      var i :| 0 <= i < |projects| && projects[i] == p;
      assert projects[i].root in roots;
    }
    forall t | t in ConfigPaths(files) ensures t in texts {
      var d :| d in Discovery.Roots(files) && t == Discovery.PathText(Discovery.ConfigOf(d));
      assert d in roots;
      var i :| 0 <= i < |projects| && projects[i].root == d;
      assert projects[i] in projects;
    }
  }

  lemma PlanSized(w: Work, e: Encoder)
    requires |w.desired| + |w.actual| < MAX_LENGTH
    ensures |PlanFor(w, e).changes| < MAX_LENGTH
  {
    Compute.PlanLength(w.desired, w.actual, w.Diff());
  }

  lemma {:induction false} GatheredSized(found: seq<Found>, pl: Planning, e: Encoder, n: nat)
    requires n <= |found| && Plans(pl, e) && forall f :: f in found ==> SmallWork(f)
    ensures forall p :: p in Gather(found, pl, n).plans ==> |p.changes| < MAX_LENGTH
  {
    if n > 0 {
      GatheredSized(found, pl, e, n - 1);
      if found[n - 1].Planned? {
        assert SmallWork(found[n - 1]);
        PlannedSized(found[n - 1].work, pl, e);
      }
    }
  }

  lemma PlannedSized(w: Work, pl: Planning, e: Encoder)
    requires Plans(pl, e) && |w.desired| + |w.actual| < MAX_LENGTH
    ensures |pl(w).changes| < MAX_LENGTH
  {
    assert WorkAsked(w);
    PlanSized(w, e);
  }

  ghost predicate TextAsked(n: nat) {
    true
  }

  /** The text of a plan's comment, kept out of proofs that do not say TextAsked. */
  ghost predicate Tells(body: string, sha: string, files: seq<string>, g: Gathered) {
    forall n {:trigger TextAsked(n)} :: n == 0 ==>
      if g.plans == [] then body == NoChangesText(sha, files, 50)
      else exists parts :: IsReport(sha, g.plans, g.maxDetails, body, parts)
  }

  ghost predicate RunsAsked(n: nat) {
    true
  }

  ghost predicate FilesAsked(n: nat) {
    true
  }

  class PlanService {
    const runs: MemoryStore?
    const comments: Vcs.MemoryCommentStore?
    const status: Vcs.MemoryStatusPublisher?
    const encoder: Encoder

    constructor (runs: MemoryStore?, comments: Vcs.MemoryCommentStore?, status: Vcs.MemoryStatusPublisher?, encoder: Encoder)
      ensures this.runs == runs && this.comments == comments && this.status == status && this.encoder == encoder
    {
      this.runs, this.comments, this.status, this.encoder := runs, comments, status, encoder;
    }

    ghost predicate Valid()
      reads runs, comments
    {
      (runs != null ==> runs.Valid()) && (comments != null ==> comments.Valid())
    }

    method SetCheck(mr: int, sha: string, state: Vcs.CheckState, description: string)
      modifies status
      ensures status != null ==> status.items == old(status.items) + [Vcs.StatusCheck(mr, sha, CONTEXT, state, description)]
    {
      if status != null {
        status.SetStatus(Vcs.StatusCheck(mr, sha, CONTEXT, state, description));
      }
    }

    /** The runs of this plan, all still running, are those with the given ids. */
    ghost predicate AllRunning(c: Context, projects: seq<string>, ids: seq<int>)
      reads runs
    {
      if runs == null then ids == []
      else
        && runs.Valid() && 1 <= c.first && runs.nextRunID == c.first + |projects| && ids == Range(c.first, runs.nextRunID)
        && runs.completions == c.done
        && forall n {:trigger RunsAsked(n)} :: n == 0 ==> Progress(runs.runs, c, projects, c.first, Running, "")
    }

    /** The runs of this plan have ended as v says, each completed once. */
    ghost predicate RunsEnded(c: Context, projects: seq<string>, v: Verdict)
      reads runs
    {
      runs != null ==>
        && runs.Valid() && runs.nextRunID == c.first + |projects|
        && Progress(runs.runs, c, projects, runs.nextRunID, FinalState(v), ErrorOf(v))
        && runs.completions == c.done + if v.Outdated? then [] else Range(c.first, runs.nextRunID)
    }

    /** The runs before m have ended in this state, each completed once; the rest are
        open. The loops that only pass this on do not say RunsAsked. */
    ghost predicate EndedUpTo(c: Context, projects: seq<string>, m: int, state: RunState, error: string)
      reads runs
    {
      && runs != null && runs.Valid() && c.first >= 1 && runs.nextRunID == c.first + |projects|
      && forall n {:trigger RunsAsked(n)} :: n == 0 ==>
           && Progress(runs.runs, c, projects, m, state, error)
           && runs.completions == c.done + Range(c.first, m)
    }

    lemma NoneEnded(c: Context, projects: seq<string>, ids: seq<int>, state: RunState, error: string)
      requires runs != null && AllRunning(c, projects, ids)
      ensures EndedUpTo(c, projects, c.first, state, error) && |ids| == |projects|
      ensures forall n :: 0 <= n < |ids| ==> ids[n] == c.first + n
    {
      assert RunsAsked(0);
      RangeIndex(c.first, runs.nextRunID);
      assert c.done + Range(c.first, c.first) == c.done;
      assert Progress(runs.runs, c, projects, c.first, state, error);
    }

    lemma AllEnded(c: Context, projects: seq<string>, m: int, v: Verdict)
      requires v != Outdated && m == c.first + |projects| && EndedUpTo(c, projects, m, FinalState(v), ErrorOf(v))
      ensures RunsEnded(c, projects, v)
    {
      assert RunsAsked(0);
    }

    /** The first run that is still open is completed. */
    method CompleteNext(id: int, state: RunState, error: string, ghost c: Context, ghost projects: seq<string>)
      requires EndedUpTo(c, projects, id, state, error) && id < c.first + |projects|
      modifies runs
      ensures EndedUpTo(c, projects, id + 1, state, error) && runs.artifacts == old(runs.artifacts)
    {
      assert RunsAsked(0);
      OneMore(runs.runs, c, projects, id, state, error);
      runs.Complete(id, state, error);
    }

    /** One turn of the loop in `failRuns`. */
    method FailUnlessCurrent(id: int, current: int, error: string, ghost c: Context, ghost projects: seq<string>, ghost end: int)
      requires c.first <= id < c.first + |projects| && end <= c.first + |projects|
      requires if current == 0 then end == c.first + |projects| else current == end == c.first + |projects| - 1
      requires EndedUpTo(c, projects, Min(id, end), RunState.Failed, error)
      modifies runs
      ensures EndedUpTo(c, projects, Min(id + 1, end), RunState.Failed, error)
    {
      if id <= 0 || id == current {
        return;
      }
      CompleteNext(id, RunState.Failed, error, c, projects);
    }

    /** `failRuns`: every started run but the current one, which comes last. */
    method FailRuns(ids: seq<int>, current: int, error: string, ghost c: Context, ghost projects: seq<string>, ghost end: int)
      requires runs != null && AllRunning(c, projects, ids)
      requires if current == 0 then end == runs.nextRunID else current == end == runs.nextRunID - 1 >= c.first
      modifies runs
      ensures EndedUpTo(c, projects, end, RunState.Failed, error)
    {
      NoneEnded(c, projects, ids, RunState.Failed, error);
      for n := 0 to |ids|
        invariant EndedUpTo(c, projects, Min(c.first + n, end), RunState.Failed, error)
      {
        FailUnlessCurrent(ids[n], current, error, c, projects, end);
      }
    }

    /** The way out on an error: fail the earlier runs, then the current one, then the check. */
    method Abort(evt: Admission.Event, ids: seq<int>, current: int, error: string, ghost c: Context, ghost projects: seq<string>)
      requires AllRunning(c, projects, ids)
      requires current == 0 || (runs != null && current == runs.nextRunID - 1 >= c.first)
      modifies runs, status
      ensures RunsEnded(c, projects, Erred(error))
      ensures status != null ==> status.items == old(status.items) + FinalCheck(evt.mr, evt.sha, Erred(error))
    {
      if runs != null {
        FailRuns(ids, current, error, c, projects, if current == 0 then runs.nextRunID else current);
        if current > 0 {
          CompleteNext(current, RunState.Failed, error, c, projects);
        }
      }
      if runs != null {
        AllEnded(c, projects, runs.nextRunID, Erred(error));
      }
      SetCheck(evt.mr, evt.sha, Vcs.Failed, error);
    }

    /** The run of the project in hand, if runs are kept; 0 otherwise. */
    method StartRun(evt: Admission.Event, project: string, ids: seq<int>, ghost c: Context, ghost projects: seq<string>)
      returns (id: int, ids': seq<int>)
      requires AllRunning(c, projects, ids) && c.mr == evt.mr && c.sha == evt.sha
      modifies runs
      ensures AllRunning(c, projects + [project], ids')
      ensures runs == null ==> id == 0
      ensures runs != null ==> id == runs.nextRunID - 1 >= c.first && runs.latestSHA == old(runs.latestSHA)
      ensures runs != null ==> runs.artifacts == old(runs.artifacts)
    {
      id, ids' := 0, ids;
      if runs != null {
        assert RunsAsked(0);
        var r := runs.Start(evt.mr, evt.sha, project);
        id, ids' := r.id, ids + [r.id];
        assert Progress(runs.runs, c, projects + [project], c.first, Running, "");
      }
    }

    /** The diff of one project and its plan. */
    method MakePlan(w: Work, ghost pl: Planning) returns (plan: ProjectPlan)
      requires Plans(pl, encoder)
      ensures plan == pl(w)
    {
      var changes, summary := Compute.Compute(w.desired, w.actual, w.Diff());
      plan := ProjectPlan(w.project, EncodedAll(changes, encoder), summary, w.findings);
      assert WorkAsked(w);
    }

    /** One project that is not stale: on an error everything is wound up. */
    method Visit(evt: Admission.Event, f: Found, ids: seq<int>, ghost c: Context, ghost projects: seq<string>, ghost pl: Planning)
      returns (err: Option<string>, ids': seq<int>, plans: seq<ProjectPlan>)
      requires AllRunning(c, projects, ids) && c.mr == evt.mr && c.sha == evt.sha && Plans(pl, encoder)
      modifies runs, status
      ensures err == if f.IsError() then Some(f.error) else None
      ensures err.None? ==> AllRunning(c, projects + f.Run(), ids') && plans == PlansOf(f, pl)
      ensures err.None? && runs != null ==> runs.latestSHA == old(runs.latestSHA) && runs.artifacts == old(runs.artifacts)
      ensures err.None? && status != null ==> status.items == old(status.items)
      ensures err.Some? ==> RunsEnded(c, projects + f.Run(), Erred(err.value))
      ensures err.Some? && status != null ==> status.items == old(status.items) + FinalCheck(evt.mr, evt.sha, Erred(err.value))
    {
      ids', plans := ids, [];
      assert projects + [] == projects;
      if f.LoadError? || f.RenderError? {
        Abort(evt, ids, 0, f.error, c, projects);
        err := Some(f.error);
        return;
      }
      if f.NoConfig? || f.NothingToPlan? {
        err := None;
        return;
      }
      var project := if f.Planned? then f.work.project else f.project;
      var current;
      current, ids' := StartRun(evt, project, ids, c, projects);
      if f.ReadError? {
        Abort(evt, ids', current, f.error, c, projects + [project]);
        err := Some(f.error);
        return;
      }
      var plan := MakePlan(f.work, pl);
      err, plans := None, [plan];
    }

    /** The commit recorded for the merge request when the i-th project is next. */
    ghost predicate LatestKnown(evt: Admission.Event, newer: nat -> Option<string>, i: nat)
      reads runs
    {
      runs != null ==>
        && evt.mr in runs.latestSHA
        && runs.latestSHA[evt.mr] == if i == 0 then evt.sha else LatestAt(evt.sha, newer, i - 1)
    }

    /** The check at the top of the loop: a stale plan is left with its runs open. */
    method IsOutdated(evt: Admission.Event, newer: nat -> Option<string>, i: nat, ghost ids: seq<int>, ghost c: Context, ghost projects: seq<string>)
      returns (stale: bool)
      requires AllRunning(c, projects, ids) && LatestKnown(evt, newer, i)
      modifies runs
      ensures AllRunning(c, projects, ids) && LatestKnown(evt, newer, i + 1)
      ensures runs != null ==> runs.artifacts == old(runs.artifacts)
      ensures stale == (runs != null && StaleAt(evt.sha, newer, i))
      ensures stale ==> RunsEnded(c, projects, Outdated)
    {
      assert RunsAsked(0);
      Meanwhile(evt.mr, newer(i));
      stale := runs != null && runs.IsStale(evt.mr, evt.sha);
    }

    /** The loop has come to the i-th project: e is how it will end. */
    ghost predicate Underway(evt: Admission.Event, found: seq<Found>, newer: nat -> Option<string>, c: Context, e: Ending, ids: seq<int>, i: nat)
      requires i <= |found|
      reads runs
    {
      && AllRunning(c, Started(found, i), ids) && LatestKnown(evt, newer, i)
      && e == EndFrom(found, newer, evt.sha, runs != null, i)
    }

    /** One turn of the loop over the projects: the i-th is stale, fails, or is added to
        what is gathered. */
    method PlanNext(evt: Admission.Event, found: seq<Found>, newer: nat -> Option<string>, i: nat, ids: seq<int>, ghost c: Context, ghost pl: Planning, ghost e: Ending)
      returns (stop: Option<Verdict>, ids': seq<int>, plans: seq<ProjectPlan>)
      requires i < |found| && c.mr == evt.mr && c.sha == evt.sha && Plans(pl, encoder)
      requires Underway(evt, found, newer, c, e, ids, i)
      modifies runs, status
      ensures stop.None? ==> Underway(evt, found, newer, c, e, ids', i + 1) && !found[i].IsError() && plans == PlansOf(found[i], pl)
      ensures stop.None? && runs != null ==> runs.artifacts == old(runs.artifacts)
      ensures stop.Some? ==> stop.value == e.verdict && !e.verdict.Completed? && RunsEnded(c, Started(found, e.reached), e.verdict)
      ensures status != null && stop.Some? && stop.value.Erred? ==>
        status.items == old(status.items) + FinalCheck(evt.mr, evt.sha, stop.value)
      ensures status != null && !(stop.Some? && stop.value.Erred?) ==> status.items == old(status.items)
    {
      ids', plans := ids, [];
      EndStep(found, newer, evt.sha, runs != null, i);
      assert Started(found, i + 1) == Started(found, i) + found[i].Run();
      assert e == if runs != null && StaleAt(evt.sha, newer, i) then Ending(Outdated, i)
        else if found[i].IsError() then Ending(Erred(found[i].error), i + 1)
        else EndFrom(found, newer, evt.sha, runs != null, i + 1);
      var stale := IsOutdated(evt, newer, i, ids, c, Started(found, i));
      if stale {
        return Some(Outdated), ids, plans;
      }
      var err;
      err, ids', plans := Visit(evt, found[i], ids, c, Started(found, i), pl);
      stop := if err.Some? then Some(Erred(err.value)) else None;
    }

    /** The loop over the discovered projects. */
    method PlanProjects(evt: Admission.Event, found: seq<Found>, newer: nat -> Option<string>, ghost c: Context, ghost pl: Planning, ghost e: Ending)
      returns (v: Verdict, g: Gathered, ids: seq<int>)
      requires c.mr == evt.mr && c.sha == evt.sha && Plans(pl, encoder)
      requires Underway(evt, found, newer, c, e, [], 0)
      modifies runs, status
      ensures v == e.verdict
      ensures !v.Completed? ==> RunsEnded(c, Started(found, e.reached), v)
      ensures v.Completed? ==> AllRunning(c, Started(found, |found|), ids) && g == Gather(found, pl, |found|) && e.reached == |found|
      ensures v.Completed? ==> forall k :: 0 <= k < |found| ==> !found[k].IsError()
      ensures v.Completed? && runs != null ==> runs.artifacts == old(runs.artifacts)
      ensures status != null && v.Erred? ==> status.items == old(status.items) + FinalCheck(evt.mr, evt.sha, v)
      ensures status != null && !v.Erred? ==> status.items == old(status.items)
    {
      g, ids := Gathered(false, [], 0), [];
      for i := 0 to |found|
        invariant Underway(evt, found, newer, c, e, ids, i) && g == Gather(found, pl, i)
        invariant runs != null ==> runs.artifacts == old(runs.artifacts)
        invariant status != null ==> status.items == old(status.items)
        invariant forall k :: 0 <= k < i ==> !found[k].IsError()
      {
        var stop, plans;
        stop, ids, plans := PlanNext(evt, found, newer, i, ids, c, pl, e);
        if stop.Some? {
          v := stop.value;
          return;
        }
        g := Gain(g, found[i], plans);
      }
      v := Completed;
    }

    /** The loop that files the comment under every run and completes it. */
    method FinishRuns(ids: seq<int>, body: string, commentID: int, ghost c: Context, ghost projects: seq<string>)
      requires runs != null && AllRunning(c, projects, ids)
      modifies runs
      ensures RunsEnded(c, projects, Completed)
      ensures FiledUpTo(old(runs.artifacts), c.first, runs.nextRunID, body, commentID)
    {
      NoneEnded(c, projects, ids, RunState.Success, "");
      NoneFiled(c.first, body, commentID);
      for n := 0 to |ids|
        invariant EndedUpTo(c, projects, c.first + n, RunState.Success, "")
        invariant FiledUpTo(old(runs.artifacts), c.first, c.first + n, body, commentID)
      {
        if ids[n] > 0 {
          FinishRun(ids[n], body, commentID, c, projects, old(runs.artifacts));
        }
      }
      AllEnded(c, projects, c.first + |ids|, Completed);
    }

    method FinishRun(id: int, body: string, commentID: int, ghost c: Context, ghost projects: seq<string>, ghost files: Files)
      requires EndedUpTo(c, projects, id, RunState.Success, "") && id < c.first + |projects|
      requires FiledUpTo(files, c.first, id, body, commentID)
      modifies runs
      ensures EndedUpTo(c, projects, id + 1, RunState.Success, "")
      ensures FiledUpTo(files, c.first, id + 1, body, commentID)
    {
      assert FilesAsked(0) && RunsAsked(0);
      runs.AddArtifact(id, "plan-comment", body);
      if commentID > 0 {
        runs.AddArtifact(id, "comment-id", Decimal(commentID));
      }
      assert runs.artifacts == FiledAll(files, c.first, id + 1, body, commentID);
      CompleteNext(id, RunState.Success, "", c, projects);
    }

    /** The thread of the merge request after a new comment. */
    ghost predicate Commented(before: Vcs.Threads, id: int, mr: int, body: string)
      reads comments
    {
      comments != null ==>
        comments.Valid() && comments.comments == before[mr := Vcs.Posted(Vcs.ThreadOf(before, mr), Vcs.Comment(id, mr, body, false, 0))]
    }

    method BuildBody(evt: Admission.Event, g: Gathered) returns (body: string)
      requires forall p :: p in g.plans ==> |p.changes| < MAX_LENGTH
      ensures Tells(body, evt.sha, evt.files, g)
    {
      if |g.plans| == 0 {
        body := BuildNoChangesComment(evt.sha, evt.files, 50);
      } else {
        ghost var parts;
        body, parts := BuildAggregatedPlanComment(evt.sha, g.plans, g.maxDetails);
      }
    }

    /** After the loop: the comment, and the runs that it completes. */
    method Publish(evt: Admission.Event, g: Gathered, ids: seq<int>, ghost c: Context, ghost projects: seq<string>)
      returns (body: string)
      requires AllRunning(c, projects, ids) && (!g.planned ==> projects == [] && g.plans == [])
      requires comments != null ==> comments.Valid()
      requires forall p :: p in g.plans ==> |p.changes| < MAX_LENGTH
      modifies runs, comments
      ensures RunsEnded(c, projects, Completed) && Tells(body, evt.sha, evt.files, g)
      ensures comments != null ==> Commented(old(comments.comments), old(comments.nextID), evt.mr, body)
      ensures runs != null ==> FiledUpTo(old(runs.artifacts), c.first, runs.nextRunID, body, if comments == null then 0 else old(comments.nextID))
    {
      body := BuildBody(evt, g);
      var commentID := 0;
      if comments != null {
        var comment := comments.PostOrSupersede(evt.mr, body);
        commentID := comment.id;
      }
      if !g.planned && runs != null {
        NoneEnded(c, projects, ids, RunState.Success, "");
        AllEnded(c, projects, c.first, Completed);
        NoneFiled(c.first, body, commentID);
      }
      if g.planned && runs != null {
        FinishRuns(ids, body, commentID, c, projects);
      }
    }

    /** The comment is filed under the runs before m of a plan, and nothing else is.
        Proofs that only pass this on do not say FilesAsked. */
    ghost predicate FiledUpTo(before: Files, first: int, m: int, body: string, commentID: int)
      requires runs != null
      reads runs
    {
      forall n {:trigger FilesAsked(n)} :: n == 0 ==> runs.artifacts == FiledAll(before, first, m, body, commentID)
    }

    lemma NoneFiled(first: int, body: string, commentID: int)
      requires runs != null
      ensures FiledUpTo(runs.artifacts, first, first, body, commentID)
    {
      assert runs.artifacts == FiledAll(runs.artifacts, first, first, body, commentID);
    }

    /** `PlanForEvent`. look is what there is at a config path; newer, what another
        worker records meanwhile. The result is the error, if any; e is what happened. */
    method PlanForEvent(evt: Admission.Event, look: string -> Found, newer: nat -> Option<string>)
      returns (err: Option<string>, ghost found: seq<Found>, ghost pl: Planning, ghost e: Ending, ghost body: string)
      requires Valid() && Sized(look)
      modifies runs, comments, status
      ensures Valid() && Finds(found, evt.files, look) && Plans(pl, encoder) && e == EndFrom(found, newer, evt.sha, runs != null, 0)
      ensures err == if e.verdict.Erred? then Some(e.verdict.error) else None
      // In terms of what the caller gets: the checks and the runs say what the error says.
      ensures status != null ==> ChecksConclude(old(status.items), status.items, evt.mr, evt.sha, err, e.verdict.Outdated?)
      ensures runs != null ==> RunsConclude(runs.runs, old(runs.nextRunID), runs.nextRunID, evt.mr, evt.sha, err, e.verdict.Outdated?)
      // One pending check, then one final check unless the plan is outdated.
      ensures status != null ==> status.items == old(status.items) + Checks(evt.mr, evt.sha, e.verdict)
      // One run for each project planned, all ended with the same result; no other run changes.
      ensures runs != null ==>
        RunsEnded(Context(old(runs.runs), old(runs.nextRunID), old(runs.completions), evt.mr, evt.sha), Started(found, e.reached), e.verdict)
      // A completed plan posts one comment and files it under its runs; any other posts none.
      ensures e.verdict.Completed? ==> Tells(body, evt.sha, evt.files, Gather(found, pl, e.reached))
      ensures e.verdict.Completed? && runs != null ==>
        FiledUpTo(old(runs.artifacts), old(runs.nextRunID), runs.nextRunID, body, if comments == null then 0 else old(comments.nextID))
      ensures comments != null && e.verdict.Completed? ==> Commented(old(comments.comments), old(comments.nextID), evt.mr, body)
      ensures comments != null && !e.verdict.Completed? ==> comments.comments == old(comments.comments)
    {
      ghost var c := Context(map[], 1, [], evt.mr, evt.sha);
      if runs != null {
        c := Context(runs.runs, runs.nextRunID, runs.completions, evt.mr, evt.sha);
        runs.SetLatestSHA(evt.mr, evt.sha);
        assert Progress(runs.runs, c, [], c.first, Running, "");
      }
      SetCheck(evt.mr, evt.sha, Vcs.Pending, "Thule plan running");
      var projects := Discover(evt.files, look);
      found := projects;
      e := EndFrom(found, newer, evt.sha, runs != null, 0);
      pl := APlanning(encoder);
      err, body := PlanFound(evt, projects, newer, c, pl);
      if status != null { ChecksDo(old(status.items), evt.mr, evt.sha, e.verdict); }
      if runs != null { RunsDo(runs.runs, c, Started(found, e.reached), runs.nextRunID, e.verdict); }
    }

    /** The rest of the plan, once the projects are known. */
    method PlanFound(evt: Admission.Event, found: seq<Found>, newer: nat -> Option<string>, ghost c: Context, ghost pl: Planning)
      returns (err: Option<string>, ghost body: string)
      requires Valid() && AllRunning(c, [], []) && c.mr == evt.mr && c.sha == evt.sha && Plans(pl, encoder)
      requires runs != null ==> evt.mr in runs.latestSHA && runs.latestSHA[evt.mr] == evt.sha
      requires forall f :: f in found ==> SmallWork(f)
      modifies runs, comments, status
      ensures Valid()
      ensures var e := EndFrom(found, newer, evt.sha, runs != null, 0);
        && err == (if e.verdict.Erred? then Some(e.verdict.error) else None)
        && (status != null ==> status.items == old(status.items) + FinalCheck(evt.mr, evt.sha, e.verdict))
        && RunsEnded(c, Started(found, e.reached), e.verdict)
        && (e.verdict.Completed? ==> Tells(body, evt.sha, evt.files, Gather(found, pl, e.reached)))
        && (e.verdict.Completed? && runs != null ==>
              FiledUpTo(old(runs.artifacts), c.first, runs.nextRunID, body, if comments == null then 0 else old(comments.nextID)))
        && (comments != null && e.verdict.Completed? ==> Commented(old(comments.comments), old(comments.nextID), evt.mr, body))
        && (comments != null && !e.verdict.Completed? ==> comments.comments == old(comments.comments))
    {
      body := "";
      var v, g, ids := PlanProjects(evt, found, newer, c, pl, EndFrom(found, newer, evt.sha, runs != null, 0));
      match v
      case Outdated => err := None;
      case Erred(message) => err := Some(message);
      case Completed =>
        StartedArePlanned(found, pl, encoder, |found|);
        GatheredSized(found, pl, encoder, |found|);
        var text := Publish(evt, g, ids, c, Started(found, |found|));
        body := text;
        SetCheck(evt.mr, evt.sha, Vcs.Success, "Thule plan completed");
        err := None;
    }

    /** What another worker may do between two projects: record a newer commit. */
    method Meanwhile(mr: int, newer: Option<string>)
      modifies runs
      ensures runs != null ==> runs.latestSHA == if newer.Some? then old(runs.latestSHA)[mr := newer.value] else old(runs.latestSHA)
      ensures runs != null ==> runs.nextRunID == old(runs.nextRunID) && runs.runs == old(runs.runs) && runs.byMR == old(runs.byMR)
      ensures runs != null ==> runs.artifacts == old(runs.artifacts) && runs.completions == old(runs.completions)
    {
      if runs != null && newer.Some? {
        runs.SetLatestSHA(mr, newer.value);
      }
    }
  }
}
