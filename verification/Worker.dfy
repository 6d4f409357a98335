/**
 `runWorker`: one job after the other is taken from the queue and planned. Nothing
 else writes to the run store, so here the plans are one at a time for real.
 */
module Worker {
  import opened Options
  import opened Queue
  import opened RunStore
  import opened Planner
  import Admission
  import Vcs

  /** What happens around one turn of the loop: the jobs sent since the last one, of which
      those the queue has no room for still wait; the job that arrives if the worker has to
      wait for one; whether the repository could be synced (or needs no sync); the changed
      files the host and git name; and what there is at each config path. */
  datatype Turn = Turn(
    sent: seq<Job>,
    next: Job,
    synced: bool,
    hostFiles: Option<seq<string>>,
    gitFiles: Option<seq<string>>,
    look: string -> Found)

  // ----- The queue -----

  /** What comes into the queue in a turn. */
  function Came(queue: seq<Job>, capacity: nat, t: Turn): (jobs: seq<Job>)
    requires |queue| <= capacity
    ensures queue + jobs != []
  {
    var put := t.sent[..Min(|t.sent|, capacity - |queue|)];
    if queue == [] && put == [] then [t.next] else put
  }

  /** The jobs taken and come, and the queue, after the first n turns. */
  datatype Flow = Flow(taken: seq<Job>, come: seq<Job>, queue: seq<Job>)

  function FlowAt(queue: seq<Job>, capacity: nat, turns: seq<Turn>, n: nat): (f: Flow)
    requires |queue| <= capacity && n <= |turns|
    ensures |f.taken| == n && |f.queue| <= capacity
  {
    if n == 0 then Flow([], [], queue)
    else
      var f := FlowAt(queue, capacity, turns, n - 1);
      var came := Came(f.queue, capacity, turns[n - 1]);
      var all := f.queue + came;
      Flow(f.taken + [all[0]], f.come + came, all[1..])
  }

  /** Jobs are taken in the order in which they came, none lost and none twice. */
  lemma {:induction false} FirstInFirstOut(queue: seq<Job>, capacity: nat, turns: seq<Turn>, n: nat)
    requires |queue| <= capacity && n <= |turns|
    ensures var f := FlowAt(queue, capacity, turns, n); f.taken + f.queue == queue + f.come
  {
    if n > 0 {
      FirstInFirstOut(queue, capacity, turns, n - 1);
      var f := FlowAt(queue, capacity, turns, n - 1);
      TakeFirst(f.taken, f.queue, queue, f.come, Came(f.queue, capacity, turns[n - 1]));
    }
  }

  lemma TakeFirst(taken: seq<Job>, queue: seq<Job>, start: seq<Job>, come: seq<Job>, came: seq<Job>)
    requires taken + queue == start + come && queue + came != []
    ensures (taken + [(queue + came)[0]]) + (queue + came)[1..] == start + (come + came)
  {
    var all := queue + came;
    assert [all[0]] + all[1..] == all;
    assert (taken + [all[0]]) + all[1..] == taken + all;
    assert taken + (queue + came) == (taken + queue) + came;
    assert (start + come) + came == start + (come + came);
  }

  /** The senders' part of a turn, then the worker's: it takes the oldest job, or waits
      for one. */
  method Receive(q: MemoryQueue, t: Turn) returns (job: Job)
    requires q.Valid()
    modifies q
    ensures q.Valid()
    ensures var all := old(q.jobs) + Came(old(q.jobs), q.capacity, t); job == all[0] && q.jobs == all[1..]
  {
    ghost var before := q.jobs;
    var i := 0;
    while i < |t.sent| && |q.jobs| < q.capacity
      invariant 0 <= i <= |t.sent| && q.Valid() && q.jobs == before + t.sent[..i]
    {
      var ok;
      ghost var taken;
      ok, taken := q.Enqueue(t.sent[i], false);
      assert taken == [];
      assert [] + q.jobs == q.jobs;
      i := i + 1;
    }
    assert q.jobs == before + t.sent[..Min(|t.sent|, q.capacity - |before|)];
    var next := q.Dequeue(false, t.next);
    job := next.value;
  }

  // ----- One job -----

  /** The job's own files, else those the host names, else those git names. */
  function FilesFor(job: Job, t: Turn): (files: seq<string>) {
    var files := if job.files == [] && job.mr > 0 && t.hostFiles.Some? then t.hostFiles.value else job.files;
    if files == [] && t.gitFiles.Some? then t.gitFiles.value else files
  }

  /** A job's own files are never replaced; otherwise the host's come first, and git is
      asked only if there are still none. */
  lemma FilesForPrefers(job: Job, t: Turn)
    ensures job.files != [] ==> FilesFor(job, t) == job.files
    ensures job.files == [] && job.mr > 0 && t.hostFiles.Some? && t.hostFiles.value != [] ==> FilesFor(job, t) == t.hostFiles.value
    ensures job.files == [] && (job.mr <= 0 || t.hostFiles.None? || t.hostFiles.value == []) ==>
      FilesFor(job, t) == if t.gitFiles.Some? then t.gitFiles.value else []
  {
  }

  function EventFor(job: Job, t: Turn): (evt: Admission.Event) {
    Admission.Event(job.delivery, job.eventType, job.repo, job.mr, job.sha, job.baseRef, FilesFor(job, t))
  }

  function Alone(i: nat): Option<string> { None }

  /** How a job ended: it could not be synced, or its plan came to a verdict. */
  datatype Entry = Skipped(job: Job) | Done(job: Job, found: seq<Found>, verdict: Verdict)
  type Log = seq<Entry>

  /** The entry is the one for this job: a plan fails iff a project of its files does. */
  ghost predicate Logged(entry: Entry, job: Job, t: Turn) {
    && entry.job == job
    && entry.Done? == t.synced
    && (entry.Done? ==>
          && Finds(entry.found, FilesFor(job, t), t.look)
          && entry.verdict != Outdated
          && (entry.verdict.Erred? <==> Failing(entry.found)))
  }

  ghost predicate Failing(found: seq<Found>) {
    exists k :: 0 <= k < |found| && found[k].IsError()
  }

  // ----- What the jobs write -----

  function ChecksOf(entry: Entry): (cs: seq<Vcs.StatusCheck>) {
    if entry.Done? then Checks(entry.job.mr, entry.job.sha, entry.verdict) else []
  }

  /** The comments a job adds to a merge request. */
  function PostsOf(entry: Entry, mr: int): (k: nat) {
    if entry.Done? && entry.job.mr == mr && entry.verdict == Completed then 1 else 0
  }

  /** The status checks written for the first n jobs. */
  function Trace(log: Log, n: nat): (cs: seq<Vcs.StatusCheck>)
    requires n <= |log|
  {
    if n == 0 then [] else Trace(log, n - 1) + ChecksOf(log[n - 1])
  }

  /** How many comments the first n jobs post on a merge request. */
  function Posts(log: Log, mr: int, n: nat): (k: nat)
    requires n <= |log|
  {
    if n == 0 then 0 else Posts(log, mr, n - 1) + PostsOf(log[n - 1], mr)
  }

  /** Checks come in pairs: pending, then at once the final one of the same commit. */
  ghost predicate InPairs(cs: seq<Vcs.StatusCheck>) {
    && |cs| % 2 == 0
    && forall i :: 0 <= i < |cs| && i % 2 == 0 ==>
         && cs[i].state == Vcs.Pending
         && cs[i + 1].state != Vcs.Pending
         && cs[i + 1].mr == cs[i].mr && cs[i + 1].sha == cs[i].sha
  }

  lemma {:induction false} TraceInPairs(log: Log, n: nat)
    requires n <= |log| && forall i :: 0 <= i < |log| && log[i].Done? ==> log[i].verdict != Outdated
    ensures InPairs(Trace(log, n))
  {
    if n > 0 {
      TraceInPairs(log, n - 1);
      PairAdded(Trace(log, n - 1), log[n - 1]);
    }
  }

  /** The checks of a job that was planned: pending, then Success exactly when no project
      of its files failed. */
  lemma EntryTells(entry: Entry, job: Job, t: Turn)
    requires Logged(entry, job, t) && entry.Done?
    ensures var cs := ChecksOf(entry);
      && |cs| == 2 && cs[0].state == Vcs.Pending && cs[0].mr == job.mr && cs[0].sha == job.sha
      && cs[1].mr == job.mr && cs[1].sha == job.sha
      && cs[1].state == (if Failing(entry.found) then Vcs.Failed else Vcs.Success)
  {
  }

  /** So after n jobs, the last of them planned, the last check tells whether it failed. */
  lemma LastCheckTells(log: Log, jobs: seq<Job>, turns: seq<Turn>, n: nat)
    requires LoggedAll(log, jobs, turns, |log|) && 0 < n <= |log| && log[n - 1].Done?
    ensures LastTells(Trace(log, n), jobs[n - 1].mr, jobs[n - 1].sha, log[n - 1].found)
  {
    EntryTells(log[n - 1], jobs[n - 1], turns[n - 1]);
  }

  lemma PairAdded(cs: seq<Vcs.StatusCheck>, entry: Entry)
    requires InPairs(cs) && (entry.Done? ==> entry.verdict != Outdated)
    ensures InPairs(cs + ChecksOf(entry))
  {
    var all := cs + ChecksOf(entry);
    if entry.Done? {
      assert |ChecksOf(entry)| == 2;
      forall i | 0 <= i < |all| && i % 2 == 0
        ensures all[i].state == Vcs.Pending && all[i + 1].state != Vcs.Pending && all[i + 1].mr == all[i].mr && all[i + 1].sha == all[i].sha
      {
        if i < |cs| {
          assert i + 1 < |cs| && all[i] == cs[i] && all[i + 1] == cs[i + 1];
        } else {
          assert i == |cs|;
        }
      }
    } else {
      assert all == cs;
    }
  }

  /** What a commit's checks show between two jobs: the last one is never pending. */
  lemma {:induction false} LastIsFinal(cs: seq<Vcs.StatusCheck>, mr: int, sha: string)
    requires InPairs(cs) && Vcs.StatusesOf(cs, mr, sha) != []
    ensures var shown := Vcs.StatusesOf(cs, mr, sha); shown[|shown| - 1].state != Vcs.Pending
    decreases |cs|
  {
    var n := |cs| - 2;
    var pending, final := cs[n], cs[n + 1];
    assert n % 2 == 0 && final.mr == pending.mr && final.sha == pending.sha;
    assert cs[..n + 1][..n] == cs[..n];
    var rest := cs[..n];
    assert forall i :: 0 <= i < n ==> rest[i] == cs[i];
    assert InPairs(rest);
    if final.mr != mr || final.sha != sha {
      LastIsFinal(rest, mr, sha);
    }
  }

  // ----- The runs -----

  /** No run is open, and each was completed exactly once, in order. */
  ghost predicate Settled(runs: Runs, next: int, completions: seq<int>) {
    && (forall id :: id in runs ==> runs[id].state != Running)
    && completions == Range(1, next)
  }

  lemma {:induction false} RangeJoin(a: int, b: int, c: int)
    requires a <= b <= c
    ensures Range(a, b) + Range(b, c) == Range(a, c)
    decreases c - b
  {
    if b < c {
      RangeJoin(a, b, c - 1);
      assert Range(b, c) == Range(b, c - 1) + [c - 1];
      assert Range(a, b) + (Range(b, c - 1) + [c - 1]) == (Range(a, b) + Range(b, c - 1)) + [c - 1];
    } else {
      assert Range(b, c) == [];
    }
  }

  lemma SettledAfter(runs: Runs, c: Context, projects: seq<string>, v: Verdict, completions: seq<int>, end: int)
    requires Settled(c.runs, c.first, c.done) && c.first >= 1 && v != Outdated && end == c.first + |projects|
    requires Progress(runs, c, projects, end, FinalState(v), ErrorOf(v))
    requires forall id :: id in runs ==> id < end
    requires completions == c.done + Range(c.first, end)
    ensures Settled(runs, end, completions)
  {
    assert completions == Range(1, end) by { RangeJoin(1, c.first, end); }
    assert forall id :: id in runs ==> runs[id].state != Running by { NoneOpen(runs, c, projects, v); }
  }

  lemma NoneOpen(runs: Runs, c: Context, projects: seq<string>, v: Verdict)
    requires v != Outdated && (forall id :: id in c.runs ==> c.runs[id].state != Running)
    requires SameBefore(runs, c.runs, c.first)
    requires EachRun(runs, c, projects, c.first, c.first + |projects|, FinalState(v), ErrorOf(v))
    requires forall id :: id in runs ==> id < c.first + |projects|
    ensures forall id :: id in runs ==> runs[id].state != Running
  {
    forall id | id in runs ensures runs[id].state != Running {
      if id < c.first {
        assert id in c.runs && runs[id] == c.runs[id];
      } else {
        assert runs[id].state == FinalState(v);
      }
    }
  }

  /** The stores of a planner before or after a job. */
  ghost predicate Tidy(p: PlanService)
    reads p.runs, p.comments
  {
    p.Valid() && (p.runs != null ==> Settled(p.runs.runs, p.runs.nextRunID, p.runs.completions))
  }

  ghost function Thread(p: PlanService, mr: int): (items: seq<Vcs.Comment>)
    reads p.comments
  {
    if p.comments == null then [] else Vcs.ThreadOf(p.comments.comments, mr)
  }

  /** The last check is on this commit, and Success exactly when no project failed. */
  ghost predicate LastTells(items: seq<Vcs.StatusCheck>, mr: int, sha: string, found: seq<Found>) {
    && items != []
    && (var last := items[|items| - 1];
        last.mr == mr && last.sha == sha && last.state == if Failing(found) then Vcs.Failed else Vcs.Success)
  }

  /** One plan with no other beside it. */
  method PlanAlone(p: PlanService, evt: Admission.Event, look: string -> Found, ghost mr: int)
    returns (ghost found: seq<Found>, ghost v: Verdict)
    requires Tidy(p) && Sized(look)
    modifies p.runs, p.comments, p.status
    ensures Finds(found, evt.files, look) && v != Outdated && (v.Erred? <==> Failing(found))
    ensures Tidy(p)
    ensures p.status != null ==> LastTells(p.status.items, evt.mr, evt.sha, found)
    ensures p.status != null ==> p.status.items == old(p.status.items) + Checks(evt.mr, evt.sha, v)
    ensures p.comments != null ==> |Thread(p, mr)| == old(|Thread(p, mr)|) + if mr == evt.mr && v == Completed then 1 else 0
  {
    ghost var before := if p.runs == null then Context(map[], 1, [], evt.mr, evt.sha)
      else Context(p.runs.runs, p.runs.nextRunID, p.runs.completions, evt.mr, evt.sha);
    ghost var threads, id := map[], 0;
    if p.comments != null {
      threads, id := p.comments.comments, p.comments.nextID;
    }
    var err;
    ghost var pl, e, body;
    err, found, pl, e, body := p.PlanForEvent(evt, look, Alone);
    v := e.verdict;
    AloneNeverOutdated(found, Alone, evt.sha, p.runs != null, 0);
    if p.comments != null && v == Completed {
      Vcs.OneMore(threads, Vcs.Comment(id, evt.mr, body, false, 0), mr);
    }
    StillTidy(p, before, Started(found, e.reached), v);
  }

  lemma StillTidy(p: PlanService, c: Context, projects: seq<string>, v: Verdict)
    requires p.Valid() && p.RunsEnded(c, projects, v) && v != Outdated
    requires p.runs != null ==> Settled(c.runs, c.first, c.done) && c.first >= 1
    ensures Tidy(p)
  {
    if p.runs != null {
      SettledAfter(p.runs.runs, c, projects, v, p.runs.completions, p.runs.nextRunID);
    }
  }

  // ----- The loop -----

  /** All status checks, and how many comments one merge request has. */
  datatype Output = Output(checks: seq<Vcs.StatusCheck>, comments: nat)

  ghost function OutputOf(p: PlanService, mr: int): (o: Output)
    reads p.comments, p.status
  {
    Output(if p.status == null then [] else p.status.items, |Thread(p, mr)|)
  }

  ghost predicate TraceAsked(n: nat) {
    true
  }

  /** What the jobs add to the output; the worker's loop only passes this on and does
      not say TraceAsked. */
  ghost predicate Adds(p: PlanService, before: Output, after: Output, log: Log, mr: int) {
    forall n {:trigger TraceAsked(n)} :: n == 0 ==>
      && (p.status != null ==> after.checks == before.checks + Trace(log, |log|))
      && (p.comments != null ==> after.comments == before.comments + Posts(log, mr, |log|))
  }

  /** One job. An error of the plan is only logged. */
  method WorkOn(p: PlanService, job: Job, t: Turn, ghost mr: int, ghost start: Output, ghost log: Log) returns (ghost entry: Entry)
    requires Tidy(p) && Sized(t.look) && Adds(p, start, OutputOf(p, mr), log, mr)
    modifies p.runs, p.comments, p.status
    ensures Tidy(p) && Logged(entry, job, t)
    ensures Adds(p, start, OutputOf(p, mr), log + [entry], mr)
  {
    ghost var before := OutputOf(p, mr);
    entry := Skipped(job);
    if t.synced {
      ghost var found, v := PlanAlone(p, EventFor(job, t), t.look, mr);
      entry := Done(job, found, v);
    }
    LogGrows(p, start, before, OutputOf(p, mr), log, entry, mr);
  }

  lemma LogGrows(p: PlanService, a: Output, b: Output, c: Output, log: Log, entry: Entry, mr: int)
    requires Adds(p, a, b, log, mr)
    requires p.status != null ==> c.checks == b.checks + ChecksOf(entry)
    requires p.comments != null ==> c.comments == b.comments + PostsOf(entry, mr)
    ensures Adds(p, a, c, log + [entry], mr)
  {
    assert TraceAsked(0);
    LogPrefix(log, entry, mr, |log|);
    var more := log + [entry];
    assert Trace(more, |more|) == Trace(log, |log|) + ChecksOf(entry);
    assert Posts(more, mr, |more|) == Posts(log, mr, |log|) + PostsOf(entry, mr);
    assert p.status != null ==> c.checks == a.checks + (Trace(log, |log|) + ChecksOf(entry));
  }

  lemma {:induction false} LogPrefix(log: Log, entry: Entry, mr: int, n: nat)
    requires n <= |log|
    ensures Trace(log + [entry], n) == Trace(log, n) && Posts(log + [entry], mr, n) == Posts(log, mr, n)
  {
    if n > 0 { LogPrefix(log, entry, mr, n - 1); }
  }

  /** The worker's loop, over any turns. The jobs are those that FlowAt says; afterwards
      every run is settled, every thread is chained to one standing comment, and the checks
      written are those of the jobs, in order. mr is any merge request. */
  method RunWorker(q: MemoryQueue, p: PlanService, turns: seq<Turn>, ghost mr: int) returns (ghost log: Log)
    requires q.Valid() && Tidy(p) && forall i :: 0 <= i < |turns| ==> Sized(turns[i].look)
    modifies q, p.runs, p.comments, p.status
    ensures q.Valid() && Went(q.jobs, log, old(q.jobs), q.capacity, turns, |turns|)
    ensures Tidy(p) && Adds(p, old(OutputOf(p, mr)), OutputOf(p, mr), log, mr)
  {
    ghost var queue, start := q.jobs, OutputOf(p, mr);
    log := [];
    NothingAdded(p, start, mr);
    NoneWent(queue, q.capacity, turns);
    for n := 0 to |turns|
      invariant q.Valid() && Went(q.jobs, log, queue, q.capacity, turns, n)
      invariant Tidy(p) && Adds(p, start, OutputOf(p, mr), log, mr)
    {
      log := TakeTurn(q, p, turns, n, mr, queue, start, log);
    }
  }

  ghost predicate FlowAsked(k: nat) {
    true
  }

  /** After the first n turns: the jobs taken are those that FlowAt says, each has its
      entry in the log, and the rest of the queue is as FlowAt says. The loop only passes
      this on and does not say FlowAsked. */
  ghost predicate Went(jobs: seq<Job>, log: Log, queue: seq<Job>, capacity: nat, turns: seq<Turn>, n: nat)
    requires |queue| <= capacity && n <= |turns|
  {
    forall k {:trigger FlowAsked(k)} :: k == 0 ==>
      var f := FlowAt(queue, capacity, turns, n);
      jobs == f.queue && LoggedAll(log, f.taken, turns, n)
  }

  method TakeTurn(q: MemoryQueue, p: PlanService, turns: seq<Turn>, n: nat, ghost mr: int, ghost queue: seq<Job>, ghost start: Output, ghost log: Log)
    returns (ghost log': Log)
    requires q.Valid() && n < |turns| && |queue| <= q.capacity && Went(q.jobs, log, queue, q.capacity, turns, n)
    requires Tidy(p) && Sized(turns[n].look) && Adds(p, start, OutputOf(p, mr), log, mr)
    modifies q, p.runs, p.comments, p.status
    ensures q.Valid() && Went(q.jobs, log', queue, q.capacity, turns, n + 1)
    ensures Tidy(p) && Adds(p, start, OutputOf(p, mr), log', mr)
  {
    ghost var before := q.jobs;
    var job := Receive(q, turns[n]);
    ghost var rest := q.jobs;
    ghost var entry := WorkOn(p, job, turns[n], mr, start, log);
    log' := log + [entry];
    NextWent(before, log, queue, q.capacity, turns, n, job, rest, entry);
  }

  lemma NoneWent(queue: seq<Job>, capacity: nat, turns: seq<Turn>)
    requires |queue| <= capacity
    ensures Went(queue, [], queue, capacity, turns, 0)
  {
    assert FlowAt(queue, capacity, turns, 0) == Flow([], [], queue);
    assert LoggedAll([], [], turns, 0);
  }

  lemma NextWent(jobs: seq<Job>, log: Log, queue: seq<Job>, capacity: nat, turns: seq<Turn>, n: nat, job: Job, rest: seq<Job>, entry: Entry)
    requires |queue| <= capacity && n < |turns| && |jobs| <= capacity && Went(jobs, log, queue, capacity, turns, n)
    requires var all := jobs + Came(jobs, capacity, turns[n]); job == all[0] && rest == all[1..]
    requires Logged(entry, job, turns[n])
    ensures Went(rest, log + [entry], queue, capacity, turns, n + 1)
  {
    assert FlowAsked(0);
    var f := FlowAt(queue, capacity, turns, n);
    NextLogged(log, f.taken, turns, n, entry, job);
    var f' := NextFlow(queue, capacity, turns, n, f, job, rest);
  }

  /** The log of the first n turns, job by job. */
  ghost predicate LoggedAll(log: Log, jobs: seq<Job>, turns: seq<Turn>, n: nat) {
    |log| == |jobs| == n <= |turns| && forall i :: 0 <= i < n ==> Logged(log[i], jobs[i], turns[i])
  }

  lemma NextLogged(log: Log, jobs: seq<Job>, turns: seq<Turn>, n: nat, entry: Entry, job: Job)
    requires LoggedAll(log, jobs, turns, n) && n < |turns| && Logged(entry, job, turns[n])
    ensures LoggedAll(log + [entry], jobs + [job], turns, n + 1)
  {
  }

  lemma NextFlow(queue: seq<Job>, capacity: nat, turns: seq<Turn>, n: nat, f: Flow, job: Job, rest: seq<Job>) returns (f': Flow)
    requires |queue| <= capacity && n < |turns| && f == FlowAt(queue, capacity, turns, n)
    requires var all := f.queue + Came(f.queue, capacity, turns[n]); job == all[0] && rest == all[1..]
    ensures f' == FlowAt(queue, capacity, turns, n + 1) && f'.taken == f.taken + [job] && f'.queue == rest
  {
    f' := FlowAt(queue, capacity, turns, n + 1);
  }

  lemma NothingAdded(p: PlanService, o: Output, mr: int)
    ensures Adds(p, o, o, [], mr)
  {
    assert Trace([], 0) == [] && Posts([], mr, 0) == 0;
  }

  /** What the worker adds to the checks comes in pairs, so that between two jobs no
      commit of theirs is left pending. */
  lemma WorkIsInPairs(p: PlanService, before: Output, after: Output, jobs: seq<Job>, log: Log, queue: seq<Job>, capacity: nat, turns: seq<Turn>, mr: int)
    requires p.status != null && Adds(p, before, after, log, mr)
    requires |queue| <= capacity && Went(jobs, log, queue, capacity, turns, |turns|)
    ensures before.checks <= after.checks && InPairs(after.checks[|before.checks|..])
  {
    assert TraceAsked(0) && FlowAsked(0);
    TraceInPairs(log, |log|);
    assert after.checks[|before.checks|..] == Trace(log, |log|);
  }
}
