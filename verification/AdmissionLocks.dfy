/**
 Locks and jobs. The roots of a queued job belong to its merge request until that
 merge request is closed, so two merge requests never have jobs for a common root
 without a close in between. This is kept by every step but one, and by that one, the
 close of a merge request, exactly when no other call for it has a lock already and
 its job still to queue.
 */
module AdmissionLocks {
  import opened Options
  import opened Discovery
  import opened Locker
  import opened Queue
  import opened Admission

  /** A close step finds no call for its merge request that has acquired a root and
      not queued its job. */
  ghost predicate QuietClose(s: State, l: Label) {
    l.ReleaseLocks? && l.h in s.handlers ==>
      forall g :: g in s.handlers && s.handlers[g].pc.Locking? && SameMR(s.handlers[g].req.job, s.handlers[l.h].req.job) ==>
        s.handlers[g].req.roots - s.handlers[g].pc.todo == {}
  }

  predicate SameMR(j: Job, k: Job) {
    j.repo == k.repo && j.mr == k.mr
  }

  ghost predicate Owns(locks: Locks, j: Job, roots: set<CleanPath>) {
    forall r :: r in roots ==> OwnerOf(locks, j.repo, r) == Some(j.mr)
  }

  ghost predicate IsQueued(log: seq<Entry>, i: int) {
    0 <= i < |log| && log[i].Queued?
  }

  ghost predicate ClosedBetween(log: seq<Entry>, i: int, j: int, job: Job) {
    exists k :: 0 <= i < k < j <= |log| && log[k] == Closed(job.repo, job.mr)
  }

  /** A call owns the roots it has acquired so far. */
  ghost predicate CallOwns(locks: Locks, hd: Handler) {
    hd.pc.Locking? ==> hd.pc.todo <= hd.req.roots && Owns(locks, hd.req.job, hd.req.roots - hd.pc.todo)
  }

  ghost predicate CallsOwn(s: State) {
    forall h :: h in s.handlers ==> CallOwns(s.locks, s.handlers[h])
  }

  /** The roots of a job not closed since are still owned by its merge request. */
  ghost predicate JobsOwn(s: State) {
    forall i :: IsQueued(s.log, i) && !ClosedBetween(s.log, i, |s.log|, s.log[i].req.job) ==>
      Owns(s.locks, s.log[i].req.job, s.log[i].req.roots)
  }

  /** Jobs of different merge requests with a common root are separated by a close
      of the earlier one. */
  ghost predicate Separated(log: seq<Entry>, i: int, j: int) {
    IsQueued(log, i) && IsQueued(log, j) && i < j
    && log[i].req.job.repo == log[j].req.job.repo && log[i].req.job.mr != log[j].req.job.mr
    && log[i].req.roots * log[j].req.roots != {}
    ==> ClosedBetween(log, i, j, log[i].req.job)
  }

  ghost predicate Exclusive(log: seq<Entry>) {
    forall i, j :: IsQueued(log, i) && IsQueued(log, j) ==> Separated(log, i, j)
  }

  ghost predicate LocksSafe(s: State) {
    CallsOwn(s) && JobsOwn(s) && Exclusive(s.log)
  }

  // Steps that take no lock and log nothing.
  lemma OtherStepKeeps(s: State, s': State, h: nat)
    requires LocksSafe(s) && s'.locks == s.locks && s'.log == s.log
    requires h in s'.handlers && s'.handlers == s.handlers[h := s'.handlers[h]]
    requires CallOwns(s.locks, s'.handlers[h])
    ensures LocksSafe(s')
  {
  }

  lemma AcquireKeeps(s: State, h: nat, root: CleanPath)
    requires LocksSafe(s) && h in s.handlers && s.handlers[h].pc.Locking? && root in s.handlers[h].pc.todo
    ensures LocksSafe(DoAcquire(s, h, root))
  {
    var s' := DoAcquire(s, h, root);
    var j := s.handlers[h].req.job;
    forall k: Job, roots | Owns(s.locks, k, roots) ensures Owns(s'.locks, k, roots) {
      forall r | r in roots ensures OwnerOf(s'.locks, k.repo, r) == Some(k.mr) {
        OwnerAfter(s.locks, j.repo, root, j.mr, k.repo, r);
      }
    }
    OwnerAfter(s.locks, j.repo, root, j.mr, j.repo, root);
    var hd := s'.handlers[h];
    if hd.pc.Locking? {
      assert Owns(s'.locks, j, hd.req.roots - s.handlers[h].pc.todo);
      assert hd.req.roots - hd.pc.todo == (hd.req.roots - s.handlers[h].pc.todo) + {root};
    }
  }

  lemma EnqueueKeeps(s: State, h: nat)
    requires LocksSafe(s) && h in s.handlers && s.handlers[h].pc.Locking? && s.handlers[h].pc.todo == {}
    ensures LocksSafe(DoEnqueue(s, h))
  {
    var s' := DoEnqueue(s, h);
    var n, r := |s.log|, s.handlers[h].req;
    assert r.roots - {} == r.roots;
    assert Owns(s.locks, r.job, r.roots);
    forall i | IsQueued(s.log, i) ensures Separated(s'.log, i, n) {
      EnqueueSeparates(s, h, i);
    }
    LogGrows(s.log, Queued(r, s.handlers[h].pc.at));
  }

  lemma EnqueueSeparates(s: State, h: nat, i: int)
    requires LocksSafe(s) && h in s.handlers && IsQueued(s.log, i)
    requires Owns(s.locks, s.handlers[h].req.job, s.handlers[h].req.roots)
    ensures forall at :: Separated(s.log + [Queued(s.handlers[h].req, at)], i, |s.log|)
  {
    var e, r := s.log[i].req, s.handlers[h].req;
    var n := |s.log|;
    forall at ensures Separated(s.log + [Queued(r, at)], i, n) {
      var log := s.log + [Queued(r, at)];
      if e.job.repo == r.job.repo && e.job.mr != r.job.mr && e.roots * r.roots != {} {
        var x :| x in e.roots * r.roots;
        assert OwnerOf(s.locks, r.job.repo, x) == Some(r.job.mr);
        assert !Owns(s.locks, e.job, e.roots);
        assert ClosedBetween(s.log, i, n, e.job);
        var k :| i < k < n && s.log[k] == Closed(e.job.repo, e.job.mr);
        assert log[k] == Closed(e.job.repo, e.job.mr);
      }
    }
  }

  /** Appending keeps what was known of the earlier entries. */
  lemma LogGrows(log: seq<Entry>, e: Entry)
    requires Exclusive(log)
    ensures forall i :: IsQueued(log, i) ==> IsQueued(log + [e], i) && (log + [e])[i] == log[i]
    ensures forall i, j :: IsQueued(log, i) && IsQueued(log, j) ==> Separated(log + [e], i, j)
    ensures forall i, job :: ClosedBetween(log, i, |log|, job) ==> ClosedBetween(log + [e], i, |log| + 1, job)
  {
    var log' := log + [e];
    forall i, j, job | 0 <= i && j <= |log| && ClosedBetween(log, i, j, job)
      ensures ClosedBetween(log', i, j, job) && ClosedBetween(log', i, |log| + 1, job)
    {
      var k :| i < k < j && log[k] == Closed(job.repo, job.mr);
      assert log'[k] == Closed(job.repo, job.mr);
    }
    forall i, j | IsQueued(log, i) && IsQueued(log, j) ensures Separated(log', i, j) {
      assert Separated(log, i, j);
    }
  }

  lemma ReleaseLocksKeeps(s: State, h: nat)
    requires LocksSafe(s) && h in s.handlers && s.handlers[h].pc.Closing? && QuietClose(s, ReleaseLocks(h))
    ensures LocksSafe(DoReleaseLocks(s, h))
  {
    var s' := DoReleaseLocks(s, h);
    var j := s.handlers[h].req.job;
    var n := |s.log|;
    forall k: Job, roots | Owns(s.locks, k, roots) && !SameMR(k, j) ensures Owns(s'.locks, k, roots) {
      forall r | r in roots ensures OwnerOf(s'.locks, k.repo, r) == Some(k.mr) {
        OwnerAfter(s.locks, j.repo, r, j.mr, k.repo, r);
      }
    }
    LogGrows(s.log, Closed(j.repo, j.mr));
    assert s'.log[n] == Closed(j.repo, j.mr);
    forall i | IsQueued(s'.log, i) && !ClosedBetween(s'.log, i, n + 1, s'.log[i].req.job)
      ensures Owns(s'.locks, s'.log[i].req.job, s'.log[i].req.roots)
    {
      assert !SameMR(s.log[i].req.job, j);
      assert IsQueued(s.log, i);
    }
    assert forall i :: IsQueued(s'.log, i) ==> IsQueued(s.log, i);
  }

  /** A close that is not quiet takes a root away from a call that relies on it. */
  lemma LoudCloseBreaks(s: State, h: nat, g: nat)
    requires LocksSafe(s) && h in s.handlers && s.handlers[h].pc.Closing?
    requires g in s.handlers && s.handlers[g].pc.Locking? && SameMR(s.handlers[g].req.job, s.handlers[h].req.job)
    requires s.handlers[g].req.roots - s.handlers[g].pc.todo != {}
    ensures !LocksSafe(DoReleaseLocks(s, h))
  {
    var s' := DoReleaseLocks(s, h);
    var j, hd := s.handlers[h].req.job, s.handlers[g];
    var r :| r in hd.req.roots - hd.pc.todo;
    assert CallOwns(s.locks, hd);
    OwnerAfter(s.locks, j.repo, r, j.mr, j.repo, r);
    assert OwnerOf(s'.locks, j.repo, r) == None;
    assert s'.handlers[g] == hd && !CallOwns(s'.locks, hd);
  }

  /** Exactly the quiet steps keep the lock invariant. */
  lemma StepKeepsLocksIff(c: Config, s: State, l: Label)
    requires c.useLocker && LocksSafe(s) && Enabled(c, s, l)
    ensures LocksSafe(Step(c, s, l)) <==> QuietClose(s, l)
  {
    if QuietClose(s, l) {
      StepKeepsLocks(c, s, l);
    } else {
      var g :| g in s.handlers && s.handlers[g].pc.Locking? && SameMR(s.handlers[g].req.job, s.handlers[l.h].req.job)
        && s.handlers[g].req.roots - s.handlers[g].pc.todo != {};
      LoudCloseBreaks(s, l.h, g);
    }
  }

  /** Every step, with closes kept quiet, keeps the lock invariant. */
  lemma StepKeepsLocks(c: Config, s: State, l: Label)
    requires c.useLocker && LocksSafe(s) && Enabled(c, s, l) && QuietClose(s, l)
    ensures LocksSafe(Step(c, s, l))
  {
    match l
    case Arrive(h, e) => ArrivedKeeps(s, h, RequestOf(e), WellFormed(e));
    case Reserve(h) => OtherStepKeeps(s, Step(c, s, l), h);
    case Dedupe(h) => OtherStepKeeps(s, Step(c, s, l), h);
    case DedupeError(h) => OtherStepKeeps(s, Step(c, s, l), h);
    case EnqueueError(h) => OtherStepKeeps(s, Step(c, s, l), h);
    case DropKey(h) => OtherStepKeeps(s, Step(c, s, l), h);
    case ReleaseDelivery(h) => OtherStepKeeps(s, Step(c, s, l), h);
    case Commit(h) => OtherStepKeeps(s, Step(c, s, l), h);
    case ReleaseLocks(h) => ReleaseLocksKeeps(s, h);
    case Acquire(h, root) => AcquireKeeps(s, h, root);
    case Enqueue(h) => EnqueueKeeps(s, h);
    case HandOver(h) => EnqueueKeeps(s, h);
    case Dequeue =>
    case Tick(_) =>
  }

  lemma ArrivedKeeps(s: State, h: nat, r: Request, valid: bool)
    requires LocksSafe(s)
    ensures LocksSafe(Arrived(s, h, r, valid))
  {
    OtherStepKeeps(s, Arrived(s, h, r, valid), h);
  }

  /** Every close of the run was quiet. */
  ghost predicate QuietRun(c: Config, ls: seq<Label>)
    requires Run(c, INIT, ls).Some?
    decreases |ls|
  {
    ls != [] ==>
      && QuietClose(Run(c, INIT, ls[..|ls| - 1]).value, ls[|ls| - 1])
      && QuietRun(c, ls[..|ls| - 1])
  }

  lemma {:induction false} RunKeepsLocks(c: Config, ls: seq<Label>)
    requires c.useLocker && Run(c, INIT, ls).Some? && QuietRun(c, ls)
    ensures LocksSafe(Run(c, INIT, ls).value)
    decreases |ls|
  {
    if ls != [] {
      RunKeepsLocks(c, ls[..|ls| - 1]);
      StepKeepsLocks(c, Run(c, INIT, ls[..|ls| - 1]).value, ls[|ls| - 1]);
    }
  }

  /** A run is quiet exactly when the invariant holds at every moment of it. */
  lemma {:induction false} QuietIffSafeThroughout(c: Config, ls: seq<Label>)
    requires c.useLocker && Run(c, INIT, ls).Some?
    ensures QuietRun(c, ls) <==> SafeThroughout(c, ls)
    decreases |ls|
  {
    if ls != [] {
      var init, l := ls[..|ls| - 1], ls[|ls| - 1];
      QuietIffSafeThroughout(c, init);
      if SafeThroughout(c, init) {
        SafeAtEnd(c, init);
        StepKeepsLocksIff(c, Run(c, INIT, init).value, l);
      }
    }
  }

  lemma SafeAtEnd(c: Config, ls: seq<Label>)
    requires Run(c, INIT, ls).Some? && SafeThroughout(c, ls)
    ensures LocksSafe(Run(c, INIT, ls).value)
  {
  }

  ghost predicate SafeThroughout(c: Config, ls: seq<Label>)
    requires Run(c, INIT, ls).Some?
    decreases |ls|
  {
    LocksSafe(Run(c, INIT, ls).value) && (ls != [] ==> SafeThroughout(c, ls[..|ls| - 1]))
  }

  /** Two queued jobs of different merge requests in one repository with a common
      root have a close or merge of the earlier one between them. */
  lemma JobsOfOneRootSeparated(c: Config, ls: seq<Label>, i: nat, j: nat, root: CleanPath)
    requires c.useLocker && Run(c, INIT, ls).Some? && QuietRun(c, ls)
    requires var log := Run(c, INIT, ls).value.log;
      && i < j < |log| && log[i].Queued? && log[j].Queued?
      && log[i].req.job.repo == log[j].req.job.repo && log[i].req.job.mr != log[j].req.job.mr
      && root in log[i].req.roots && root in log[j].req.roots
    ensures var log := Run(c, INIT, ls).value.log;
      exists k :: i < k < j && log[k] == Closed(log[i].req.job.repo, log[i].req.job.mr)
  {
    RunKeepsLocks(c, ls);
    var log := Run(c, INIT, ls).value.log;
    assert IsQueued(log, i) && IsQueued(log, j) && Separated(log, i, j);
    assert root in log[i].req.roots * log[j].req.roots;
    assert ClosedBetween(log, i, j, log[i].req.job);
  }
}
