/**
 Safety of event admission in every interleaving: a delivery id yields at most one
 job over the whole run, every pending id has exactly one call working on it, and a
 committed id never leaves the store.
 */
module AdmissionSafety {
  import opened Options
  import opened DeliveryStore
  import opened Queue
  import opened Admission

  ghost function IdOf(s: State, h: nat): string
    requires h in s.handlers
  {
    s.handlers[h].req.job.delivery
  }

  ghost predicate Holds(s: State, h: nat) {
    h in s.handlers && s.handlers[h].pc.Holding()
  }

  ghost predicate IsQueued(s: State, i: int) {
    0 <= i < |s.log| && s.log[i].Queued?
  }

  /** A call holds its delivery id alone, and the id is pending meanwhile. */
  ghost predicate HoldersExclusive(s: State) {
    && (forall h :: Holds(s, h) ==> IdOf(s, h) in s.deliveries && s.deliveries[IdOf(s, h)] == Pending)
    && (forall g, h :: Holds(s, g) && Holds(s, h) && g != h ==> IdOf(s, g) != IdOf(s, h))
  }

  ghost predicate HeldBySome(s: State, id: string) {
    exists h :: Holds(s, h) && IdOf(s, h) == id
  }

  ghost predicate PendingHeld(s: State) {
    forall id :: id in s.deliveries && s.deliveries[id] == Pending ==> HeldBySome(s, id)
  }

  /** No two jobs of the history share a delivery id. */
  ghost predicate AtMostOneJob(s: State) {
    forall i, j :: IsQueued(s, i) && IsQueued(s, j) && i != j ==>
      s.log[i].req.job.delivery != s.log[j].req.job.delivery
  }

  /** The id of an accepted job is in the store, and a call still holding it has
      only the commit left to do. */
  ghost predicate JobsRecorded(s: State) {
    forall i :: IsQueued(s, i) ==>
      && s.log[i].req.job.delivery in s.deliveries
      && (forall h :: Holds(s, h) && IdOf(s, h) == s.log[i].req.job.delivery ==> s.handlers[h].pc == Committing(Accepted))
  }

  ghost predicate Logged(s: State, r: Request) {
    exists i :: IsQueued(s, i) && s.log[i].req == r
  }

  ghost predicate IsCommitted(s: State, id: string) {
    id in s.deliveries && s.deliveries[id] == Committed
  }

  /** What the outcome of a finished call means. */
  ghost predicate OutcomeTrue(s: State, hd: Handler) {
    && (hd.pc.Committing? ==> !hd.pc.outcome.IsError() && hd.pc.outcome != Duplicate)
    && (hd.pc.Committing? || hd.pc.Done? ==> (hd.pc.outcome == Accepted ==> Logged(s, hd.req)))
    && (hd.pc.Done? && !hd.pc.outcome.IsError() && hd.pc.outcome != Duplicate ==> IsCommitted(s, hd.req.job.delivery))
  }

  ghost predicate OutcomesTrue(s: State) {
    forall h :: h in s.handlers ==> OutcomeTrue(s, s.handlers[h])
  }

  lemma OutcomesKept(s: State, s': State, h: nat)
    requires OutcomesTrue(s) && h in s'.handlers && s'.handlers == s.handlers[h := s'.handlers[h]]
    requires |s.log| <= |s'.log| && s'.log[..|s.log|] == s.log
    requires forall id :: IsCommitted(s, id) ==> IsCommitted(s', id)
    requires OutcomeTrue(s', s'.handlers[h])
    ensures OutcomesTrue(s')
  {
    LoggedKept(s, s');
  }

  function JobsOf(log: seq<Entry>): (js: seq<Job>) {
    if log == [] then []
    else
      var n := |log| - 1;
      if log[n].Queued? then JobsOf(log[..n]) + [log[n].req.job] else JobsOf(log[..n])
  }

  /** Every accepted job, in order, was consumed or is still in the queue. */
  ghost predicate QueueConserved(s: State) {
    s.consumed + s.queue == JobsOf(s.log)
  }

  ghost predicate Safe(s: State) {
    && HoldersExclusive(s)
    && PendingHeld(s)
    && AtMostOneJob(s)
    && JobsRecorded(s)
    && OutcomesTrue(s)
    && QueueConserved(s)
  }

  lemma HeldKept(s: State, s': State, settled: set<string>)
    requires forall g :: Holds(s, g) && IdOf(s, g) !in settled ==> Holds(s', g) && IdOf(s', g) == IdOf(s, g)
    ensures forall id :: HeldBySome(s, id) && id !in settled ==> HeldBySome(s', id)
  {
    forall id | HeldBySome(s, id) && id !in settled ensures HeldBySome(s', id) {
      var g :| Holds(s, g) && IdOf(s, g) == id;
      assert Holds(s', g) && IdOf(s', g) == id;
    }
  }

  // A step of call h that changes its place only, while it keeps its id.
  lemma MoveSafe(s: State, h: nat, pc: Pc)
    requires Safe(s) && Holds(s, h) && pc.Holding() && s.handlers[h].pc != Committing(Accepted)
    requires pc.Committing? ==> pc.outcome != Accepted && !pc.outcome.IsError() && pc.outcome != Duplicate
    ensures Safe(Move(s, h, pc))
  {
    var s' := Move(s, h, pc);
    assert forall g :: Holds(s', g) <==> Holds(s, g);
    assert forall g :: g in s.handlers ==> IdOf(s', g) == IdOf(s, g);
    assert forall i :: IsQueued(s', i) <==> IsQueued(s, i);
    HeldKept(s, s', {});
    LoggedKept(s, s');
  }

  lemma LoggedKept(s: State, s': State)
    requires |s.log| <= |s'.log| && s'.log[..|s.log|] == s.log
    ensures forall r :: Logged(s, r) ==> Logged(s', r)
    ensures forall i :: IsQueued(s, i) ==> IsQueued(s', i) && s'.log[i] == s.log[i]
  {
    forall i | IsQueued(s, i) ensures IsQueued(s', i) && s'.log[i] == s.log[i] {
      assert s'.log[..|s.log|][i] == s'.log[i];
    }
    forall r | Logged(s, r) ensures Logged(s', r) {
      var i :| IsQueued(s, i) && s.log[i].req == r;
      assert IsQueued(s', i) && s'.log[i].req == r;
    }
  }

  // Stores that the invariant does not read may change freely.
  lemma OtherStoresFree(s: State, s': State)
    requires Safe(s)
    requires s'.deliveries == s.deliveries && s'.handlers == s.handlers && s'.log == s.log
    requires s'.queue == s.queue && s'.consumed == s.consumed
    ensures Safe(s')
  {
    assert forall g :: Holds(s', g) <==> Holds(s, g);
    assert forall i :: IsQueued(s', i) <==> IsQueued(s, i);
    HeldKept(s, s', {});
    LoggedKept(s, s');
  }

  lemma ArrivedSafe(s: State, h: nat, r: Request, valid: bool)
    requires Safe(s) && h !in s.handlers
    ensures Safe(Arrived(s, h, r, valid))
  {
    var s' := Arrived(s, h, r, valid);
    assert forall g :: Holds(s', g) <==> Holds(s, g);
    assert forall g :: Holds(s, g) ==> IdOf(s', g) == IdOf(s, g);
    assert forall i :: IsQueued(s', i) <==> IsQueued(s, i);
    HeldKept(s, s', {});
    LoggedKept(s, s');
  }

  lemma ReserveSafe(c: Config, s: State, h: nat)
    requires Safe(s) && h in s.handlers && s.handlers[h].pc.Start?
    ensures Safe(DoReserve(c, s, h))
  {
    var id := IdOf(s, h);
    if id in s.deliveries {
      DuplicateSafe(s, h);
    } else {
      GrantedSafe(s, h, AfterDelivery(c, s.handlers[h].req));
    }
  }

  lemma DuplicateSafe(s: State, h: nat)
    requires Safe(s) && h in s.handlers && s.handlers[h].pc.Start?
    ensures Safe(Move(s, h, Done(Duplicate)))
  {
    var s' := Move(s, h, Done(Duplicate));
    assert forall g :: g in s.handlers ==> IdOf(s', g) == IdOf(s, g);
    assert forall g :: Holds(s', g) <==> Holds(s, g);
    assert forall i :: IsQueued(s', i) <==> IsQueued(s, i);
    HeldKept(s, s', {});
    OutcomesKept(s, s', h);
  }

  lemma GrantedSafe(s: State, h: nat, pc: Pc)
    requires Safe(s) && h in s.handlers && s.handlers[h].pc.Start? && IdOf(s, h) !in s.deliveries
    requires pc.Holding() && (pc.Committing? ==> pc.outcome == ClosedMR)
    ensures Safe(Move(s, h, pc).(deliveries := s.deliveries[IdOf(s, h) := Pending]))
  {
    var s' := Move(s, h, pc).(deliveries := s.deliveries[IdOf(s, h) := Pending]);
    assert forall g :: g in s.handlers ==> IdOf(s', g) == IdOf(s, g);
    assert forall g :: g != h ==> (Holds(s', g) <==> Holds(s, g));
    GrantedHolders(s, s', h);
    GrantedJobs(s, s', h);
    OutcomesKept(s, s', h);
  }

  lemma GrantedHolders(s: State, s': State, h: nat)
    requires HoldersExclusive(s) && PendingHeld(s) && h in s.handlers && IdOf(s, h) !in s.deliveries
    requires s'.handlers.Keys == s.handlers.Keys && s'.deliveries == s.deliveries[IdOf(s, h) := Pending]
    requires forall g :: g in s.handlers ==> IdOf(s', g) == IdOf(s, g)
    requires Holds(s', h) && forall g :: g != h ==> (Holds(s', g) <==> Holds(s, g))
    ensures HoldersExclusive(s') && PendingHeld(s')
  {
    assert forall g :: Holds(s, g) ==> IdOf(s, g) != IdOf(s, h);
    HeldKept(s, s', {});
    assert Holds(s', h) && IdOf(s', h) == IdOf(s, h);
  }

  lemma GrantedJobs(s: State, s': State, h: nat)
    requires JobsRecorded(s) && AtMostOneJob(s) && h in s.handlers && IdOf(s, h) !in s.deliveries
    requires h in s'.handlers && s'.handlers == s.handlers[h := s'.handlers[h]]
    requires s'.handlers[h].req == s.handlers[h].req && s'.log == s.log && s'.deliveries == s.deliveries[IdOf(s, h) := Pending]
    ensures JobsRecorded(s') && AtMostOneJob(s')
  {
    assert forall i :: IsQueued(s', i) <==> IsQueued(s, i);
    assert forall i :: IsQueued(s, i) ==> s.log[i].req.job.delivery != IdOf(s, h);
    assert forall g :: g != h && Holds(s', g) ==> Holds(s, g) && IdOf(s', g) == IdOf(s, g);
  }

  lemma ReleaseDeliverySafe(s: State, h: nat)
    requires Safe(s) && h in s.handlers && s.handlers[h].pc.Releasing?
    ensures Safe(DoReleaseDelivery(s, h))
  {
    var s' := DoReleaseDelivery(s, h);
    var id := IdOf(s, h);
    assert Holds(s, h);
    assert forall g :: g in s.handlers ==> IdOf(s', g) == IdOf(s, g);
    assert forall g :: g != h ==> (Holds(s', g) <==> Holds(s, g));
    assert forall i :: IsQueued(s', i) <==> IsQueued(s, i);
    HeldKept(s, s', {id});
    OutcomesKept(s, s', h);
  }

  lemma CommitSafe(s: State, h: nat)
    requires Safe(s) && h in s.handlers && s.handlers[h].pc.Committing?
    ensures Safe(DoCommit(s, h))
  {
    var s' := DoCommit(s, h);
    var id := IdOf(s, h);
    assert Holds(s, h);
    assert forall g :: g in s.handlers ==> IdOf(s', g) == IdOf(s, g);
    assert forall g :: g != h ==> (Holds(s', g) <==> Holds(s, g));
    assert forall i :: IsQueued(s', i) <==> IsQueued(s, i);
    HeldKept(s, s', {id});
    OutcomesKept(s, s', h);
  }

  lemma EnqueueSafe(s: State, h: nat)
    requires Safe(s) && h in s.handlers && s.handlers[h].pc.Locking?
    ensures Safe(DoEnqueue(s, h))
  {
    var s' := DoEnqueue(s, h);
    var n := |s.log|;
    assert Holds(s, h);
    assert s'.log[..n] == s.log;
    LoggedKept(s, s');
    assert IsQueued(s', n) && s'.log[n].req == s.handlers[h].req;
    assert forall g :: g in s.handlers ==> IdOf(s', g) == IdOf(s, g);
    assert forall g :: Holds(s', g) <==> Holds(s, g);
    HeldKept(s, s', {});
    OutcomesKept(s, s', h);
    EnqueueJobs(s, s', h);
  }

  lemma EnqueueJobs(s: State, s': State, h: nat)
    requires HoldersExclusive(s) && JobsRecorded(s) && AtMostOneJob(s)
    requires Holds(s, h) && s.handlers[h].pc.Locking? && s' == DoEnqueue(s, h)
    ensures JobsRecorded(s') && AtMostOneJob(s')
  {
    var n, id := |s.log|, IdOf(s, h);
    assert forall i :: IsQueued(s, i) ==> s.log[i].req.job.delivery != id;
    assert forall i :: IsQueued(s', i) ==> i == n || (IsQueued(s, i) && s'.log[i] == s.log[i]);
    assert forall g :: Holds(s', g) ==> Holds(s, g) && IdOf(s', g) == IdOf(s, g);
  }

  lemma ReleaseLocksSafe(s: State, h: nat)
    requires Safe(s) && h in s.handlers && s.handlers[h].pc.Closing?
    ensures Safe(DoReleaseLocks(s, h))
  {
    var j := s.handlers[h].req.job;
    var t := Move(s, h, Committing(ClosedMR));
    assert Holds(s, h);
    MoveSafe(s, h, Committing(ClosedMR));
    var s' := DoReleaseLocks(s, h);
    var n := |t.log|;
    assert s'.log[..n] == t.log;
    LoggedKept(t, s');
    assert forall g :: Holds(s', g) <==> Holds(t, g);
    assert forall i :: IsQueued(s', i) ==> IsQueued(t, i);
    HeldKept(t, s', {});
  }

  lemma DequeueSafe(s: State)
    requires Safe(s) && s.queue != []
    ensures Safe(DoDequeue(s))
  {
    var s' := DoDequeue(s);
    assert s.queue == [s.queue[0]] + s.queue[1..];
    assert s'.consumed + s'.queue == s.consumed + s.queue;
    assert forall g :: Holds(s', g) <==> Holds(s, g);
    assert forall i :: IsQueued(s', i) <==> IsQueued(s, i);
    HeldKept(s, s', {});
    LoggedKept(s, s');
  }

  lemma LocalStepSafe(c: Config, s: State, l: Label)
    requires Safe(s) && Enabled(c, s, l)
    requires l.Dedupe? || l.DedupeError? || l.Acquire? || l.EnqueueError? || l.DropKey?
    ensures Safe(Step(c, s, l))
  {
    var h := l.h;
    var s' := Step(c, s, l);
    var pc := s'.handlers[h].pc;
    assert Holds(s, h);
    MoveSafe(s, h, pc);
    OtherStoresFree(Move(s, h, pc), s');
  }

  /** Every step of every call keeps the invariant. */
  lemma StepSafe(c: Config, s: State, l: Label)
    requires Safe(s) && Enabled(c, s, l)
    ensures Safe(Step(c, s, l))
  {
    match l
    case Arrive(h, e) => ArrivedSafe(s, h, RequestOf(e), WellFormed(e));
    case Reserve(h) => ReserveSafe(c, s, h);
    case ReleaseLocks(h) => ReleaseLocksSafe(s, h);
    case Enqueue(h) => EnqueueSafe(s, h);
    case ReleaseDelivery(h) => ReleaseDeliverySafe(s, h);
    case Commit(h) => CommitSafe(s, h);
    case HandOver(h) =>
      EnqueueSafe(s, h);
      DequeueSafe(DoEnqueue(s, h));
    case Dequeue => DequeueSafe(s);
    case Tick(time) => OtherStoresFree(s, s.(now := time));
    case _ => LocalStepSafe(c, s, l);
  }

  /** Every state of every run is safe. */
  lemma {:induction false} RunSafe(c: Config, ls: seq<Label>)
    requires Run(c, INIT, ls).Some?
    ensures Safe(Run(c, INIT, ls).value)
    decreases |ls|
  {
    if ls != [] {
      var init := ls[..|ls| - 1];
      RunSafe(c, init);
      StepSafe(c, Run(c, INIT, init).value, ls[|ls| - 1]);
    }
  }

  /** In every interleaving of any number of calls, at most one job is ever queued
      for a delivery id. */
  lemma AtMostOneJobPerDelivery(c: Config, ls: seq<Label>, i: nat, j: nat)
    requires Run(c, INIT, ls).Some?
    requires var log := Run(c, INIT, ls).value.log;
      i < j < |log| && log[i].Queued? && log[j].Queued?
    ensures var log := Run(c, INIT, ls).value.log;
      log[i].req.job.delivery != log[j].req.job.delivery
  {
    RunSafe(c, ls);
    var s := Run(c, INIT, ls).value;
    assert IsQueued(s, i) && IsQueued(s, j);
  }

  /** At any moment of any run, a pending delivery id has exactly one call working on it. */
  lemma PendingHasOneHolder(c: Config, ls: seq<Label>, id: string) returns (h: nat)
    requires Run(c, INIT, ls).Some?
    requires var s := Run(c, INIT, ls).value; id in s.deliveries && s.deliveries[id] == Pending
    ensures var s := Run(c, INIT, ls).value;
      Holds(s, h) && IdOf(s, h) == id && forall g :: Holds(s, g) && IdOf(s, g) == id ==> g == h
  {
    RunSafe(c, ls);
    var s := Run(c, INIT, ls).value;
    assert HeldBySome(s, id);
    h :| Holds(s, h) && IdOf(s, h) == id;
  }

  /** A committed id stays committed whatever happens afterwards. */
  lemma {:induction false} CommittedForever(c: Config, s: State, ls: seq<Label>, id: string)
    requires Safe(s) && Run(c, s, ls).Some?
    requires id in s.deliveries && s.deliveries[id] == Committed
    ensures var t := Run(c, s, ls).value; Safe(t) && id in t.deliveries && t.deliveries[id] == Committed
    decreases |ls|
  {
    if ls != [] {
      var init := ls[..|ls| - 1];
      CommittedForever(c, s, init, id);
      StepSafe(c, Run(c, s, init).value, ls[|ls| - 1]);
      CommittedKept(c, Run(c, s, init).value, ls[|ls| - 1], id);
    }
  }

  lemma CommittedKept(c: Config, s: State, l: Label, id: string)
    requires Safe(s) && Enabled(c, s, l) && id in s.deliveries && s.deliveries[id] == Committed
    ensures var t := Step(c, s, l); id in t.deliveries && t.deliveries[id] == Committed
  {
    if l.ReleaseDelivery? { assert Holds(s, l.h); }
  }
}
