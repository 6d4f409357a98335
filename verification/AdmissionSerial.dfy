/**
 One call at a time. A serial run meets the side conditions of the lock and window
 results, and in it a nil answer means that the delivery is settled.
 */
module AdmissionSerial {
  import opened Options
  import opened Discovery
  import opened DeliveryStore
  import opened DedupeStore
  import opened Admission
  import opened AdmissionSafety
  import AdmissionLocks
  import AdmissionDedupe

  ghost predicate Active(s: State, h: nat) {
    h in s.handlers && !s.handlers[h].pc.Done?
  }

  /** A call starts only when no other is in flight. */
  ghost predicate SerialStep(s: State, l: Label) {
    l.Arrive? ==> forall h :: !Active(s, h)
  }

  ghost predicate SerialRun(c: Config, ls: seq<Label>)
    requires Run(c, INIT, ls).Some?
    decreases |ls|
  {
    ls != [] ==> SerialStep(Run(c, INIT, ls[..|ls| - 1]).value, ls[|ls| - 1]) && SerialRun(c, ls[..|ls| - 1])
  }

  ghost predicate OneActive(s: State) {
    forall g, h :: Active(s, g) && Active(s, h) ==> g == h
  }

  /** The reservation found under the key of the call in flight is its own. */
  ghost predicate OwnReservation(c: Config, s: State) {
    forall h :: h in s.handlers && AdmissionDedupe.Claims(s, AdmissionDedupe.InFlight(h)) ==>
      var cl := AdmissionDedupe.ClaimOf(s, AdmissionDedupe.InFlight(h)).value;
      cl.key in s.expiry ==> s.expiry[cl.key] == cl.at + c.ttl
  }

  ghost predicate NilSettled(s: State) {
    forall h :: h in s.handlers && s.handlers[h].pc.Done? && !s.handlers[h].pc.outcome.IsError() ==>
      IsCommitted(s, s.handlers[h].req.job.delivery)
  }

  ghost predicate Orderly(c: Config, s: State) {
    OneActive(s) && (c.Dedupes() ==> OwnReservation(c, s)) && NilSettled(s)
  }

  lemma StepOneActive(c: Config, s: State, l: Label)
    requires OneActive(s) && Enabled(c, s, l) && SerialStep(s, l)
    ensures OneActive(Step(c, s, l))
  {
    var s' := Step(c, s, l);
    if l.Arrive? {
      assert forall h :: Active(s', h) && h != l.h ==> Active(s, h);
    } else {
      assert forall h :: Active(s', h) ==> Active(s, h);
    }
  }

  lemma StepOwnReservation(c: Config, s: State, l: Label)
    requires c.Dedupes() && OneActive(s) && OwnReservation(c, s) && Enabled(c, s, l)
    ensures OwnReservation(c, Step(c, s, l))
  {
    match l
    case Dedupe(h) => ReservingOwn(c, s, DoDedupe(c, s, h), h);
    case DropKey(h) => ReservingOwn(c, s, DoDropKey(s, h), h);
    case Arrive(h, e) => ArrivedOwn(c, s, h, RequestOf(e), WellFormed(e));
    case Dequeue =>
    case Tick(_) =>
    case _ => CallStepOwn(c, s, l);
  }

  lemma CallStepOwn(c: Config, s: State, l: Label)
    requires c.Dedupes() && OwnReservation(c, s) && Enabled(c, s, l)
    requires !l.Dedupe? && !l.DropKey? && !l.Arrive? && !l.Dequeue? && !l.Tick?
    ensures OwnReservation(c, Step(c, s, l))
  {
    match l
    case Reserve(h) => MovedOwn(c, s, DoReserve(c, s, h), h);
    case ReleaseLocks(h) => MovedOwn(c, s, DoReleaseLocks(s, h), h);
    case DedupeError(h) => MovedOwn(c, s, Move(s, h, Releasing), h);
    case Acquire(h, root) => MovedOwn(c, s, DoAcquire(s, h, root), h);
    case Enqueue(h) => MovedOwn(c, s, DoEnqueue(s, h), h);
    case HandOver(h) => MovedOwn(c, s, DoDequeue(DoEnqueue(s, h)), h);
    case EnqueueError(h) => MovedOwn(c, s, Move(s, h, GiveUp(s.handlers[h].pc.at)), h);
    case ReleaseDelivery(h) => MovedOwn(c, s, DoReleaseDelivery(s, h), h);
    case Commit(h) => MovedOwn(c, s, DoCommit(s, h), h);
  }

  lemma ArrivedOwn(c: Config, s: State, h: nat, r: Request, valid: bool)
    requires OwnReservation(c, s)
    ensures OwnReservation(c, Arrived(s, h, r, valid))
  {
    MovedOwn(c, s, Arrived(s, h, r, valid), h);
  }

  lemma ReservingOwn(c: Config, s: State, s': State, h: nat)
    requires c.Dedupes() && OneActive(s) && Active(s, h)
    requires s' == DoDedupe(c, s, h) || s' == DoDropKey(s, h)
    requires s.handlers[h].pc.Deduping? || s.handlers[h].pc.Dropping?
    ensures OwnReservation(c, s')
  {
    forall g | g in s'.handlers && AdmissionDedupe.Claims(s', AdmissionDedupe.InFlight(g)) ensures g == h {
      if g != h { assert Active(s, g); }
    }
  }

  // A step of call h that leaves the store alone and claims nothing new.
  lemma MovedOwn(c: Config, s: State, s': State, h: nat)
    requires OwnReservation(c, s) && s'.expiry == s.expiry
    requires h in s'.handlers && s'.handlers == s.handlers[h := s'.handlers[h]]
    requires AdmissionDedupe.Claims(s', AdmissionDedupe.InFlight(h)) ==>
      AdmissionDedupe.ClaimOf(s', AdmissionDedupe.InFlight(h)) == AdmissionDedupe.ClaimOf(s, AdmissionDedupe.InFlight(h))
    ensures OwnReservation(c, s')
  {
    forall g | g in s'.handlers && AdmissionDedupe.Claims(s', AdmissionDedupe.InFlight(g))
      ensures AdmissionDedupe.ClaimOf(s', AdmissionDedupe.InFlight(g)) == AdmissionDedupe.ClaimOf(s, AdmissionDedupe.InFlight(g))
    {
    }
  }

  // ----- Nil answers -----

  /** A redelivery does not find its id in the hands of another call. */
  ghost predicate TimelyReserve(s: State, l: Label) {
    l.Reserve? && l.h in s.handlers ==> !HeldBySome(s, IdOf(s, l.h))
  }

  /** An id that is in the store is committed exactly when no call holds it. */
  lemma CommittedIffNotHeld(s: State, id: string)
    requires Safe(s) && id in s.deliveries
    ensures IsCommitted(s, id) <==> !HeldBySome(s, id)
  {
    if HeldBySome(s, id) {
      var g :| Holds(s, g) && IdOf(s, g) == id;
    }
  }

  /** Exactly the timely steps keep that every nil answer has a committed id: a call
      that is told of a duplicate may rely on it iff no other call is still at work. */
  lemma StepNilSettledIff(c: Config, s: State, l: Label)
    requires Safe(s) && NilSettled(s) && Enabled(c, s, l)
    ensures NilSettled(Step(c, s, l)) <==> TimelyReserve(s, l)
  {
    if TimelyReserve(s, l) {
      StepNilSettled(c, s, l);
    } else {
      EarlyDuplicate(c, s, l.h);
    }
  }

  lemma EarlyDuplicate(c: Config, s: State, h: nat)
    requires Safe(s) && h in s.handlers && s.handlers[h].pc.Start? && HeldBySome(s, IdOf(s, h))
    ensures !NilSettled(DoReserve(c, s, h))
  {
    var id := IdOf(s, h);
    var g :| Holds(s, g) && IdOf(s, g) == id;
    var s' := DoReserve(c, s, h);
    assert s'.handlers[h].pc == Done(Duplicate) && !IsCommitted(s', id);
  }

  lemma StepNilSettled(c: Config, s: State, l: Label)
    requires Safe(s) && NilSettled(s) && Enabled(c, s, l) && TimelyReserve(s, l)
    ensures NilSettled(Step(c, s, l))
  {
    var s' := Step(c, s, l);
    StepSafe(c, s, l);
    forall h | h in s'.handlers && s'.handlers[h].pc.Done? && !s'.handlers[h].pc.outcome.IsError()
      ensures IsCommitted(s', s'.handlers[h].req.job.delivery)
    {
      if h in s.handlers && s.handlers[h] == s'.handlers[h] {
        CommittedKept(c, s, l, s.handlers[h].req.job.delivery);
      } else if l.Reserve? {
        ReserveSettles(c, s, l.h);
      } else {
        FreshNil(c, s, l, h);
        assert OutcomeTrue(s', s'.handlers[h]);
      }
    }
  }

  lemma ReserveSettles(c: Config, s: State, h: nat)
    requires Safe(s) && h in s.handlers && s.handlers[h].pc.Start? && !HeldBySome(s, IdOf(s, h))
    ensures var s' := DoReserve(c, s, h); s'.handlers[h].pc.Done? ==> IsCommitted(s', IdOf(s, h))
    ensures forall g :: g in s.handlers && g != h ==> DoReserve(c, s, h).handlers[g] == s.handlers[g]
  {
    if IdOf(s, h) in s.deliveries { CommittedIffNotHeld(s, IdOf(s, h)); }
  }

  // A nil answer that is not about a duplicate comes from a commit.
  lemma FreshNil(c: Config, s: State, l: Label, h: nat)
    requires OutcomesTrue(s) && Enabled(c, s, l) && !l.Reserve? && h in Step(c, s, l).handlers
    requires !(h in s.handlers && s.handlers[h] == Step(c, s, l).handlers[h])
    ensures var pc := Step(c, s, l).handlers[h].pc; pc.Done? && !pc.outcome.IsError() ==> pc.outcome != Duplicate
  {
    if h in s.handlers { assert OutcomeTrue(s, s.handlers[h]); }
  }

  /** Every redelivery of the run came when no call was at work on its id. */
  ghost predicate TimelyRun(c: Config, ls: seq<Label>)
    requires Run(c, INIT, ls).Some?
    decreases |ls|
  {
    ls != [] ==> TimelyReserve(Run(c, INIT, ls[..|ls| - 1]).value, ls[|ls| - 1]) && TimelyRun(c, ls[..|ls| - 1])
  }

  ghost predicate SettledThroughout(c: Config, ls: seq<Label>)
    requires Run(c, INIT, ls).Some?
    decreases |ls|
  {
    NilSettled(Run(c, INIT, ls).value) && (ls != [] ==> SettledThroughout(c, ls[..|ls| - 1]))
  }

  lemma SettledAtEnd(c: Config, ls: seq<Label>)
    requires Run(c, INIT, ls).Some? && SettledThroughout(c, ls)
    ensures NilSettled(Run(c, INIT, ls).value)
  {
  }

  /** In any interleaving: a nil answer means a committed id, at every moment, exactly
      when no redelivery comes while a call is at work on its id. */
  lemma {:induction false} TimelyIffNilSettled(c: Config, ls: seq<Label>)
    requires Run(c, INIT, ls).Some?
    ensures TimelyRun(c, ls) <==> SettledThroughout(c, ls)
    decreases |ls|
  {
    if ls != [] {
      var init, l := ls[..|ls| - 1], ls[|ls| - 1];
      TimelyIffNilSettled(c, init);
      if SettledThroughout(c, init) {
        SettledAtEnd(c, init);
        RunSafe(c, init);
        StepNilSettledIff(c, Run(c, INIT, init).value, l);
      }
    }
  }

  lemma AloneIsTimely(c: Config, s: State, l: Label)
    requires OneActive(s) && Enabled(c, s, l)
    ensures TimelyReserve(s, l)
  {
    if l.Reserve? {
      assert Active(s, l.h);
      forall g | Holds(s, g) ensures g == l.h {
        assert Active(s, g);
      }
    }
  }

  lemma {:induction false} SerialRunOrderly(c: Config, ls: seq<Label>)
    requires Run(c, INIT, ls).Some? && SerialRun(c, ls)
    ensures Orderly(c, Run(c, INIT, ls).value)
    decreases |ls|
  {
    if ls != [] {
      var init, l := ls[..|ls| - 1], ls[|ls| - 1];
      var s := Run(c, INIT, init).value;
      SerialRunOrderly(c, init);
      RunSafe(c, init);
      StepOneActive(c, s, l);
      if c.Dedupes() { StepOwnReservation(c, s, l); }
      AloneIsTimely(c, s, l);
      StepNilSettled(c, s, l);
    }
  }

  /** A serial run keeps its closes quiet, and its dedupe releases rob no one, so the
      lock and window results hold for it. */
  lemma {:induction false} SerialRunMeetsConditions(c: Config, ls: seq<Label>)
    requires Run(c, INIT, ls).Some? && SerialRun(c, ls)
    ensures AdmissionLocks.QuietRun(c, ls)
    ensures c.Dedupes() ==> AdmissionDedupe.OwnReleases(c, ls)
    decreases |ls|
  {
    if ls != [] {
      var init, l := ls[..|ls| - 1], ls[|ls| - 1];
      var s := Run(c, INIT, init).value;
      SerialRunMeetsConditions(c, init);
      SerialRunOrderly(c, init);
      if l.ReleaseLocks? { assert Active(s, l.h); }
      forall g | Active(s, g) && l.ReleaseLocks? ensures g == l.h {
      }
      assert forall g :: g in s.handlers && s.handlers[g].pc.Locking? ==> Active(s, g);
      if l.DropKey? && c.Dedupes() {
        AdmissionDedupe.RunKeepsWindow(c, init);
        assert AdmissionDedupe.Claims(s, AdmissionDedupe.InFlight(l.h));
        AdmissionDedupe.TimelyReleaseIsOwn(c, s, l.h);
      }
    }
  }

  // ----- What a history entry says about its event -----

  function EventOf(r: Request): (e: Event) {
    Event(r.job.delivery, r.job.eventType, r.job.repo, r.job.mr, r.job.sha, r.job.baseRef, r.job.files)
  }

  ghost predicate Genuine(r: Request) {
    r == RequestOf(EventOf(r))
  }

  ghost predicate AllGenuine(s: State) {
    && (forall h :: h in s.handlers ==> Genuine(s.handlers[h].req))
    && (forall i :: 0 <= i < |s.log| && s.log[i].Queued? ==> Genuine(s.log[i].req))
  }

  lemma ArrivedGenuine(s: State, h: nat, e: Event, valid: bool)
    requires AllGenuine(s)
    ensures AllGenuine(Arrived(s, h, RequestOf(e), valid))
  {
    assert EventOf(RequestOf(e)) == e;
  }

  // What a step other than an arrival leaves of the requests and the history.
  lemma RequestsKept(c: Config, s: State, l: Label)
    requires Enabled(c, s, l) && !l.Arrive?
    ensures var s' := Step(c, s, l);
      && s'.handlers.Keys == s.handlers.Keys
      && (forall h :: h in s.handlers ==> s'.handlers[h].req == s.handlers[h].req)
      && LogKept(s, s')
  {
    var s' := Step(c, s, l);
    if l.Enqueue? || l.HandOver? {
      assert s'.log == s.log + [Queued(s.handlers[l.h].req, s.handlers[l.h].pc.at)];
    } else if l.ReleaseLocks? {
      assert |s'.log| == |s.log| + 1 && s'.log[|s.log|].Closed?;
    } else {
      assert s'.log == s.log;
    }
  }

  ghost predicate LogKept(s: State, s': State) {
    forall i :: 0 <= i < |s'.log| && s'.log[i].Queued? ==>
      || (i < |s.log| && s'.log[i] == s.log[i])
      || (exists h :: h in s.handlers && s'.log[i].req == s.handlers[h].req)
  }

  lemma StepGenuine(c: Config, s: State, l: Label)
    requires AllGenuine(s) && Enabled(c, s, l)
    ensures AllGenuine(Step(c, s, l))
  {
    if l.Arrive? {
      ArrivedGenuine(s, l.h, l.event, WellFormed(l.event));
    } else {
      RequestsKept(c, s, l);
      KeptGenuine(s, Step(c, s, l));
    }
  }

  lemma KeptGenuine(s: State, s': State)
    requires AllGenuine(s) && s'.handlers.Keys == s.handlers.Keys
    requires forall h :: h in s.handlers ==> s'.handlers[h].req == s.handlers[h].req
    requires LogKept(s, s')
    ensures AllGenuine(s')
  {
  }

  lemma {:induction false} RunGenuine(c: Config, ls: seq<Label>)
    requires Run(c, INIT, ls).Some?
    ensures AllGenuine(Run(c, INIT, ls).value)
    decreases |ls|
  {
    if ls != [] {
      RunGenuine(c, ls[..|ls| - 1]);
      StepGenuine(c, Run(c, INIT, ls[..|ls| - 1]).value, ls[|ls| - 1]);
    }
  }

  /** Some changed file is neither blank nor absolute. */
  ghost predicate TouchesRelativeFile(files: seq<string>) {
    exists i :: 0 <= i < |files| && !Blank(files[i]) && files[i][0] != '/'
  }

  /** Every change with a relative file locks the root ".", so in a serial run a
      repository has jobs of one merge request at a time: between jobs of two there
      is a close or merge of the earlier one. */
  lemma OneMergeRequestAtATime(c: Config, ls: seq<Label>, i: nat, j: nat)
    requires c.useLocker && Run(c, INIT, ls).Some? && SerialRun(c, ls)
    requires var log := Run(c, INIT, ls).value.log;
      && i < j < |log| && log[i].Queued? && log[j].Queued?
      && log[i].req.job.repo == log[j].req.job.repo && log[i].req.job.mr != log[j].req.job.mr
      && TouchesRelativeFile(log[i].req.job.files) && TouchesRelativeFile(log[j].req.job.files)
    ensures var log := Run(c, INIT, ls).value.log;
      exists k :: i < k < j && log[k] == Closed(log[i].req.job.repo, log[i].req.job.mr)
  {
    var log := Run(c, INIT, ls).value.log;
    RunGenuine(c, ls);
    DotIsRoot(log[i].req);
    DotIsRoot(log[j].req);
    SerialRunMeetsConditions(c, ls);
    AdmissionLocks.JobsOfOneRootSeparated(c, ls, i, j, DOT);
  }

  lemma DotIsRoot(r: Request)
    requires Genuine(r) && TouchesRelativeFile(r.job.files)
    ensures DOT in r.roots
  {
    var f :| 0 <= f < |r.job.files| && !Blank(r.job.files[f]) && r.job.files[f][0] != '/';
    RelativeChangeHasDot(r.job.files, f);
  }

  /** In a serial run a nil answer means that the delivery id is committed. */
  lemma SerialNilIsCommitted(c: Config, ls: seq<Label>, h: nat)
    requires Run(c, INIT, ls).Some? && SerialRun(c, ls)
    requires var s := Run(c, INIT, ls).value;
      h in s.handlers && s.handlers[h].pc.Done? && !s.handlers[h].pc.outcome.IsError()
    ensures var s := Run(c, INIT, ls).value;
      IsCommitted(s, s.handlers[h].req.job.delivery)
  {
    SerialRunOrderly(c, ls);
  }
}
