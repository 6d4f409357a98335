/**
 `Service.HandleMergeRequestEvent` on the in-memory stores, one call from start to
 end. Its contract determines the outcome and what every store holds afterwards, and
 its ghost results show that the call is a run of the step system of Admission,
 operation by operation.
 */
module Service {
  import opened Options
  import opened Discovery
  import opened DeliveryStore
  import opened DedupeStore
  import opened Locker
  import opened Queue
  import opened Admission

  // ----- What a call answers and leaves behind -----

  /** What the outside decides: the dedupe store returned an error; the context ended
      before the queue took the job. */
  datatype Faults = Faults(dedupeFails: bool, cancelled: bool)

  predicate Available(locks: Locks, r: Request, x: CleanPath) {
    Free(locks, r.job.repo, x, r.job.mr)
  }

  ghost predicate AllAvailable(c: Config, locks: Locks, r: Request) {
    c.useLocker ==> forall x :: x in r.roots ==> Available(locks, r, x)
  }

  /** The answer to a well-formed event, by the stores it finds. */
  ghost function OutcomeOf(c: Config, r: Request, f: Faults, s0: State): (o: Outcome) {
    if r.job.delivery in s0.deliveries then Duplicate
    else if r.closing then ClosedMR
    else if c.Dedupes() && f.dedupeFails then Failed
    else if c.Dedupes() && Held(s0.expiry, r.key, s0.now) then Deduped
    else if !AllAvailable(c, s0.locks, r) || f.cancelled then Failed
    else Accepted
  }

  ghost predicate Owns(locks: Locks, r: Request, roots: set<CleanPath>) {
    forall x :: x in roots ==> OwnerOf(locks, r.job.repo, x) == Some(r.job.mr)
  }

  /** after is before with exactly the roots of got now owned by this merge request. */
  ghost predicate Gained(before: Locks, after: Locks, r: Request, got: set<CleanPath>) {
    forall p, x :: OwnerOf(after, p, x) ==
      if p == r.job.repo && x in got then Some(r.job.mr) else OwnerOf(before, p, x)
  }

  /** Which roots a call acquires in all: every one if all are available, and
      otherwise some available ones, up to one that is not. */
  ghost predicate Acquires(c: Config, locks: Locks, r: Request, got: set<CleanPath>) {
    && (!c.useLocker ==> got == {})
    && (c.useLocker && AllAvailable(c, locks, r) ==> got == r.roots)
    && (c.useLocker && !AllAvailable(c, locks, r) ==>
          && got < r.roots
          && (forall x :: x in got ==> Available(locks, r, x))
          && exists x :: x in r.roots - got && !Available(locks, r, x))
  }

  /** The call gets past the dedupe store. */
  ghost predicate Passes(c: Config, r: Request, f: Faults, s0: State) {
    && r.job.delivery !in s0.deliveries && !r.closing
    && (c.Dedupes() ==> !f.dedupeFails && !Held(s0.expiry, r.key, s0.now))
  }

  function QueueAfter(c: Config, queue: seq<Job>, job: Job): (q: seq<Job>) {
    if |queue| < c.capacity then queue + [job] else (queue + [job])[1..]
  }

  ghost function DeliveriesAfter(r: Request, s0: State, o: Outcome): (m: Deliveries) {
    if o.IsError() || o == Duplicate then s0.deliveries else s0.deliveries[r.job.delivery := Committed]
  }

  ghost function ExpiryAfter(c: Config, r: Request, f: Faults, s0: State, o: Outcome): (m: Expiries) {
    if !c.Dedupes() || o == Invalid || o == Duplicate || o == ClosedMR || f.dedupeFails then s0.expiry
    else if o == Failed then AfterReserve(s0.expiry, r.key, c.ttl, s0.now) - {r.key}
    else AfterReserve(s0.expiry, r.key, c.ttl, s0.now)
  }

  /** All that a call that ended with o has done to the stores, from s0 to s; got are
      the roots it has acquired. */
  ghost predicate Answered(c: Config, r: Request, f: Faults, s0: State, s: State, o: Outcome, got: set<CleanPath>) {
    && s.deliveries == DeliveriesAfter(r, s0, o)
    && s.expiry == ExpiryAfter(c, r, f, s0, o)
    && s.queue == (if o == Accepted then QueueAfter(c, s0.queue, r.job) else s0.queue)
    && (if o == ClosedMR && c.useLocker then s.locks == ReleasedByMR(s0.locks, r.job.repo, r.job.mr)
        else Gained(s0.locks, s.locks, r, got))
    && (if o != Invalid && Passes(c, r, f, s0) then Acquires(c, s0.locks, r, got) else got == {})
  }

  // ----- What a caller may conclude -----

  /** Exactly when an event is accepted, when it is taken for a repetition of a delivery or
      of an event, and when it closes; otherwise it fails. */
  lemma AcceptedIff(c: Config, r: Request, f: Faults, s0: State)
    ensures OutcomeOf(c, r, f, s0) == Accepted <==>
      && r.job.delivery !in s0.deliveries && !r.closing
      && (c.Dedupes() ==> !f.dedupeFails && !Held(s0.expiry, r.key, s0.now))
      && (c.useLocker ==> forall x :: x in r.roots ==> Free(s0.locks, r.job.repo, x, r.job.mr))
      && !f.cancelled
    ensures OutcomeOf(c, r, f, s0) == Deduped <==>
      && r.job.delivery !in s0.deliveries && !r.closing
      && c.Dedupes() && !f.dedupeFails && Held(s0.expiry, r.key, s0.now)
    ensures OutcomeOf(c, r, f, s0) == Duplicate <==> r.job.delivery in s0.deliveries
    ensures OutcomeOf(c, r, f, s0) == ClosedMR <==> r.job.delivery !in s0.deliveries && r.closing
    ensures OutcomeOf(c, r, f, s0) == Failed <==>
      && r.job.delivery !in s0.deliveries && !r.closing
      && (|| (c.Dedupes() && f.dedupeFails)
          || ((c.Dedupes() ==> !Held(s0.expiry, r.key, s0.now))
              && (f.cancelled || (c.useLocker && exists x :: x in r.roots && !Free(s0.locks, r.job.repo, x, r.job.mr)))))
  {
  }

  /** An accepted event owns all its roots. */
  lemma AcceptedOwns(c: Config, r: Request, f: Faults, s0: State, s: State, got: set<CleanPath>)
    requires c.useLocker && OutcomeOf(c, r, f, s0) == Accepted && Answered(c, r, f, s0, s, Accepted, got)
    ensures Owns(s.locks, r, r.roots)
  {
    AcceptedIff(c, r, f, s0);
  }

  /** After an error past validation the delivery id is free, and so is the dedupe key
      at any later time unless the dedupe store itself failed and another event holds it:
      a redelivery is not taken for a duplicate. */
  lemma RedeliveryNotDropped(c: Config, r: Request, f: Faults, s0: State, s: State, got: set<CleanPath>, later: nat)
    requires OutcomeOf(c, r, f, s0) == Failed && Answered(c, r, f, s0, s, Failed, got)
    ensures r.job.delivery !in s.deliveries
    ensures c.Dedupes() ==> (Granted(s.expiry, r.key, c.ttl, later) <==> !(f.dedupeFails && Held(s0.expiry, r.key, later)))
  {
  }

  /** A failed call keeps the locks it took: all its roots when the queue refused the
      job, and those up to the conflict otherwise. */
  lemma LocksKept(c: Config, r: Request, f: Faults, s0: State, s: State, got: set<CleanPath>)
    requires c.useLocker && OutcomeOf(c, r, f, s0) == Failed && Answered(c, r, f, s0, s, Failed, got)
    ensures Owns(s.locks, r, got)
    ensures Passes(c, r, f, s0) && AllAvailable(c, s0.locks, r) ==> Owns(s.locks, r, r.roots)
    ensures Passes(c, r, f, s0) && !AllAvailable(c, s0.locks, r) ==>
      exists x :: x in r.roots - got && OwnerOf(s.locks, r.job.repo, x) != None && OwnerOf(s.locks, r.job.repo, x) != Some(r.job.mr)
  {
    if Passes(c, r, f, s0) && !AllAvailable(c, s0.locks, r) {
      var x :| x in r.roots - got && !Available(s0.locks, r, x);
      assert OwnerOf(s.locks, r.job.repo, x) == OwnerOf(s0.locks, r.job.repo, x);
    }
  }

  ghost predicate SameOwners(before: Locks, after: Locks) {
    forall p, x :: OwnerOf(after, p, x) == OwnerOf(before, p, x)
  }

  /** Exactly when a failed call leaves the locks as they were: it took none that its
      merge request did not have; and when the queue refused the job, its merge request
      had all of them. */
  lemma LocksAsBeforeIff(c: Config, r: Request, f: Faults, s0: State, s: State, got: set<CleanPath>)
    requires c.useLocker && OutcomeOf(c, r, f, s0) == Failed && Answered(c, r, f, s0, s, Failed, got)
    ensures SameOwners(s0.locks, s.locks) <==> Owns(s0.locks, r, got)
    ensures Passes(c, r, f, s0) && AllAvailable(c, s0.locks, r) ==>
      (SameOwners(s0.locks, s.locks) <==> Owns(s0.locks, r, r.roots))
  {
    if SameOwners(s0.locks, s.locks) {
      forall x | x in got ensures OwnerOf(s0.locks, r.job.repo, x) == Some(r.job.mr) {
        assert OwnerOf(s.locks, r.job.repo, x) == OwnerOf(s0.locks, r.job.repo, x);
      }
    }
  }

  // ----- The call as a run -----

  /** s is what a run of call h has made of s0 so far. */
  ghost predicate Reached(c: Config, s0: State, s: State, h: nat, r: Request, pc: Pc) {
    && Leads(c, s0, s)
    && h !in s0.handlers && s.handlers == s0.handlers[h := Handler(r, pc)]
    && s.now == s0.now
  }

  /** One more step of call h, which moves it on to pc. */
  lemma Took(c: Config, s0: State, s: State, h: nat, r: Request, was: Pc, l: Label, pc: Pc)
    requires Reached(c, s0, s, h, r, was) && Enabled(c, s, l)
    requires Step(c, s, l).handlers == Move(s, h, pc).handlers && Step(c, s, l).now == s.now
    ensures Reached(c, s0, Step(c, s, l), h, r, pc)
  {
    LeadsOn(c, s0, s, l);
    assert s0.handlers[h := Handler(r, was)][h := Handler(r, pc)] == s0.handlers[h := Handler(r, pc)];
  }

  lemma NothingGained(locks: Locks, r: Request)
    ensures Gained(locks, locks, r, {})
  {
  }

  /** The roots of the first k projects. */
  function RootsOf(projects: seq<Project>, k: nat): (roots: set<CleanPath>)
    requires k <= |projects|
  {
    set n | 0 <= n < k :: projects[n].root
  }

  lemma GainRoot(before: Locks, locks: Locks, r: Request, got: set<CleanPath>, root: CleanPath)
    requires Gained(before, locks, r, got) && root !in got
    ensures Available(locks, r, root) == Available(before, r, root)
    ensures Gained(before, Acquired(locks, r.job.repo, root, r.job.mr), r, if Available(before, r, root) then got + {root} else got)
  {
    var after := Acquired(locks, r.job.repo, root, r.job.mr);
    assert OwnerOf(locks, r.job.repo, root) == OwnerOf(before, r.job.repo, root);
    forall p, x ensures OwnerOf(after, p, x) ==
      if Available(locks, r, root) && p == r.job.repo && x == root then Some(r.job.mr) else OwnerOf(locks, p, x)
    {
      OwnerAfter(locks, r.job.repo, root, r.job.mr, p, x);
    }
  }

  /** How far the lock loop gets: to the first root that is not available. */
  ghost predicate StopsAt(locks: Locks, r: Request, projects: seq<Project>, k: nat) {
    && k <= |projects|
    && (forall i :: 0 <= i < k ==> Available(locks, r, projects[i].root))
    && (k < |projects| ==> !Available(locks, r, projects[k].root))
  }

  lemma StopAcquires(c: Config, locks: Locks, r: Request, projects: seq<Project>, k: nat)
    requires c.useLocker && RootsOf(projects, |projects|) == r.roots && StopsAt(locks, r, projects, k)
    requires forall i, j :: 0 <= i < j < |projects| ==> projects[i].root != projects[j].root
    ensures Acquires(c, locks, r, RootsOf(projects, k))
    ensures k == |projects| <==> AllAvailable(c, locks, r)
  {
    var got := RootsOf(projects, k);
    assert got <= r.roots;
    if k < |projects| {
      var x := projects[k].root;
      assert x in RootsOf(projects, |projects|);
      assert x !in got;
    }
  }

  class AdmissionService {
    const jobs: MemoryQueue
    const store: MemoryDeliveryStore
    const locker: MemoryLocker?
    const dedupe: MemoryDedupeStore?
    const dedupeTTL: int

    constructor (jobs: MemoryQueue, store: MemoryDeliveryStore, locker: MemoryLocker?, dedupe: MemoryDedupeStore?, ttl: int)
      ensures this.jobs == jobs && this.store == store && this.locker == locker
      ensures this.dedupe == dedupe && this.dedupeTTL == ttl
    {
      this.jobs, this.store, this.locker, this.dedupe, this.dedupeTTL := jobs, store, locker, dedupe, ttl;
    }

    ghost function Setup(): Config {
      Config(locker != null, dedupe != null, dedupeTTL, jobs.capacity)
    }

    /** The stores hold what the state of the step system says. */
    ghost predicate Matches(s: State)
      reads jobs, store, locker, dedupe
    {
      && jobs.Valid() && jobs.jobs == s.queue
      && store.state == s.deliveries
      && (locker != null ==> locker.locks == s.locks)
      && (dedupe != null ==> dedupe.expiry == s.expiry)
    }

    method HandleMergeRequestEvent(event: Event, now: nat, f: Faults, ghost h: nat, ghost s0: State)
      returns (outcome: Outcome, ghost s: State, ghost got: set<CleanPath>)
      requires Matches(s0) && now == s0.now && h !in s0.handlers
      modifies jobs, store, locker, dedupe
      ensures Matches(s) && Reached(Setup(), s0, s, h, RequestOf(event), Done(outcome))
      ensures outcome == Invalid <==>
        event.delivery == "" || event.eventType == "" || event.repo == "" || event.sha == "" || event.mr <= 0
      ensures outcome == if WellFormed(event) then OutcomeOf(Setup(), RequestOf(event), f, s0) else Invalid
      ensures Answered(Setup(), RequestOf(event), f, s0, s, outcome, got)
    {
      ghost var c := Setup();
      s, got := s0, {};
      LeadsNowhere(c, s0);
      LeadsOn(c, s0, s, Arrive(h, event));
      s := Step(c, s, Arrive(h, event));
      var r := RequestOf(event);
      if !WellFormed(event) {
        NothingGained(s0.locks, r);
        return Invalid, s, got;
      }
      outcome, s, got := HandleValid(r, now, f, h, s0, s);
    }

    method HandleValid(r: Request, now: nat, f: Faults, ghost h: nat, ghost s0: State, ghost s1: State)
      returns (outcome: Outcome, ghost s: State, ghost got: set<CleanPath>)
      requires Matches(s0) && now == s0.now && r.roots == Roots(r.job.files)
      requires s1 == s0.(handlers := s1.handlers) && Reached(Setup(), s0, s1, h, r, Start)
      modifies jobs, store, locker, dedupe
      ensures Matches(s) && Reached(Setup(), s0, s, h, r, Done(outcome))
      ensures outcome == OutcomeOf(Setup(), r, f, s0) && Answered(Setup(), r, f, s0, s, outcome, got)
    {
      ghost var c := Setup();
      s, got := s1, {};
      NothingGained(s0.locks, r);
      var isNew := store.Reserve(r.job.delivery);
      Took(c, s0, s, h, r, Start, Reserve(h), if isNew then AfterDelivery(c, r) else Done(Duplicate));
      s := Step(c, s, Reserve(h));
      if !isNew {
        return Duplicate, s, got;
      }
      if r.closing {
        s := Close(r, h, s0, s);
        return ClosedMR, s, got;
      }
      outcome, s, got := Admit(r, now, f, h, s0, s);
    }

    /** A close or merge: the locks of the merge request go. */
    method Close(r: Request, ghost h: nat, ghost s0: State, ghost s1: State) returns (ghost s: State)
      requires Matches(s1) && r.closing && Reached(Setup(), s0, s1, h, r, AfterDelivery(Setup(), r))
      requires s1 == s0.(handlers := s1.handlers, deliveries := s0.deliveries[r.job.delivery := Pending])
      modifies store, locker
      ensures Matches(s) && Reached(Setup(), s0, s, h, r, Done(ClosedMR))
      ensures s.deliveries == s0.deliveries[r.job.delivery := Committed] && s.queue == s0.queue && s.expiry == s0.expiry
      ensures s.locks == if locker != null then ReleasedByMR(s0.locks, r.job.repo, r.job.mr) else s0.locks
    {
      s := s1;
      if locker != null {
        locker.ReleaseByMR(r.job.repo, r.job.mr);
        Took(Setup(), s0, s, h, r, Closing, ReleaseLocks(h), Committing(ClosedMR));
        s := Step(Setup(), s, ReleaseLocks(h));
      }
      s := CommitDelivery(r, ClosedMR, h, s0, s);
    }

    method CommitDelivery(r: Request, outcome: Outcome, ghost h: nat, ghost s0: State, ghost s1: State)
      returns (ghost s: State)
      requires Matches(s1) && Reached(Setup(), s0, s1, h, r, Committing(outcome))
      requires s1.deliveries == s0.deliveries[r.job.delivery := Pending]
      modifies store
      ensures Matches(s) && Reached(Setup(), s0, s, h, r, Done(outcome))
      ensures s == s1.(handlers := s.handlers, deliveries := s0.deliveries[r.job.delivery := Committed])
    {
      store.Commit(r.job.delivery);
      Took(Setup(), s0, s1, h, r, Committing(outcome), Commit(h), Done(outcome));
      s := Step(Setup(), s1, Commit(h));
    }

    /** Undo after a failure: the dedupe key, if one was reserved, then the delivery.
        The locks stay. */
    method Undo(r: Request, ghost at: Option<nat>, ghost h: nat, ghost s0: State, ghost s1: State)
      returns (ghost s: State)
      requires Matches(s1) && Reached(Setup(), s0, s1, h, r, GiveUp(at))
      requires at.Some? <==> Setup().Dedupes()
      requires r.job.delivery !in s0.deliveries && s1.deliveries == s0.deliveries[r.job.delivery := Pending]
      modifies store, dedupe
      ensures Matches(s) && Reached(Setup(), s0, s, h, r, Done(Failed))
      ensures s == s1.(handlers := s.handlers, deliveries := s0.deliveries,
                       expiry := if Setup().Dedupes() then s1.expiry - {r.key} else s1.expiry)
    {
      ghost var c := Setup();
      s := s1;
      if dedupe != null && dedupeTTL > 0 {
        dedupe.Release(r.key);
        Took(c, s0, s, h, r, GiveUp(at), DropKey(h), Releasing);
        s := Step(c, s, DropKey(h));
      }
      s := ReleaseDelivery(r, h, s0, s);
    }

    method ReleaseDelivery(r: Request, ghost h: nat, ghost s0: State, ghost s1: State)
      returns (ghost s: State)
      requires Matches(s1) && Reached(Setup(), s0, s1, h, r, Releasing)
      requires r.job.delivery !in s0.deliveries && s1.deliveries == s0.deliveries[r.job.delivery := Pending]
      modifies store
      ensures Matches(s) && Reached(Setup(), s0, s, h, r, Done(Failed))
      ensures s == s1.(handlers := s.handlers, deliveries := s0.deliveries)
    {
      store.Release(r.job.delivery);
      ReserveReleaseRoundTrip(s0.deliveries, r.job.delivery);
      Took(Setup(), s0, s1, h, r, Releasing, Label.ReleaseDelivery(h), Done(Failed));
      s := Step(Setup(), s1, Label.ReleaseDelivery(h));
    }

    /** An event that is neither a redelivery nor a close. */
    method Admit(r: Request, now: nat, f: Faults, ghost h: nat, ghost s0: State, ghost s1: State)
      returns (outcome: Outcome, ghost s: State, ghost got: set<CleanPath>)
      requires Matches(s1) && now == s0.now && r.roots == Roots(r.job.files) && !r.closing
      requires Reached(Setup(), s0, s1, h, r, AfterDelivery(Setup(), r))
      requires r.job.delivery !in s0.deliveries
      requires s1 == s0.(handlers := s1.handlers, deliveries := s0.deliveries[r.job.delivery := Pending])
      modifies jobs, store, locker, dedupe
      ensures Matches(s) && Reached(Setup(), s0, s, h, r, Done(outcome))
      ensures outcome == OutcomeOf(Setup(), r, f, s0) && Answered(Setup(), r, f, s0, s, outcome, got)
    {
      s, got := s1, {};
      NothingGained(s0.locks, r);
      var early;
      early, s := PassDedupe(r, now, f, h, s0, s);
      if early.Some? {
        return early.value, s, got;
      }
      outcome, s, got := LockAndEnqueue(r, f, if Setup().Dedupes() then Some(now) else None, h, s0, s);
    }

    /** The dedupe store, if one is in use: the call ends there, or goes on with its
        key reserved. */
    method PassDedupe(r: Request, now: nat, f: Faults, ghost h: nat, ghost s0: State, ghost s1: State)
      returns (early: Option<Outcome>, ghost s: State)
      requires Matches(s1) && now == s0.now && !r.closing
      requires Reached(Setup(), s0, s1, h, r, AfterDelivery(Setup(), r))
      requires r.job.delivery !in s0.deliveries
      requires s1 == s0.(handlers := s1.handlers, deliveries := s0.deliveries[r.job.delivery := Pending])
      modifies store, dedupe
      ensures Matches(s) && s == s0.(handlers := s.handlers, deliveries := s.deliveries, expiry := s.expiry)
      ensures early.None? <==> Passes(Setup(), r, f, s0)
      ensures early.None? ==>
        && Reached(Setup(), s0, s, h, r, FirstLocking(Setup(), r, if Setup().Dedupes() then Some(now) else None))
        && s.deliveries == s1.deliveries
        && s.expiry == if Setup().Dedupes() then AfterReserve(s0.expiry, r.key, dedupeTTL, now) else s0.expiry
      ensures early.Some? ==>
        && early.value == (if f.dedupeFails then Failed else Deduped)
        && Reached(Setup(), s0, s, h, r, Done(early.value))
        && s.deliveries == DeliveriesAfter(r, s0, early.value)
        && s.expiry == ExpiryAfter(Setup(), r, f, s0, early.value)
    {
      s := s1;
      if dedupe == null || dedupeTTL <= 0 {
        return None, s;
      }
      if f.dedupeFails {
        Took(Setup(), s0, s, h, r, Deduping, DedupeError(h), Releasing);
        s := Step(Setup(), s, DedupeError(h));
        s := ReleaseDelivery(r, h, s0, s);
        return Some(Failed), s;
      }
      var ok;
      ok, s := ReserveKey(r, now, h, s0, s);
      if !ok {
        s := CommitDelivery(r, Deduped, h, s0, s);
        return Some(Deduped), s;
      }
      return None, s;
    }

    method ReserveKey(r: Request, now: nat, ghost h: nat, ghost s0: State, ghost s1: State) returns (ok: bool, ghost s: State)
      requires dedupe != null && dedupeTTL > 0 && Matches(s1) && now == s0.now
      requires Reached(Setup(), s0, s1, h, r, Deduping)
      modifies dedupe
      ensures Matches(s) && s == s1.(handlers := s.handlers, expiry := AfterReserve(s1.expiry, r.key, dedupeTTL, now))
      ensures Reached(Setup(), s0, s, h, r, if ok then FirstLocking(Setup(), r, Some(now)) else Committing(Deduped))
      ensures ok == Granted(s1.expiry, r.key, dedupeTTL, now)
    {
      ghost var c := Setup();
      ok := dedupe.Reserve(r.key, dedupeTTL, now);
      Took(c, s0, s1, h, r, Deduping, Dedupe(h), if ok then FirstLocking(c, r, Some(now)) else Committing(Deduped));
      s := Step(c, s1, Dedupe(h));
    }

    /** The locks, then the queue: accepted exactly when every root is available and
        the queue takes the job. */
    method LockAndEnqueue(r: Request, f: Faults, ghost at: Option<nat>, ghost h: nat, ghost s0: State, ghost s1: State)
      returns (outcome: Outcome, ghost s: State, ghost got: set<CleanPath>)
      requires Matches(s1) && r.roots == Roots(r.job.files)
      requires Reached(Setup(), s0, s1, h, r, FirstLocking(Setup(), r, at))
      requires at.Some? <==> Setup().Dedupes()
      requires r.job.delivery !in s0.deliveries
      requires s1 == s0.(handlers := s1.handlers, deliveries := s0.deliveries[r.job.delivery := Pending], expiry := s1.expiry)
      modifies jobs, store, locker, dedupe
      ensures Matches(s) && Reached(Setup(), s0, s, h, r, Done(outcome))
      ensures outcome == if !AllAvailable(Setup(), s0.locks, r) || f.cancelled then Failed else Accepted
      ensures s.deliveries == if outcome == Accepted then s0.deliveries[r.job.delivery := Committed] else s0.deliveries
      ensures s.queue == if outcome == Accepted then QueueAfter(Setup(), s0.queue, r.job) else s0.queue
      ensures s.expiry == if outcome == Failed && Setup().Dedupes() then s1.expiry - {r.key} else s1.expiry
      ensures Gained(s0.locks, s.locks, r, got) && Acquires(Setup(), s0.locks, r, got)
    {
      s, got := s1, {};
      NothingGained(s0.locks, r);
      if locker != null {
        var projects := DiscoverFromChangedFiles(r.job.files);
        var ok;
        ghost var k;
        ok, k, s := AcquireRoots(r, projects, at, h, s0, s);
        got := RootsOf(projects, k);
        StopAcquires(Setup(), s0.locks, r, projects, k);
        if !ok {
          s := Undo(r, at, h, s0, s);
          return Failed, s, got;
        }
      }
      outcome, s := Send(r, f.cancelled, at, h, s0, s);
    }

    method Send(r: Request, cancelled: bool, ghost at: Option<nat>, ghost h: nat, ghost s0: State, ghost s1: State)
      returns (outcome: Outcome, ghost s: State)
      requires Matches(s1) && Reached(Setup(), s0, s1, h, r, Locking({}, at))
      requires at.Some? <==> Setup().Dedupes()
      requires r.job.delivery !in s0.deliveries && s1.deliveries == s0.deliveries[r.job.delivery := Pending]
      modifies jobs, store, dedupe
      ensures Matches(s) && Reached(Setup(), s0, s, h, r, Done(outcome)) && s.locks == s1.locks
      ensures outcome == if cancelled then Failed else Accepted
      ensures s.deliveries == if outcome == Accepted then s0.deliveries[r.job.delivery := Committed] else s0.deliveries
      ensures s.queue == if outcome == Accepted then QueueAfter(Setup(), s1.queue, r.job) else s1.queue
      ensures s.expiry == if outcome == Failed && Setup().Dedupes() then s1.expiry - {r.key} else s1.expiry
    {
      var ok;
      ok, s := Enqueue(r, cancelled, at, h, s0, s1);
      if !ok {
        s := Undo(r, at, h, s0, s);
        return Failed, s;
      }
      s := CommitDelivery(r, Accepted, h, s0, s);
      return Accepted, s;
    }

    method Enqueue(r: Request, cancelled: bool, ghost at: Option<nat>, ghost h: nat, ghost s0: State, ghost s1: State)
      returns (ok: bool, ghost s: State)
      requires Matches(s1) && Reached(Setup(), s0, s1, h, r, Locking({}, at))
      modifies jobs
      ensures Matches(s) && ok == !cancelled
      ensures Reached(Setup(), s0, s, h, r, if ok then Committing(Accepted) else GiveUp(at))
      ensures s == s1.(handlers := s.handlers, queue := s.queue, consumed := s.consumed, log := s.log)
      ensures s.queue == if ok then QueueAfter(Setup(), s1.queue, r.job) else s1.queue
    {
      ghost var c, full := Setup(), |jobs.jobs| == jobs.capacity;
      ghost var taken;
      ok, taken := jobs.Enqueue(r.job, cancelled);
      assert jobs.jobs == (taken + jobs.jobs)[|taken|..];
      if cancelled {
        Took(c, s0, s1, h, r, Locking({}, at), EnqueueError(h), GiveUp(at));
        s := Step(c, s1, EnqueueError(h));
      } else if full {
        Took(c, s0, s1, h, r, Locking({}, at), HandOver(h), Committing(Accepted));
        s := Step(c, s1, HandOver(h));
      } else {
        Took(c, s0, s1, h, r, Locking({}, at), Label.Enqueue(h), Committing(Accepted));
        s := Step(c, s1, Label.Enqueue(h));
      }
    }

    /** The lock loop: it goes on exactly while roots are available, and keeps what it
        has taken when it stops. */
    method AcquireRoots(r: Request, projects: seq<Project>, ghost at: Option<nat>, ghost h: nat, ghost s0: State, ghost s1: State)
      returns (ok: bool, ghost k: nat, ghost s: State)
      requires locker != null && Matches(s1) && r.roots == RootsOf(projects, |projects|)
      requires forall i, j :: 0 <= i < j < |projects| ==> projects[i].root != projects[j].root
      requires Reached(Setup(), s0, s1, h, r, Locking(r.roots, at))
      modifies locker
      ensures Matches(s) && s == s1.(handlers := s.handlers, locks := s.locks)
      ensures Reached(Setup(), s0, s, h, r, if ok then Locking({}, at) else GiveUp(at))
      ensures StopsAt(s1.locks, r, projects, k) && (ok <==> k == |projects|)
      ensures Gained(s1.locks, s.locks, r, RootsOf(projects, k))
    {
      s := s1;
      NothingGained(s1.locks, r);
      assert r.roots - RootsOf(projects, 0) == r.roots;
      for i := 0 to |projects|
        invariant Matches(s) && s == s1.(handlers := s.handlers, locks := s.locks)
        invariant Reached(Setup(), s0, s, h, r, Locking(r.roots - RootsOf(projects, i), at))
        invariant forall n :: 0 <= n < i ==> Available(s1.locks, r, projects[n].root)
        invariant Gained(s1.locks, s.locks, r, RootsOf(projects, i))
      {
        NextRoot(projects, i);
        GainRoot(s1.locks, s.locks, r, RootsOf(projects, i), projects[i].root);
        assert r.roots - RootsOf(projects, i) - {projects[i].root} == r.roots - RootsOf(projects, i + 1);
        var got;
        got, s := AcquireRoot(r, projects[i].root, r.roots - RootsOf(projects, i), at, h, s0, s);
        if !got {
          return false, i, s;
        }
      }
      assert r.roots - RootsOf(projects, |projects|) == {};
      return true, |projects|, s;
    }

    method AcquireRoot(r: Request, root: CleanPath, ghost todo: set<CleanPath>, ghost at: Option<nat>, ghost h: nat, ghost s0: State, ghost s1: State)
      returns (got: bool, ghost s: State)
      requires locker != null && Matches(s1) && root in todo
      requires Reached(Setup(), s0, s1, h, r, Locking(todo, at))
      modifies locker
      ensures Matches(s) && s == s1.(handlers := s.handlers, locks := Acquired(s1.locks, r.job.repo, root, r.job.mr))
      ensures Reached(Setup(), s0, s, h, r, if got then Locking(todo - {root}, at) else GiveUp(at))
      ensures got == Available(s1.locks, r, root)
    {
      var owner;
      got, owner := locker.Acquire(r.job.repo, root, r.job.mr);
      Took(Setup(), s0, s1, h, r, Locking(todo, at), Label.Acquire(h, root), if got then Locking(todo - {root}, at) else GiveUp(at));
      s := Step(Setup(), s1, Label.Acquire(h, root));
    }
  }

  lemma NextRoot(projects: seq<Project>, i: nat)
    requires i < |projects| && forall n, m :: 0 <= n < m < |projects| ==> projects[n].root != projects[m].root
    ensures projects[i].root in RootsOf(projects, |projects|) && projects[i].root !in RootsOf(projects, i)
    ensures RootsOf(projects, i + 1) == RootsOf(projects, i) + {projects[i].root}
  {
  }
}
