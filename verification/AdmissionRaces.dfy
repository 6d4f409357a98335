/**
 What the side conditions of the admission results are for: three families of
 interleavings, for any events of the given shape, in which the claim fails
 without them.
 */
module AdmissionRaces {
  import opened Options
  import opened Discovery
  import opened DeliveryStore
  import opened DedupeStore
  import opened Locker
  import opened Queue
  import opened Admission
  import AdmissionLocks

  /** A redelivery that arrives while the first call is still working is answered
      nil; if the first call then fails, the delivery is neither queued nor stored. */
  lemma RedeliveryDuringFailure(e: Event) returns (s: State)
    requires WellFormed(e) && !IsCloseEvent(e.eventType)
    ensures Leads(Config(false, false, 0, 1), INIT, s)
    ensures 2 in s.handlers && s.handlers[2] == Handler(RequestOf(e), Done(Duplicate))
    ensures e.delivery !in s.deliveries && s.log == []
  {
    var c := Config(false, false, 0, 1);
    var r := RequestOf(e);
    s := INIT;
    LeadsNowhere(c, INIT);
    s := Go(c, s, Arrive(1, e));
    s := Go(c, s, Reserve(1));
    assert s.handlers[1] == Handler(r, Locking({}, None));
    s := Go(c, s, Arrive(2, e));
    s := Go(c, s, Reserve(2));
    assert s.handlers[2] == Handler(r, Done(Duplicate));
    s := Go(c, s, EnqueueError(1));
    s := Go(c, s, ReleaseDelivery(1));
  }

  lemma Go(c: Config, s: State, l: Label) returns (t: State)
    requires Leads(c, INIT, s) && Enabled(c, s, l)
    ensures t == Step(c, s, l) && Leads(c, INIT, t)
  {
    LeadsOn(c, INIT, s, l);
    t := Step(c, s, l);
  }

  // Call h arrives and reserves its delivery id.
  lemma Admitted(c: Config, s: State, h: nat, e: Event, r: Request) returns (t: State)
    requires Leads(c, INIT, s) && h !in s.handlers && WellFormed(e) && r == RequestOf(e)
    requires r.job.delivery !in s.deliveries
    ensures Leads(c, INIT, t)
    ensures t == s.(
      handlers := s.handlers[h := Handler(r, AfterDelivery(c, r))],
      deliveries := s.deliveries[r.job.delivery := Pending])
  {
    t := Go(c, s, Arrive(h, e));
    t := Go(c, t, Reserve(h));
    assert t.handlers == s.handlers[h := Handler(r, AfterDelivery(c, r))];
  }

  // It takes the lock of its only root,
  lemma TakeRoot(c: Config, s: State, h: nat, r: Request, root: CleanPath) returns (t: State)
    requires Leads(c, INIT, s) && h in s.handlers && s.handlers[h] == Handler(r, Locking({root}, None))
    requires Free(s.locks, r.job.repo, root, r.job.mr)
    ensures Leads(c, INIT, t)
    ensures t == s.(
      handlers := s.handlers[h := Handler(r, Locking({}, None))],
      locks := Acquired(s.locks, r.job.repo, root, r.job.mr))
  {
    t := Go(c, s, Acquire(h, root));
    assert {root} - {root} == {};
  }

  // or its dedupe key,
  lemma TakeKey(c: Config, s: State, h: nat, r: Request) returns (t: State)
    requires c.Dedupes() && !c.useLocker && Leads(c, INIT, s) && h in s.handlers && s.handlers[h] == Handler(r, Deduping)
    requires Granted(s.expiry, r.key, c.ttl, s.now)
    ensures Leads(c, INIT, t)
    ensures t == s.(
      handlers := s.handlers[h := Handler(r, Locking({}, Some(s.now)))],
      expiry := AfterReserve(s.expiry, r.key, c.ttl, s.now))
  {
    t := Go(c, s, Dedupe(h));
  }

  // or releases the locks of its merge request,
  lemma ReleaseMR(c: Config, s: State, h: nat, r: Request) returns (t: State)
    requires Leads(c, INIT, s) && h in s.handlers && s.handlers[h] == Handler(r, Closing)
    ensures Leads(c, INIT, t)
    ensures t == s.(
      handlers := s.handlers[h := Handler(r, Committing(ClosedMR))],
      locks := ReleasedByMR(s.locks, r.job.repo, r.job.mr),
      log := s.log + [Closed(r.job.repo, r.job.mr)])
  {
    t := Go(c, s, ReleaseLocks(h));
  }

  // and queues its job.
  lemma QueueJob(c: Config, s: State, h: nat, r: Request, at: Option<nat>) returns (t: State)
    requires Leads(c, INIT, s) && h in s.handlers && s.handlers[h] == Handler(r, Locking({}, at)) && |s.queue| < c.capacity
    ensures Leads(c, INIT, t)
    ensures t == s.(
      handlers := s.handlers[h := Handler(r, Committing(Accepted))],
      queue := s.queue + [r.job],
      log := s.log + [Queued(r, at)])
  {
    t := Go(c, s, Enqueue(h));
  }

  /** A close that overtakes a call for its own merge request frees the roots of a
      job that is queued afterwards; another merge request can then queue a job for
      the same root with no close in between. */
  lemma CloseOvertakesCall(e: Event, close: Event, other: Event, root: CleanPath) returns (s: State)
    requires WellFormed(e) && WellFormed(close) && WellFormed(other)
    requires !IsCloseEvent(e.eventType) && IsCloseEvent(close.eventType) && !IsCloseEvent(other.eventType)
    requires e.delivery != close.delivery && e.delivery != other.delivery && close.delivery != other.delivery
    requires e.repo == close.repo == other.repo && e.mr == close.mr && e.mr != other.mr
    requires Roots(e.files) == {root} && Roots(other.files) == {root}
    ensures Leads(Config(true, false, 0, 2), INIT, s)
    ensures s.log == [Closed(e.repo, e.mr), Queued(RequestOf(e), None), Queued(RequestOf(other), None)]
    ensures !AdmissionLocks.Exclusive(s.log)
  {
    s := Overtaken(e, close, other, RequestOf(e), RequestOf(close), RequestOf(other), root);
    NotExclusive(s.log, RequestOf(e), RequestOf(other), root);
  }

  lemma Overtaken(e: Event, close: Event, other: Event, r: Request, k: Request, o: Request, root: CleanPath) returns (s: State)
    requires WellFormed(e) && WellFormed(close) && WellFormed(other)
    requires r == RequestOf(e) && k == RequestOf(close) && o == RequestOf(other)
    requires !r.closing && k.closing && !o.closing && r.roots == {root} && o.roots == {root}
    requires r.job.delivery != k.job.delivery && r.job.delivery != o.job.delivery && k.job.delivery != o.job.delivery
    requires r.job.repo == k.job.repo == o.job.repo && r.job.mr == k.job.mr && r.job.mr != o.job.mr
    ensures Leads(Config(true, false, 0, 2), INIT, s)
    ensures s.log == [Closed(r.job.repo, r.job.mr), Queued(r, None), Queued(o, None)]
  {
    var c := Config(true, false, 0, 2);
    s := QueuedAfterClose(e, close, r, k, root);
    s := Admitted(c, s, 3, other, o);
    s := TakeRoot(c, s, 3, o, root);
    s := QueueJob(c, s, 3, o, None);
  }

  lemma QueuedAfterClose(e: Event, close: Event, r: Request, k: Request, root: CleanPath) returns (s: State)
    requires WellFormed(e) && WellFormed(close) && r == RequestOf(e) && k == RequestOf(close)
    requires !r.closing && k.closing && r.roots == {root} && r.job.delivery != k.job.delivery
    requires r.job.repo == k.job.repo && r.job.mr == k.job.mr
    ensures Leads(Config(true, false, 0, 2), INIT, s)
    ensures s.log == [Closed(r.job.repo, r.job.mr), Queued(r, None)] && |s.queue| == 1
    ensures OwnerOf(s.locks, r.job.repo, root) == None
    ensures s.handlers.Keys == {1, 2} && s.deliveries.Keys == {r.job.delivery, k.job.delivery}
  {
    var c := Config(true, false, 0, 2);
    LeadsNowhere(c, INIT);
    s := Admitted(c, INIT, 1, e, r);
    s := TakeRoot(c, s, 1, r, root);
    s := Admitted(c, s, 2, close, k);
    s := ReleaseMR(c, s, 2, k);
    assert OwnerOf(s.locks, r.job.repo, root) == None;
    s := QueueJob(c, s, 1, r, None);
  }

  lemma NotExclusive(log: seq<Entry>, r: Request, o: Request, root: CleanPath)
    requires log == [Closed(r.job.repo, r.job.mr), Queued(r, None), Queued(o, None)]
    requires r.job.repo == o.job.repo && r.job.mr != o.job.mr && root in r.roots && root in o.roots
    ensures !AdmissionLocks.Exclusive(log)
  {
    assert AdmissionLocks.IsQueued(log, 1) && AdmissionLocks.IsQueued(log, 2);
    assert root in r.roots * o.roots;
    assert !AdmissionLocks.Separated(log, 1, 2);
  }

  /** A call that is slower than the TTL and then fails deletes the reservation a
      later event made, so a third event with the same key is queued at once. */
  lemma SlowCallDropsLaterKey(e1: Event, e2: Event, e3: Event) returns (s: State)
    requires WellFormed(e1) && WellFormed(e2) && WellFormed(e3)
    requires !IsCloseEvent(e1.eventType) && !IsCloseEvent(e2.eventType) && !IsCloseEvent(e3.eventType)
    requires e1.delivery != e2.delivery && e1.delivery != e3.delivery && e2.delivery != e3.delivery
    requires DedupeKey(e1) == DedupeKey(e2) == DedupeKey(e3)
    ensures Leads(Config(false, true, 1, 2), INIT, s)
    ensures s.log == [Queued(RequestOf(e2), Some(1)), Queued(RequestOf(e3), Some(1))]
  {
    s := Dropped(e1, e2, e3, RequestOf(e1), RequestOf(e2), RequestOf(e3));
  }

  lemma Dropped(e1: Event, e2: Event, e3: Event, r1: Request, r2: Request, r3: Request) returns (s: State)
    requires WellFormed(e1) && WellFormed(e2) && WellFormed(e3)
    requires r1 == RequestOf(e1) && r2 == RequestOf(e2) && r3 == RequestOf(e3)
    requires !r1.closing && !r2.closing && !r3.closing && r1.key == r2.key == r3.key
    requires r1.job.delivery != r2.job.delivery && r1.job.delivery != r3.job.delivery && r2.job.delivery != r3.job.delivery
    ensures Leads(Config(false, true, 1, 2), INIT, s)
    ensures s.log == [Queued(r2, Some(1)), Queued(r3, Some(1))]
  {
    var c := Config(false, true, 1, 2);
    s := QueuedAfterExpiry(e1, e2, r1, r2);
    s := Go(c, s, EnqueueError(1));
    s := Go(c, s, DropKey(1));
    s := Admitted(c, s, 3, e3, r3);
    s := TakeKey(c, s, 3, r3);
    s := QueueJob(c, s, 3, r3, Some(1));
  }

  lemma QueuedAfterExpiry(e1: Event, e2: Event, r1: Request, r2: Request) returns (s: State)
    requires WellFormed(e1) && WellFormed(e2) && r1 == RequestOf(e1) && r2 == RequestOf(e2)
    requires !r1.closing && !r2.closing && r1.key == r2.key && r1.job.delivery != r2.job.delivery
    ensures Leads(Config(false, true, 1, 2), INIT, s)
    ensures s.log == [Queued(r2, Some(1))] && |s.queue| == 1 && s.now == 1
    ensures s.handlers.Keys == {1, 2} && s.handlers[1] == Handler(r1, Locking({}, Some(0)))
    ensures s.deliveries.Keys == {r1.job.delivery, r2.job.delivery}
  {
    var c := Config(false, true, 1, 2);
    LeadsNowhere(c, INIT);
    s := Admitted(c, INIT, 1, e1, r1);
    s := TakeKey(c, s, 1, r1);
    s := Go(c, s, Tick(1));
    s := Admitted(c, s, 2, e2, r2);
    s := TakeKey(c, s, 2, r2);
    s := QueueJob(c, s, 2, r2, Some(1));
  }
}
