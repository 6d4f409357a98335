/**
 Event admission as a step system. Any number of `HandleMergeRequestEvent` calls
 are in flight; each step is one store operation, atomic under its mutex, and the
 steps of different calls interleave freely with each other, with the consumer of
 the queue and with the clock.
 */
module Admission {
  import opened Options
  import opened Text
  import opened Discovery
  import opened DeliveryStore
  import opened DedupeStore
  import opened Locker
  import opened Queue

  datatype Event = Event(
    delivery: string,
    eventType: string,
    repo: string,
    mr: int,
    sha: string,
    baseRef: string,
    files: seq<string>)

  predicate WellFormed(e: Event) {
    e.delivery != "" && e.eventType != "" && e.repo != "" && e.sha != "" && e.mr > 0
  }

  predicate IsCloseEvent(eventType: string) {
    Contains(ToLower(eventType), "closed") || Contains(ToLower(eventType), "merged")
  }

  function DedupeKey(e: Event): (k: string) {
    e.repo + ":" + Decimal(e.mr) + ":" + e.sha + ":" + e.eventType
  }

  function JobOf(e: Event): (j: Job) {
    Job(e.delivery, e.eventType, e.repo, e.mr, e.sha, e.baseRef, e.files)
  }

  /** What a call derives from its event before it touches a store. */
  datatype Request = Request(job: Job, key: string, roots: set<CleanPath>, closing: bool)

  function RequestOf(e: Event): (r: Request) {
    Request(JobOf(e), DedupeKey(e), Roots(e.files), IsCloseEvent(e.eventType))
  }

  /** Which stores are configured; the dedupe store is in use only with ttl > 0. */
  datatype Config = Config(useLocker: bool, useDedupe: bool, ttl: int, capacity: nat)
  {
    predicate Dedupes() { useDedupe && ttl > 0 }
  }

  /** How a call ended. Invalid and Failed return an error, the others nil. */
  datatype Outcome = Invalid | Duplicate | ClosedMR | Deduped | Accepted | Failed
  {
    predicate IsError() { Invalid? || Failed? }
  }

  /** Where a call is: the store operation it does next. */
  datatype Pc =
    | Start                                             // reserve the delivery id
    | Closing                                           // release the locks of the MR
    | Deduping                                          // reserve the dedupe key
    | Locking(todo: set<CleanPath>, at: Option<nat>)    // acquire a root, or enqueue
    | Dropping(since: nat)                              // release the dedupe key
    | Releasing                                         // release the delivery id
    | Committing(outcome: Outcome)                      // commit the delivery id
    | Done(outcome: Outcome)
  {
    /** The call has reserved its delivery id and not settled it. */
    predicate Holding() { !Start? && !Done? }
  }

  datatype Handler = Handler(req: Request, pc: Pc)

  /** The history: jobs accepted (with the time their key was reserved) and MRs
      whose locks were released by a close or merge. */
  datatype Entry = Queued(req: Request, at: Option<nat>) | Closed(repo: string, mr: int)

  datatype State = State(
    deliveries: Deliveries,
    expiry: Expiries,
    locks: Locks,
    queue: seq<Job>,
    consumed: seq<Job>,
    log: seq<Entry>,
    handlers: map<nat, Handler>,
    now: nat)

  const INIT := State(map[], map[], map[], [], [], [], map[], 0)

  datatype Label =
    | Arrive(h: nat, event: Event)
    | Reserve(h: nat)
    | ReleaseLocks(h: nat)
    | Dedupe(h: nat)
    | DedupeError(h: nat)
    | Acquire(h: nat, root: CleanPath)
    | Enqueue(h: nat)
    | HandOver(h: nat)                                  // enqueue into a full queue, at a receiver
    | EnqueueError(h: nat)
    | DropKey(h: nat)
    | ReleaseDelivery(h: nat)
    | Commit(h: nat)
    | Dequeue
    | Tick(time: nat)

  // ----- Steps -----

  function Move(s: State, h: nat, pc: Pc): (s': State)
    requires h in s.handlers
  {
    s.(handlers := s.handlers[h := s.handlers[h].(pc := pc)])
  }

  function FirstLocking(c: Config, r: Request, at: Option<nat>): (pc: Pc) {
    Locking(if c.useLocker then r.roots else {}, at)
  }

  function AfterDelivery(c: Config, r: Request): (pc: Pc) {
    if r.closing then (if c.useLocker then Closing else Committing(ClosedMR))
    else if c.Dedupes() then Deduping
    else FirstLocking(c, r, None)
  }

  /** Giving up: the dedupe key goes first, if this call reserved one. */
  function GiveUp(at: Option<nat>): (pc: Pc) {
    if at.Some? then Dropping(at.value) else Releasing
  }

  function Arrived(s: State, h: nat, r: Request, valid: bool): (s': State) {
    s.(handlers := s.handlers[h := Handler(r, if valid then Start else Done(Invalid))])
  }

  function DoReserve(c: Config, s: State, h: nat): (s': State)
    requires h in s.handlers
  {
    var r := s.handlers[h].req;
    var id := r.job.delivery;
    if id in s.deliveries then Move(s, h, Done(Duplicate))
    else Move(s, h, AfterDelivery(c, r)).(deliveries := Reserved(s.deliveries, id))
  }

  function DoReleaseLocks(s: State, h: nat): (s': State)
    requires h in s.handlers
  {
    var j := s.handlers[h].req.job;
    Move(s, h, Committing(ClosedMR)).(
      locks := ReleasedByMR(s.locks, j.repo, j.mr),
      log := s.log + [Closed(j.repo, j.mr)])
  }

  function DoDedupe(c: Config, s: State, h: nat): (s': State)
    requires h in s.handlers
  {
    var r := s.handlers[h].req;
    var pc := if Granted(s.expiry, r.key, c.ttl, s.now) then FirstLocking(c, r, Some(s.now)) else Committing(Deduped);
    Move(s, h, pc).(expiry := AfterReserve(s.expiry, r.key, c.ttl, s.now))
  }

  function DoAcquire(s: State, h: nat, root: CleanPath): (s': State)
    requires h in s.handlers && s.handlers[h].pc.Locking?
  {
    var j, pc := s.handlers[h].req.job, s.handlers[h].pc;
    var next := if Free(s.locks, j.repo, root, j.mr) then Locking(pc.todo - {root}, pc.at) else GiveUp(pc.at);
    Move(s, h, next).(locks := Acquired(s.locks, j.repo, root, j.mr))
  }

  function DoEnqueue(s: State, h: nat): (s': State)
    requires h in s.handlers && s.handlers[h].pc.Locking?
  {
    var r := s.handlers[h].req;
    Move(s, h, Committing(Accepted)).(
      queue := s.queue + [r.job],
      log := s.log + [Queued(r, s.handlers[h].pc.at)])
  }

  function DoDequeue(s: State): (s': State)
    requires s.queue != []
  {
    s.(queue := s.queue[1..], consumed := s.consumed + [s.queue[0]])
  }

  function DoDropKey(s: State, h: nat): (s': State)
    requires h in s.handlers
  {
    Move(s, h, Releasing).(expiry := s.expiry - {s.handlers[h].req.key})
  }

  function DoReleaseDelivery(s: State, h: nat): (s': State)
    requires h in s.handlers
  {
    Move(s, h, Done(Failed)).(deliveries := ReleasedAt(s.deliveries, s.handlers[h].req.job.delivery))
  }

  function DoCommit(s: State, h: nat): (s': State)
    requires h in s.handlers && s.handlers[h].pc.Committing?
  {
    Move(s, h, Done(s.handlers[h].pc.outcome)).(
      deliveries := CommittedAt(s.deliveries, s.handlers[h].req.job.delivery))
  }


  predicate Enabled(c: Config, s: State, l: Label) {
    match l
    case Arrive(h, _) => h !in s.handlers
    case Reserve(h) => h in s.handlers && s.handlers[h].pc.Start?
    case ReleaseLocks(h) => h in s.handlers && s.handlers[h].pc.Closing?
    case Dedupe(h) => h in s.handlers && s.handlers[h].pc.Deduping?
    case DedupeError(h) => h in s.handlers && s.handlers[h].pc.Deduping?
    case Acquire(h, root) => h in s.handlers && s.handlers[h].pc.Locking? && root in s.handlers[h].pc.todo
    case Enqueue(h) =>
      h in s.handlers && s.handlers[h].pc.Locking? && s.handlers[h].pc.todo == {} && |s.queue| < c.capacity
    case HandOver(h) =>
      h in s.handlers && s.handlers[h].pc.Locking? && s.handlers[h].pc.todo == {} && |s.queue| == c.capacity
    case EnqueueError(h) => h in s.handlers && s.handlers[h].pc.Locking? && s.handlers[h].pc.todo == {}
    case DropKey(h) => h in s.handlers && s.handlers[h].pc.Dropping?
    case ReleaseDelivery(h) => h in s.handlers && s.handlers[h].pc.Releasing?
    case Commit(h) => h in s.handlers && s.handlers[h].pc.Committing?
    case Dequeue => s.queue != []
    case Tick(time) => s.now <= time
  }

  function Step(c: Config, s: State, l: Label): (s': State)
    requires Enabled(c, s, l)
  {
    match l
    case Arrive(h, e) => Arrived(s, h, RequestOf(e), WellFormed(e))
    case Reserve(h) => DoReserve(c, s, h)
    case ReleaseLocks(h) => DoReleaseLocks(s, h)
    case Dedupe(h) => DoDedupe(c, s, h)
    case DedupeError(h) => Move(s, h, Releasing)
    case Acquire(h, root) => DoAcquire(s, h, root)
    case Enqueue(h) => DoEnqueue(s, h)
    case HandOver(h) => DoDequeue(DoEnqueue(s, h))
    case EnqueueError(h) => Move(s, h, GiveUp(s.handlers[h].pc.at))
    case DropKey(h) => DoDropKey(s, h)
    case ReleaseDelivery(h) => DoReleaseDelivery(s, h)
    case Commit(h) => DoCommit(s, h)
    case Dequeue => DoDequeue(s)
    case Tick(time) => s.(now := time)
  }

  /** The state after a run of steps; None if some step is not enabled. */
  function Run(c: Config, s: State, ls: seq<Label>): (r: Option<State>)
    decreases |ls|
  {
    if ls == [] then Some(s)
    else
      match Run(c, s, ls[..|ls| - 1])
      case None => None
      case Some(t) => if Enabled(c, t, ls[|ls| - 1]) then Some(Step(c, t, ls[|ls| - 1])) else None
  }

  /** Some run of the step system leads from s0 to s. */
  ghost predicate Leads(c: Config, s0: State, s: State) {
    exists ls :: Run(c, s0, ls) == Some(s)
  }

  lemma LeadsNowhere(c: Config, s: State)
    ensures Leads(c, s, s)
  {
    assert Run(c, s, []) == Some(s);
  }

  lemma LeadsOn(c: Config, s0: State, s: State, l: Label)
    requires Leads(c, s0, s) && Enabled(c, s, l)
    ensures Leads(c, s0, Step(c, s, l))
  {
    var ls :| Run(c, s0, ls) == Some(s);
    assert (ls + [l])[..|ls|] == ls;
    assert Run(c, s0, ls + [l]) == Some(Step(c, s, l));
  }
}
