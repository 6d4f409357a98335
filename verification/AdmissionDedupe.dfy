/**
 The dedupe window: two jobs with one dedupe key were reserved at least the TTL
 apart. Releasing a key deletes whatever reservation is there, so the guarantee is
 kept exactly when no release finds the running reservation of another call or job.
 */
module AdmissionDedupe {
  import opened Options
  import opened DedupeStore
  import opened Queue
  import opened Admission

  /** A reservation that a call in flight or a queued job stands on. */
  datatype Claim = Claim(key: string, at: nat)
  datatype Claimant = InFlight(h: nat) | Logged(i: nat)

  function ClaimOf(s: State, x: Claimant): (r: Option<Claim>) {
    match x
    case InFlight(h) =>
      if h !in s.handlers then None
      else (match s.handlers[h].pc
            case Locking(_, Some(t)) => Some(Claim(s.handlers[h].req.key, t))
            case Dropping(t) => Some(Claim(s.handlers[h].req.key, t))
            case _ => None)
    case Logged(i) =>
      if i < |s.log| && s.log[i].Queued? && s.log[i].at.Some? then Some(Claim(s.log[i].req.key, s.log[i].at.value))
      else None
  }

  ghost predicate Claims(s: State, x: Claimant) {
    ClaimOf(s, x).Some?
  }

  /** The reservation of a claim, as the store should hold it. */
  ghost predicate Covers(c: Config, s: State, cl: Claim) {
    && cl.at <= s.now
    && (s.now < cl.at + c.ttl ==> cl.key in s.expiry && s.expiry[cl.key] == cl.at + c.ttl)
  }

  ghost predicate Apart(c: Config, a: Claim, b: Claim) {
    a.key == b.key ==> a.at + c.ttl <= b.at || b.at + c.ttl <= a.at
  }

  ghost predicate WindowSafe(c: Config, s: State) {
    && (forall x :: Claims(s, x) ==> Covers(c, s, ClaimOf(s, x).value))
    && (forall x, y :: Claims(s, x) && Claims(s, y) && x != y ==> Apart(c, ClaimOf(s, x).value, ClaimOf(s, y).value))
  }

  /** x is another claimant of the key that call h releases, within its window. */
  ghost predicate Robbed(c: Config, s: State, h: nat, x: Claimant)
    requires h in s.handlers
  {
    && x != InFlight(h) && Claims(s, x)
    && ClaimOf(s, x).value.key == s.handlers[h].req.key
    && s.now < ClaimOf(s, x).value.at + c.ttl
  }

  /** A dedupe release deletes no running reservation but the call's own. */
  ghost predicate OwnRelease(c: Config, s: State, l: Label) {
    l.DropKey? && Enabled(c, s, l) ==> forall x :: !Robbed(c, s, l.h, x)
  }

  // Steps that leave the store and the clock alone and move at most one claim.
  lemma Relabel(c: Config, s: State, s': State, from: Claimant, to: Claimant)
    requires WindowSafe(c, s) && s'.expiry == s.expiry && s'.now == s.now
    requires forall y :: y != to && Claims(s', y) ==> ClaimOf(s', y) == ClaimOf(s, y)
    requires Claims(s', to) ==> ClaimOf(s', to) == ClaimOf(s, from)
    requires from != to ==> !Claims(s', from)
    ensures WindowSafe(c, s')
  {
    var origin := x => if x == to then from else x;
    assert forall x :: Claims(s', x) ==> ClaimOf(s', x) == ClaimOf(s, origin(x));
    forall x, y | Claims(s', x) && Claims(s', y) && x != y
      ensures Apart(c, ClaimOf(s', x).value, ClaimOf(s', y).value)
    {
      assert origin(x) != origin(y);
    }
  }

  // A step of call h that neither reserves nor logs.
  lemma MovedKeeps(c: Config, s: State, s': State, h: nat)
    requires WindowSafe(c, s) && s'.expiry == s.expiry && s'.now == s.now && s'.log == s.log
    requires h in s'.handlers && s'.handlers == s.handlers[h := s'.handlers[h]]
    requires Claims(s', InFlight(h)) ==> ClaimOf(s', InFlight(h)) == ClaimOf(s, InFlight(h))
    ensures WindowSafe(c, s')
  {
    forall y | y != InFlight(h) && Claims(s', y) ensures ClaimOf(s', y) == ClaimOf(s, y) {
    }
    Relabel(c, s, s', InFlight(h), InFlight(h));
  }

  lemma EnqueueKeepsWindow(c: Config, s: State, h: nat)
    requires WindowSafe(c, s) && h in s.handlers && s.handlers[h].pc.Locking?
    ensures WindowSafe(c, DoEnqueue(s, h))
  {
    var s' := DoEnqueue(s, h);
    var n := |s.log|;
    forall y | y != Logged(n) && Claims(s', y) ensures ClaimOf(s', y) == ClaimOf(s, y) {
    }
    Relabel(c, s, s', InFlight(h), Logged(n));
  }

  lemma ReleaseLocksKeepsWindow(c: Config, s: State, h: nat)
    requires WindowSafe(c, s) && h in s.handlers && s.handlers[h].pc.Closing?
    ensures WindowSafe(c, DoReleaseLocks(s, h))
  {
    var s' := DoReleaseLocks(s, h);
    forall y | Claims(s', y) ensures ClaimOf(s', y) == ClaimOf(s, y) {
    }
    Relabel(c, s, s', InFlight(h), InFlight(h));
  }

  lemma DedupeKeepsWindow(c: Config, s: State, h: nat)
    requires c.Dedupes() && WindowSafe(c, s) && h in s.handlers && s.handlers[h].pc.Deduping?
    ensures WindowSafe(c, DoDedupe(c, s, h))
  {
    var s' := DoDedupe(c, s, h);
    var key := s.handlers[h].req.key;
    var granted := Granted(s.expiry, key, c.ttl, s.now);
    forall y | y != InFlight(h) && Claims(s', y) ensures ClaimOf(s', y) == ClaimOf(s, y) {
    }
    forall y | Claims(s, y) && s.now < ClaimOf(s, y).value.at + c.ttl
      ensures ClaimOf(s, y).value.key != key || !granted
      ensures Covers(c, s', ClaimOf(s, y).value)
    {
      assert Covers(c, s, ClaimOf(s, y).value);
    }
    assert !Claims(s, InFlight(h));
    forall y | Claims(s', y) && y != InFlight(h) && Claims(s', InFlight(h))
      ensures Apart(c, ClaimOf(s', y).value, ClaimOf(s', InFlight(h)).value)
    {
      assert Claims(s, y) && granted;
    }
  }

  lemma DropKeepsWindow(c: Config, s: State, h: nat)
    requires c.Dedupes() && WindowSafe(c, s) && h in s.handlers && s.handlers[h].pc.Dropping?
    requires OwnRelease(c, s, DropKey(h))
    ensures WindowSafe(c, DoDropKey(s, h))
  {
    var s' := DoDropKey(s, h);
    var mine := Claim(s.handlers[h].req.key, s.handlers[h].pc.since);
    assert ClaimOf(s, InFlight(h)) == Some(mine);
    forall y | Claims(s', y) ensures y != InFlight(h) && ClaimOf(s', y) == ClaimOf(s, y) {
    }
    forall y | Claims(s', y) ensures Covers(c, s', ClaimOf(s', y).value) {
      assert Covers(c, s, ClaimOf(s, y).value) && !Robbed(c, s, h, y);
    }
  }

  /** Any other release leaves a claim without its reservation. */
  lemma RobberyBreaks(c: Config, s: State, h: nat, x: Claimant)
    requires c.Dedupes() && WindowSafe(c, s) && h in s.handlers && s.handlers[h].pc.Dropping? && Robbed(c, s, h, x)
    ensures !WindowSafe(c, DoDropKey(s, h))
  {
    var s' := DoDropKey(s, h);
    assert ClaimOf(s', x) == ClaimOf(s, x);
    assert Claims(s', x) && !Covers(c, s', ClaimOf(s', x).value);
  }

  /** Exactly the steps that rob no one keep the window. */
  lemma StepKeepsWindowIff(c: Config, s: State, l: Label)
    requires c.Dedupes() && WindowSafe(c, s) && Enabled(c, s, l)
    ensures WindowSafe(c, Step(c, s, l)) <==> OwnRelease(c, s, l)
  {
    if OwnRelease(c, s, l) {
      StepKeepsWindow(c, s, l);
    } else {
      var x :| Robbed(c, s, l.h, x);
      RobberyBreaks(c, s, l.h, x);
    }
  }

  /** Every step that robs no other claimant keeps the window. */
  lemma StepKeepsWindow(c: Config, s: State, l: Label)
    requires c.Dedupes() && WindowSafe(c, s) && Enabled(c, s, l) && OwnRelease(c, s, l)
    ensures WindowSafe(c, Step(c, s, l))
  {
    match l
    case Arrive(h, e) => ArrivedKeepsWindow(c, s, h, RequestOf(e), WellFormed(e));
    case Reserve(h) => MovedKeeps(c, s, Step(c, s, l), h);
    case DedupeError(h) => MovedKeeps(c, s, Step(c, s, l), h);
    case Acquire(h, _) => MovedKeeps(c, s, Step(c, s, l), h);
    case EnqueueError(h) => MovedKeeps(c, s, Step(c, s, l), h);
    case ReleaseDelivery(h) => MovedKeeps(c, s, Step(c, s, l), h);
    case Commit(h) => MovedKeeps(c, s, Step(c, s, l), h);
    case Dedupe(h) => DedupeKeepsWindow(c, s, h);
    case ReleaseLocks(h) => ReleaseLocksKeepsWindow(c, s, h);
    case Enqueue(h) => EnqueueKeepsWindow(c, s, h);
    case HandOver(h) =>
      EnqueueKeepsWindow(c, s, h);
      assert forall x :: ClaimOf(Step(c, s, l), x) == ClaimOf(DoEnqueue(s, h), x);
    case DropKey(h) => DropKeepsWindow(c, s, h);
    case Dequeue =>
      assert forall x :: ClaimOf(Step(c, s, l), x) == ClaimOf(s, x);
    case Tick(time) =>
      assert forall x :: ClaimOf(Step(c, s, l), x) == ClaimOf(s, x);
  }

  lemma ArrivedKeepsWindow(c: Config, s: State, h: nat, r: Request, valid: bool)
    requires WindowSafe(c, s) && h !in s.handlers
    ensures WindowSafe(c, Arrived(s, h, r, valid))
  {
    MovedKeeps(c, s, Arrived(s, h, r, valid), h);
  }

  /** No dedupe release of the run deleted the running reservation of another claimant. */
  ghost predicate OwnReleases(c: Config, ls: seq<Label>)
    requires Run(c, INIT, ls).Some?
    decreases |ls|
  {
    ls != [] ==>
      && OwnRelease(c, Run(c, INIT, ls[..|ls| - 1]).value, ls[|ls| - 1])
      && OwnReleases(c, ls[..|ls| - 1])
  }

  lemma {:induction false} RunKeepsWindow(c: Config, ls: seq<Label>)
    requires c.Dedupes() && Run(c, INIT, ls).Some? && OwnReleases(c, ls)
    ensures WindowSafe(c, Run(c, INIT, ls).value)
    decreases |ls|
  {
    if ls == [] {
      assert forall x :: !Claims(INIT, x);
    } else {
      RunKeepsWindow(c, ls[..|ls| - 1]);
      StepKeepsWindow(c, Run(c, INIT, ls[..|ls| - 1]).value, ls[|ls| - 1]);
    }
  }

  ghost predicate SafeThroughout(c: Config, ls: seq<Label>)
    requires Run(c, INIT, ls).Some?
    decreases |ls|
  {
    WindowSafe(c, Run(c, INIT, ls).value) && (ls != [] ==> SafeThroughout(c, ls[..|ls| - 1]))
  }

  lemma SafeAtEnd(c: Config, ls: seq<Label>)
    requires Run(c, INIT, ls).Some? && SafeThroughout(c, ls)
    ensures WindowSafe(c, Run(c, INIT, ls).value)
  {
  }

  /** The window is kept at every moment of a run exactly when no release robs anyone. */
  lemma {:induction false} OwnIffSafeThroughout(c: Config, ls: seq<Label>)
    requires c.Dedupes() && Run(c, INIT, ls).Some?
    ensures OwnReleases(c, ls) <==> SafeThroughout(c, ls)
    decreases |ls|
  {
    if ls == [] {
      assert forall x :: !Claims(INIT, x);
    } else {
      var init, l := ls[..|ls| - 1], ls[|ls| - 1];
      OwnIffSafeThroughout(c, init);
      if SafeThroughout(c, init) {
        SafeAtEnd(c, init);
        StepKeepsWindowIff(c, Run(c, INIT, init).value, l);
      }
    }
  }

  /** With the dedupe store in use, every job carries the time of its reservation. */
  ghost predicate Stamped(s: State) {
    && (forall h :: h in s.handlers && s.handlers[h].pc.Locking? ==> s.handlers[h].pc.at.Some?)
    && (forall i :: 0 <= i < |s.log| && s.log[i].Queued? ==> s.log[i].at.Some?)
  }

  lemma {:induction false} RunStamps(c: Config, ls: seq<Label>)
    requires c.Dedupes() && Run(c, INIT, ls).Some?
    ensures Stamped(Run(c, INIT, ls).value)
    decreases |ls|
  {
    if ls != [] {
      RunStamps(c, ls[..|ls| - 1]);
      StepStamps(c, Run(c, INIT, ls[..|ls| - 1]).value, ls[|ls| - 1]);
    }
  }

  lemma StepStamps(c: Config, s: State, l: Label)
    requires c.Dedupes() && Stamped(s) && Enabled(c, s, l)
    ensures Stamped(Step(c, s, l))
  {
  }

  /** Any two queued jobs with one dedupe key were reserved at least the TTL apart. */
  lemma JobsOfOneKeyApart(c: Config, ls: seq<Label>, i: nat, j: nat)
    requires c.Dedupes() && Run(c, INIT, ls).Some? && OwnReleases(c, ls)
    requires var log := Run(c, INIT, ls).value.log;
      i < j < |log| && log[i].Queued? && log[j].Queued? && log[i].req.key == log[j].req.key
    ensures var log := Run(c, INIT, ls).value.log;
      && log[i].at.Some? && log[j].at.Some?
      && (log[i].at.value + c.ttl <= log[j].at.value || log[j].at.value + c.ttl <= log[i].at.value)
  {
    RunKeepsWindow(c, ls);
    RunStamps(c, ls);
    var s := Run(c, INIT, ls).value;
    assert Claims(s, Logged(i)) && Claims(s, Logged(j)) && Logged(i) != Logged(j);
  }

  /** A release that comes before its own reservation has run out robs no one, and
      neither does one that finds its own reservation or none. */
  lemma TimelyReleaseIsOwn(c: Config, s: State, h: nat)
    requires c.Dedupes() && WindowSafe(c, s) && Enabled(c, s, DropKey(h))
    requires
      || s.now < s.handlers[h].pc.since + c.ttl
      || s.handlers[h].req.key !in s.expiry
      || s.expiry[s.handlers[h].req.key] == s.handlers[h].pc.since + c.ttl
    ensures OwnRelease(c, s, DropKey(h))
  {
    var mine := Claim(s.handlers[h].req.key, s.handlers[h].pc.since);
    assert ClaimOf(s, InFlight(h)) == Some(mine) && Claims(s, InFlight(h));
    forall x ensures !Robbed(c, s, h, x) {
      if x != InFlight(h) && Claims(s, x) {
        assert Covers(c, s, ClaimOf(s, x).value) && Covers(c, s, mine) && Apart(c, ClaimOf(s, x).value, mine);
      }
    }
  }
}
