/**
 Which events share a dedupe key, where a reservation comes from, and which event a
 queued job belongs to. These hold in every interleaving.
 */
module AdmissionKeys {
  import opened Options
  import opened Text
  import opened Discovery
  import opened DedupeStore
  import opened Queue
  import opened Admission
  import opened AdmissionDedupe
  import AdmissionSerial
  import Service

  // ----- Keys -----

  predicate ColonFree(j: Job) {
    ':' !in j.repo && ':' !in j.sha
  }

  /** Repository, merge request, commit and event type all agree. */
  predicate SameFour(j: Job, k: Job) {
    j.repo == k.repo && j.mr == k.mr && j.sha == k.sha && j.eventType == k.eventType
  }

  /** Two events have one key exactly when the four values agree, provided that neither
      repository nor commit holds a colon. */
  lemma SameKeyIff(e: Event, f: Event)
    requires ColonFree(JobOf(e)) && ColonFree(JobOf(f))
    ensures DedupeKey(e) == DedupeKey(f) <==> e.repo == f.repo && e.mr == f.mr && e.sha == f.sha && e.eventType == f.eventType
  {
    if DedupeKey(e) == DedupeKey(f) {
      var e3, f3 := e.sha + [':'] + e.eventType, f.sha + [':'] + f.eventType;
      var e2, f2 := Decimal(e.mr) + [':'] + e3, Decimal(f.mr) + [':'] + f3;
      assert DedupeKey(e) == e.repo + [':'] + e2 && DedupeKey(f) == f.repo + [':'] + f2;
      FieldEnds(e.repo, e2, f.repo, f2, ':');
      DecimalMeans(e.mr);
      DecimalMeans(f.mr);
      FieldEnds(Decimal(e.mr), e3, Decimal(f.mr), f3, ':');
      FieldEnds(e.sha, e.eventType, f.sha, f.eventType, ':');
    }
  }

  /** With a colon in a repository, different events can have one key. */
  lemma ColonsCollide(e: Event, f: Event)
    requires e.repo == "a:1" && e.mr == 2 && e.sha == "s" && e.eventType == "t"
    requires f.repo == "a" && f.mr == 1 && f.sha == "2" && f.eventType == "s:t"
    ensures DedupeKey(e) == DedupeKey(f)
  {
    assert Decimal(2) == "2" && Decimal(1) == "1";
    assert DedupeKey(e) == "a:1" + ":" + "2" + ":" + "s" + ":" + "t" == "a:1:2:s:t";
    assert DedupeKey(f) == "a" + ":" + "1" + ":" + "2" + ":" + "s:t" == "a:1:2:s:t";
  }

  // ----- Where a reservation comes from -----

  /** A call in flight or a queued job made the reservation that the store holds. */
  ghost predicate Claimed(c: Config, s: State, k: string)
    requires k in s.expiry
  {
    exists x :: ClaimOf(s, x).Some? && ClaimOf(s, x).value.key == k && ClaimOf(s, x).value.at <= s.now
      && s.expiry[k] == ClaimOf(s, x).value.at + c.ttl
  }

  ghost predicate AllClaimed(c: Config, s: State) {
    forall k :: k in s.expiry ==> Claimed(c, s, k)
  }

  // Reservations that stay have claimants that stay, perhaps under another name.
  lemma ClaimsStay(c: Config, s: State, s': State, from: Claimant, to: Claimant)
    requires AllClaimed(c, s) && s.now <= s'.now
    requires forall k :: k in s'.expiry ==> k in s.expiry && s'.expiry[k] == s.expiry[k]
    requires forall x :: x != from && Claims(s, x) ==> ClaimOf(s', x) == ClaimOf(s, x)
    requires Claims(s, from) && ClaimOf(s, from).value.key in s'.expiry ==> ClaimOf(s', to) == ClaimOf(s, from)
    ensures AllClaimed(c, s')
  {
    forall k | k in s'.expiry ensures Claimed(c, s', k) {
      assert Claimed(c, s, k);
      var x :| ClaimOf(s, x).Some? && ClaimOf(s, x).value.key == k && ClaimOf(s, x).value.at <= s.now
        && s.expiry[k] == ClaimOf(s, x).value.at + c.ttl;
      assert Claims(s, x);
      var y := if x == from then to else x;
      assert ClaimOf(s', y) == ClaimOf(s, x);
    }
  }

  // A step of call h that leaves the store and the history alone.
  lemma MovedClaimed(c: Config, s: State, s': State, h: nat)
    requires AllClaimed(c, s) && s'.expiry == s.expiry && s'.now == s.now && s.log <= s'.log
    requires h in s'.handlers && s'.handlers == s.handlers[h := s'.handlers[h]]
    requires Claims(s, InFlight(h)) ==> ClaimOf(s', InFlight(h)) == ClaimOf(s, InFlight(h))
    ensures AllClaimed(c, s')
  {
    forall x | x != InFlight(h) && Claims(s, x) ensures ClaimOf(s', x) == ClaimOf(s, x) {
    }
    ClaimsStay(c, s, s', InFlight(h), InFlight(h));
  }

  lemma EnqueueClaimed(c: Config, s: State, h: nat)
    requires AllClaimed(c, s) && h in s.handlers && s.handlers[h].pc.Locking?
    ensures AllClaimed(c, DoEnqueue(s, h))
  {
    var s' := DoEnqueue(s, h);
    forall x | x != InFlight(h) && Claims(s, x) ensures ClaimOf(s', x) == ClaimOf(s, x) {
    }
    assert s'.log[|s.log|] == Queued(s.handlers[h].req, s.handlers[h].pc.at);
    ClaimsStay(c, s, s', InFlight(h), Logged(|s.log|));
  }

  lemma DropClaimed(c: Config, s: State, h: nat)
    requires AllClaimed(c, s) && h in s.handlers && s.handlers[h].pc.Dropping?
    ensures AllClaimed(c, DoDropKey(s, h))
  {
    var s' := DoDropKey(s, h);
    forall x | x != InFlight(h) && Claims(s, x) ensures ClaimOf(s', x) == ClaimOf(s, x) {
    }
    ClaimsStay(c, s, s', InFlight(h), InFlight(h));
  }

  lemma DedupeClaimed(c: Config, s: State, h: nat)
    requires c.Dedupes() && AllClaimed(c, s) && h in s.handlers && s.handlers[h].pc.Deduping?
    ensures AllClaimed(c, DoDedupe(c, s, h))
  {
    var s' := DoDedupe(c, s, h);
    var key := s.handlers[h].req.key;
    var swept := s'.(expiry := Swept(s.expiry, s.now));
    forall x | x != InFlight(h) && Claims(s, x) ensures ClaimOf(swept, x) == ClaimOf(s, x) {
    }
    ClaimsStay(c, s, swept, InFlight(h), InFlight(h));
    forall k | k in s'.expiry ensures Claimed(c, s', k) {
      if Granted(s.expiry, key, c.ttl, s.now) && k == key {
        assert ClaimOf(s', InFlight(h)) == Some(Claim(key, s.now));
      } else {
        SameClaims(c, swept, s', k);
      }
    }
  }

  lemma SameClaims(c: Config, s: State, s': State, k: string)
    requires k in s.expiry && Claimed(c, s, k) && k in s'.expiry && s'.expiry[k] == s.expiry[k]
    requires s'.handlers == s.handlers && s'.log == s.log && s'.now == s.now
    ensures Claimed(c, s', k)
  {
    var x :| ClaimOf(s, x).Some? && ClaimOf(s, x).value.key == k && ClaimOf(s, x).value.at <= s.now
      && s.expiry[k] == ClaimOf(s, x).value.at + c.ttl;
    assert ClaimOf(s', x) == ClaimOf(s, x);
  }

  lemma StepClaimed(c: Config, s: State, l: Label)
    requires c.Dedupes() && AllClaimed(c, s) && Enabled(c, s, l)
    ensures AllClaimed(c, Step(c, s, l))
  {
    match l
    case Arrive(h, e) => ArrivedClaimed(c, s, h, RequestOf(e), WellFormed(e));
    case Reserve(h) => MovedClaimed(c, s, DoReserve(c, s, h), h);
    case ReleaseLocks(h) => MovedClaimed(c, s, DoReleaseLocks(s, h), h);
    case Dedupe(h) => DedupeClaimed(c, s, h);
    case DedupeError(h) => MovedClaimed(c, s, Move(s, h, Releasing), h);
    case Acquire(h, root) => MovedClaimed(c, s, DoAcquire(s, h, root), h);
    case Enqueue(h) => EnqueueClaimed(c, s, h);
    case HandOver(h) =>
      EnqueueClaimed(c, s, h);
      SameForAll(c, DoEnqueue(s, h), Step(c, s, l));
    case EnqueueError(h) => MovedClaimed(c, s, Move(s, h, GiveUp(s.handlers[h].pc.at)), h);
    case DropKey(h) => DropClaimed(c, s, h);
    case ReleaseDelivery(h) => MovedClaimed(c, s, DoReleaseDelivery(s, h), h);
    case Commit(h) => MovedClaimed(c, s, DoCommit(s, h), h);
    case Dequeue => SameForAll(c, s, Step(c, s, l));
    case Tick(_) => SameForAll(c, s, Step(c, s, l));
  }

  lemma SameForAll(c: Config, s: State, s': State)
    requires AllClaimed(c, s) && s'.handlers == s.handlers && s'.log == s.log && s'.expiry == s.expiry && s.now <= s'.now
    ensures AllClaimed(c, s')
  {
    assert forall x :: ClaimOf(s', x) == ClaimOf(s, x);
    ClaimsStay(c, s, s', InFlight(0), InFlight(0));
  }

  lemma ArrivedClaimed(c: Config, s: State, h: nat, r: Request, valid: bool)
    requires AllClaimed(c, s) && h !in s.handlers
    ensures AllClaimed(c, Arrived(s, h, r, valid))
  {
    MovedClaimed(c, s, Arrived(s, h, r, valid), h);
  }

  lemma {:induction false} RunClaimed(c: Config, ls: seq<Label>)
    requires c.Dedupes() && Run(c, INIT, ls).Some?
    ensures AllClaimed(c, Run(c, INIT, ls).value)
    decreases |ls|
  {
    if ls != [] {
      RunClaimed(c, ls[..|ls| - 1]);
      StepClaimed(c, Run(c, INIT, ls[..|ls| - 1]).value, ls[|ls| - 1]);
    }
  }

  /** The job of a claimant. */
  function JobAt(s: State, x: Claimant): (j: Job)
    requires ClaimOf(s, x).Some?
  {
    match x
    case InFlight(h) => s.handlers[h].req.job
    case Logged(i) => s.log[i].req.job
  }

  lemma KeyOfClaimant(c: Config, ls: seq<Label>, x: Claimant)
    requires Run(c, INIT, ls).Some? && ClaimOf(Run(c, INIT, ls).value, x).Some?
    ensures var s := Run(c, INIT, ls).value;
      var j := JobAt(s, x);
      ClaimOf(s, x).value.key == DedupeKey(Event(j.delivery, j.eventType, j.repo, j.mr, j.sha, j.baseRef, j.files))
  {
    AdmissionSerial.RunGenuine(c, ls);
    var s := Run(c, INIT, ls).value;
    match x
    case InFlight(h) => assert AdmissionSerial.Genuine(s.handlers[h].req);
    case Logged(i) => assert AdmissionSerial.Genuine(s.log[i].req);
  }

  /** An event is answered as a repetition only when, less than the TTL before, an event
      with the same repository, merge request, commit and event type made a reservation,
      and that call is still at work or its job was queued. */
  lemma DedupedOnlyIfRepeated(c: Config, ls: seq<Label>, e: Event, f: Service.Faults) returns (x: Claimant)
    requires Run(c, INIT, ls).Some?
    requires var s := Run(c, INIT, ls).value;
      && Service.OutcomeOf(c, RequestOf(e), f, s) == Deduped
      && ColonFree(JobOf(e)) && forall y :: ClaimOf(s, y).Some? ==> ColonFree(JobAt(s, y))
    ensures var s := Run(c, INIT, ls).value;
      && ClaimOf(s, x).Some? && SameFour(JobAt(s, x), JobOf(e))
      && ClaimOf(s, x).value.at <= s.now < ClaimOf(s, x).value.at + c.ttl
  {
    var s, key := Run(c, INIT, ls).value, DedupeKey(e);
    assert c.Dedupes() && Held(s.expiry, key, s.now);
    RunClaimed(c, ls);
    assert Claimed(c, s, key);
    x :| ClaimOf(s, x).Some? && ClaimOf(s, x).value.key == key && ClaimOf(s, x).value.at <= s.now
      && s.expiry[key] == ClaimOf(s, x).value.at + c.ttl;
    KeyOfClaimant(c, ls, x);
    var j := JobAt(s, x);
    SameKeyIff(Event(j.delivery, j.eventType, j.repo, j.mr, j.sha, j.baseRef, j.files), e);
  }

  // ----- Which event a job belongs to -----

  /** r is what a well-formed event of the run asks for. */
  ghost predicate CameFrom(ls: seq<Label>, r: Request) {
    exists n :: 0 <= n < |ls| && ls[n].Arrive? && WellFormed(ls[n].event) && r == RequestOf(ls[n].event)
  }

  ghost predicate AllCameFrom(ls: seq<Label>, s: State) {
    && (forall h :: h in s.handlers && s.handlers[h].pc != Done(Invalid) ==> CameFrom(ls, s.handlers[h].req))
    && (forall i :: 0 <= i < |s.log| && s.log[i].Queued? ==> CameFrom(ls, s.log[i].req))
  }

  lemma {:induction false} RunCameFrom(c: Config, ls: seq<Label>)
    requires Run(c, INIT, ls).Some?
    ensures AllCameFrom(ls, Run(c, INIT, ls).value)
    decreases |ls|
  {
    if ls != [] {
      var init, l := ls[..|ls| - 1], ls[|ls| - 1];
      var s := Run(c, INIT, init).value;
      RunCameFrom(c, init);
      forall r | CameFrom(init, r) ensures CameFrom(ls, r) {
        var n :| 0 <= n < |init| && init[n].Arrive? && WellFormed(init[n].event) && r == RequestOf(init[n].event);
        assert ls[n] == init[n];
      }
      if l.Arrive? {
        ArrivedCameFrom(s, l.h, l.event, ls);
      } else {
        AdmissionSerial.RequestsKept(c, s, l);
        KeptCameFrom(c, s, l, ls);
      }
    }
  }

  lemma ArrivedCameFrom(s: State, h: nat, e: Event, ls: seq<Label>)
    requires AllCameFrom(ls, s) && ls != [] && ls[|ls| - 1] == Arrive(h, e)
    ensures AllCameFrom(ls, Arrived(s, h, RequestOf(e), WellFormed(e)))
  {
    if WellFormed(e) {
      assert ls[|ls| - 1].Arrive? && WellFormed(ls[|ls| - 1].event);
      assert CameFrom(ls, RequestOf(e));
    }
  }

  lemma KeptCameFrom(c: Config, s: State, l: Label, ls: seq<Label>)
    requires AllCameFrom(ls, s) && Enabled(c, s, l) && !l.Arrive?
    ensures AllCameFrom(ls, Step(c, s, l))
  {
  }

  /** Only calls that are no close get as far as the dedupe store and the queue. */
  ghost predicate OnlyOpen(s: State) {
    && (forall h :: h in s.handlers && (s.handlers[h].pc.Deduping? || s.handlers[h].pc.Locking?) ==> !s.handlers[h].req.closing)
    && (forall i :: 0 <= i < |s.log| && s.log[i].Queued? ==> !s.log[i].req.closing)
  }

  lemma StepOnlyOpen(c: Config, s: State, l: Label)
    requires OnlyOpen(s) && Enabled(c, s, l)
    ensures OnlyOpen(Step(c, s, l))
  {
  }

  lemma {:induction false} RunOnlyOpen(c: Config, ls: seq<Label>)
    requires Run(c, INIT, ls).Some?
    ensures OnlyOpen(Run(c, INIT, ls).value)
    decreases |ls|
  {
    if ls != [] {
      RunOnlyOpen(c, ls[..|ls| - 1]);
      StepOnlyOpen(c, Run(c, INIT, ls[..|ls| - 1]).value, ls[|ls| - 1]);
    }
  }

  /** Every job ever queued carries the values of a well-formed event that arrived and is
      no close: its delivery id, type, repository, merge request, commit, base and files. */
  lemma JobsComeFromEvents(c: Config, ls: seq<Label>, i: nat) returns (n: nat)
    requires Run(c, INIT, ls).Some?
    requires var log := Run(c, INIT, ls).value.log; i < |log| && log[i].Queued?
    ensures var j := Run(c, INIT, ls).value.log[i].req.job;
      && n < |ls| && ls[n].Arrive?
      && (var e := ls[n].event;
          && WellFormed(e) && !IsCloseEvent(e.eventType)
          && j.delivery == e.delivery && j.eventType == e.eventType && j.repo == e.repo && j.mr == e.mr
          && j.sha == e.sha && j.baseRef == e.baseRef && j.files == e.files)
  {
    RunCameFrom(c, ls);
    RunOnlyOpen(c, ls);
    var s := Run(c, INIT, ls).value;
    assert CameFrom(ls, s.log[i].req);
    n :| 0 <= n < |ls| && ls[n].Arrive? && WellFormed(ls[n].event) && s.log[i].req == RequestOf(ls[n].event);
  }

  // ----- Which events close -----

  /** c is the small letter w or the capital of it. */
  predicate SameLetter(c: char, w: char) {
    c == w || ('A' <= c <= 'Z' && c as int + 32 == w as int)
  }

  predicate SpellsAt(t: string, w: string, i: int) {
    0 <= i && i + |w| <= |t| && forall j :: 0 <= j < |w| ==> SameLetter(t[i + j], w[j])
  }

  /** An event closes its merge request exactly when its type holds "closed" or "merged",
      in letters of any case. */
  lemma ClosesIff(t: string)
    ensures IsCloseEvent(t) <==> exists i :: SpellsAt(t, "closed", i) || SpellsAt(t, "merged", i)
  {
    LowerContains(t, "closed");
    LowerContains(t, "merged");
    if i :| SpellsAt(t, "closed", i) || SpellsAt(t, "merged", i) {
      assert SpellsAt(t, "closed", i) || SpellsAt(t, "merged", i);
    }
  }

  lemma LowerContains(t: string, w: string)
    requires forall c :: c in w ==> 'a' <= c <= 'z'
    ensures Contains(ToLower(t), w) <==> exists i :: SpellsAt(t, w, i)
  {
    var s := ToLower(t);
    ContainsIff(s, w);
    forall i | 0 <= i <= |s| ensures w <= s[i..] <==> SpellsAt(t, w, i) {
      LowerAt(t, w, i);
    }
    if i :| SpellsAt(t, w, i) {
      assert w <= s[i..];
    }
  }

  lemma LowerAt(t: string, w: string, i: int)
    requires 0 <= i <= |t| && forall c :: c in w ==> 'a' <= c <= 'z'
    ensures w <= ToLower(t)[i..] <==> SpellsAt(t, w, i)
  {
    var s := ToLower(t);
    forall j | 0 <= j < |w| && i + j < |t| ensures s[i..][j] == w[j] <==> SameLetter(t[i + j], w[j]) {
      assert w[j] in w;
    }
    if SpellsAt(t, w, i) {
      assert |s[i..]| >= |w|;
      assert s[i..][..|w|] == w;
    }
  }
}
