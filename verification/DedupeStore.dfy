/**
 `MemoryDedupeStore`: reservations of event keys that expire. The clock is passed
 in. Every Reserve first sweeps expired keys; the main result is that callers
 cannot tell it from a store that never sweeps.
 */
module DedupeStore {

  /** When each reservation expires; 0 is the zero time. */
  type Expiries = map<string, nat>

  predicate Stale(at: nat, now: nat) {
    at != 0 && at < now
  }

  function Swept(m: Expiries, now: nat): (r: Expiries) {
    map k | k in m && !Stale(m[k], now) :: m[k]
  }

  /** The key is reserved and its reservation has not run out. */
  predicate Held(m: Expiries, key: string, now: nat) {
    key in m && m[key] > now
  }

  function AfterReserve(m: Expiries, key: string, ttl: int, now: nat): (r: Expiries) {
    if ttl <= 0 then m
    else
      var s := Swept(m, now);
      if Held(s, key, now) then s else s[key := now + ttl]
  }

  function Granted(m: Expiries, key: string, ttl: int, now: nat): (ok: bool) {
    ttl <= 0 || !Held(m, key, now)
  }

  class MemoryDedupeStore {
    var expiry: Expiries

    constructor ()
      ensures expiry == map[]
    {
      expiry := map[];
    }

    method Reserve(key: string, ttl: int, now: nat) returns (ok: bool)
      modifies this
      ensures ok == Granted(old(expiry), key, ttl, now)
      ensures expiry == AfterReserve(old(expiry), key, ttl, now)
    {
      if ttl <= 0 {
        return true;
      }
      Sweep(now);
      if key in expiry && expiry[key] > now {
        return false;
      }
      expiry := expiry[key := now + ttl];
      return true;
    }

    method Sweep(now: nat)
      modifies this
      ensures expiry == Swept(old(expiry), now)
    {
      var todo := expiry.Keys;
      while todo != {}
        invariant expiry == map k | k in old(expiry) && (k in todo || !Stale(old(expiry)[k], now)) :: old(expiry)[k]
        decreases |todo|
      {
        var k :| k in todo;
        if k in expiry && Stale(expiry[k], now) {
          expiry := expiry - {k};
        }
        todo := todo - {k};
      }
    }

    method Release(key: string)
      modifies this
      ensures expiry == old(expiry) - {key}
    {
      expiry := expiry - {key};
    }
  }

  // ----- The sweep is invisible -----

  datatype Op = ReserveOp(key: string, ttl: int, at: nat) | ReleaseOp(key: string)

  /** The answers of a run of operations, with and without the sweep. */
  function Answers(m: Expiries, ops: seq<Op>): (r: seq<bool>)
    decreases |ops|
  {
    if ops == [] then []
    else match ops[0]
      case ReserveOp(k, ttl, at) => [Granted(m, k, ttl, at)] + Answers(AfterReserve(m, k, ttl, at), ops[1..])
      case ReleaseOp(k) => Answers(m - {k}, ops[1..])
  }

  function AfterPlainReserve(m: Expiries, key: string, ttl: int, now: nat): (r: Expiries) {
    if ttl <= 0 || Held(m, key, now) then m else m[key := now + ttl]
  }

  function PlainAnswers(m: Expiries, ops: seq<Op>): (r: seq<bool>)
    decreases |ops|
  {
    if ops == [] then []
    else match ops[0]
      case ReserveOp(k, ttl, at) => [Granted(m, k, ttl, at)] + PlainAnswers(AfterPlainReserve(m, k, ttl, at), ops[1..])
      case ReleaseOp(k) => PlainAnswers(m - {k}, ops[1..])
  }

  /** The times of the reservations never go back, starting from now. */
  ghost predicate ClockRuns(ops: seq<Op>, now: nat)
    decreases |ops|
  {
    ops != [] ==>
      match ops[0]
      case ReserveOp(_, _, at) => now <= at && ClockRuns(ops[1..], at)
      case ReleaseOp(_) => ClockRuns(ops[1..], now)
  }

  /** swept is plain without some reservations that ran out before now. */
  ghost predicate SweptBefore(swept: Expiries, plain: Expiries, now: nat) {
    && (forall k :: k in swept ==> k in plain && plain[k] == swept[k])
    && (forall k :: k in plain && k !in swept ==> plain[k] < now)
  }

  /** With a clock that never goes back, the sweeping store gives every Reserve the
      answer a store that never sweeps would give. */
  lemma {:induction false} SweepIsInvisible(swept: Expiries, plain: Expiries, ops: seq<Op>, now: nat)
    requires SweptBefore(swept, plain, now) && ClockRuns(ops, now)
    ensures Answers(swept, ops) == PlainAnswers(plain, ops)
    decreases |ops|
  {
    if ops != [] {
      match ops[0]
      case ReserveOp(k, ttl, at) =>
        SweptBeforeStep(swept, plain, k, ttl, now, at);
        SweepIsInvisible(AfterReserve(swept, k, ttl, at), AfterPlainReserve(plain, k, ttl, at), ops[1..], at);
      case ReleaseOp(k) =>
        SweepIsInvisible(swept - {k}, plain - {k}, ops[1..], now);
    }
  }

  lemma SweptBeforeStep(swept: Expiries, plain: Expiries, key: string, ttl: int, now: nat, at: nat)
    requires SweptBefore(swept, plain, now) && now <= at
    ensures Granted(swept, key, ttl, at) == Granted(plain, key, ttl, at)
    ensures SweptBefore(AfterReserve(swept, key, ttl, at), AfterPlainReserve(plain, key, ttl, at), at)
  {
  }
}
