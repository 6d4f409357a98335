/** `MemoryQueue`: a bounded FIFO; an Enqueue that is cancelled adds nothing. */
module Queue {
  import opened Options

  datatype Job = Job(
    delivery: string,
    eventType: string,
    repo: string,
    mr: int,
    sha: string,
    baseRef: string,
    files: seq<string>)

  class MemoryQueue {
    const capacity: nat
    var jobs: seq<Job>

    ghost predicate Valid()
      reads this
    {
      |jobs| <= capacity
    }

    constructor (buffer: nat)
      ensures Valid() && capacity == buffer && jobs == []
    {
      capacity, jobs := buffer, [];
    }

    /** cancelled: the context ended first. On a full queue the call waits for a
        receiver, which takes the oldest job and lets this one in; on an unbuffered
        queue that is the job itself. taken is what a receiver took. */
    method Enqueue(job: Job, cancelled: bool) returns (ok: bool, ghost taken: seq<Job>)
      requires Valid()
      modifies this
      ensures Valid() && ok == !cancelled
      ensures taken + jobs == if cancelled then old(jobs) else old(jobs) + [job]
      ensures |taken| == if !cancelled && old(|jobs|) == capacity then 1 else 0
    {
      taken := [];
      if cancelled {
        return false, taken;
      }
      var all := jobs + [job];
      if |jobs| == capacity {
        taken, all := [all[0]], all[1..];
      }
      jobs := all;
      return true, taken;
    }

    /** On an empty queue the call waits for the next job sent, and takes it. */
    method Dequeue(cancelled: bool, next: Job) returns (job: Option<Job>)
      requires Valid()
      modifies this
      ensures Valid()
      ensures cancelled ==> job == None && jobs == old(jobs)
      ensures !cancelled && old(jobs) == [] ==> job == Some(next) && jobs == []
      ensures !cancelled && old(jobs) != [] ==> job == Some(old(jobs)[0]) && jobs == old(jobs)[1..]
    {
      if cancelled {
        return None;
      }
      if jobs == [] {
        return Some(next);
      }
      job := Some(jobs[0]);
      jobs := jobs[1..];
    }
  }
}
