/**
 * The GPU admission scheduler: one slot, guarded by three fields that `accept_job`
 * sets and `complete_job` clears. Each method of the source runs under one lock, so
 * each is one atomic step here.
 *
 * `Accept` and `Complete` are the transitions as functions of the state; the
 * `GPUScheduler` class performs them in place on its fields, and the lemmas state
 * what holds over any sequence of calls.
 */
module Scheduler {
  import opened Wrappers

  /** What `get_status` reports, and the whole state of a scheduler. */
  datatype Status = Status(busy: bool, currentJobId: Option<string>, queueLength: int)

  /** The state of a new scheduler. */
  const Initial: Status := Status(false, None, 0)

  /**
   * The invariant the scheduler keeps: busy exactly when a job id is recorded,
   * at most one job counted, and none counted while the slot is free.
   */
  predicate Consistent(s: Status) {
    && (s.busy <==> s.currentJobId.Some?)
    && 0 <= s.queueLength <= 1
    && (!s.busy ==> s.queueLength == 0)
  }

  /** `accept_job(jobId)`: the new state and the returned flag. */
  function Accept(s: Status, jobId: string): (Status, bool) {
    if s.busy then (s, false)
    else (Status(true, Some(jobId), s.queueLength + 1), true)
  }

  /** `complete_job(jobId)`: frees the slot only for the recorded job. */
  function Complete(s: Status, jobId: string): Status {
    var q := if s.queueLength > 0 then s.queueLength - 1 else s.queueLength;
    if s.currentJobId == Some(jobId) then Status(false, None, q)
    else s.(queueLength := q)
  }

  /** The calls a client can make. */
  datatype Call = CanAcceptJob | AcceptJob(jobId: string) | CompleteJob(jobId: string) | GetStatus

  function Step(s: Status, c: Call): Status {
    match c
    case CanAcceptJob => s
    case AcceptJob(id) => Accept(s, id).0
    case CompleteJob(id) => Complete(s, id)
    case GetStatus => s
  }

  /** The state after a sequence of calls, in order. */
  function Run(s: Status, calls: seq<Call>): Status
    decreases |calls|
  {
    if calls == [] then s else Run(Step(s, calls[0]), calls[1..])
  }

  /** One call keeps the invariant. */
  lemma StepKeepsConsistent(s: Status, c: Call)
    requires Consistent(s)
    ensures Consistent(Step(s, c))
  {
  }

  /** Over any call sequence from any consistent state, the invariant holds. */
  lemma {:induction false} RunKeepsConsistent(s: Status, calls: seq<Call>)
    requires Consistent(s)
    ensures Consistent(Run(s, calls))
    decreases |calls|
  {
    if calls != [] {
      StepKeepsConsistent(s, calls[0]);
      RunKeepsConsistent(Step(s, calls[0]), calls[1..]);
    }
  }

  /** In particular every state a scheduler reaches from construction is consistent. */
  lemma ReachableConsistent(calls: seq<Call>)
    ensures Consistent(Run(Initial, calls))
  {
    RunKeepsConsistent(Initial, calls);
  }

  /** The flags returned by a burst of `accept_job` calls with no completion between them. */
  function AcceptAll(s: Status, ids: seq<string>): (Status, seq<bool>)
    decreases |ids|
  {
    if ids == [] then (s, [])
    else
      var (s1, ok) := Accept(s, ids[0]);
      var (s2, oks) := AcceptAll(s1, ids[1..]);
      (s2, [ok] + oks)
  }

  /**
   * Mutual exclusion: from a free slot, of any burst of `accept_job` calls exactly the
   * first succeeds, and the slot then belongs to its job.
   */
  lemma {:induction false} OnlyFirstAcceptSucceeds(s: Status, ids: seq<string>)
    requires !s.busy && |ids| > 0
    ensures |AcceptAll(s, ids).1| == |ids|
    ensures AcceptAll(s, ids).1[0]
    ensures forall i :: 0 < i < |ids| ==> !AcceptAll(s, ids).1[i]
    ensures AcceptAll(s, ids).0 == Status(true, Some(ids[0]), s.queueLength + 1)
  {
    BusyRejectsAll(Accept(s, ids[0]).0, ids[1..]);
  }

  /** While the slot is held, every `accept_job` is refused and nothing changes. */
  lemma {:induction false} BusyRejectsAll(s: Status, ids: seq<string>)
    requires s.busy
    ensures AcceptAll(s, ids).0 == s
    ensures |AcceptAll(s, ids).1| == |ids|
    ensures forall i :: 0 <= i < |ids| ==> !AcceptAll(s, ids).1[i]
    decreases |ids|
  {
    if ids != [] {
      BusyRejectsAll(s, ids[1..]);
    }
  }

  /**
   * `complete_job` with an id other than the recorded one keeps the slot busy while
   * lowering the counter: busy with `queue_length` 0 is reachable, so
   * `queue_length == 1` is not equivalent to busy.
   */
  lemma MismatchedCompleteKeepsSlot()
    ensures Run(Initial, [AcceptJob("J1"), CompleteJob("J2")]) == Status(true, Some("J1"), 0)
  {
    assert Run(Initial, [AcceptJob("J1"), CompleteJob("J2")])
        == Run(Status(true, Some("J1"), 1), [CompleteJob("J2")]);
  }

  /** Completing the recorded job always frees a consistent scheduler. */
  lemma CompleteRecordedFrees(s: Status, jobId: string)
    requires Consistent(s) && s.currentJobId == Some(jobId)
    ensures Complete(s, jobId) == Initial
  {
  }

  class GPUScheduler {
    var busy: bool
    var currentJobId: Option<string>
    var queueLength: int

    function State(): Status
      reads this
    {
      Status(busy, currentJobId, queueLength)
    }

    ghost predicate Valid()
      reads this
    {
      Consistent(State())
    }

    /** `GPUScheduler()`: free, no job, nothing counted. */
    constructor()
      ensures !busy && currentJobId == None && queueLength == 0
      ensures State() == Initial && Valid()
    {
      busy := false;
      currentJobId := None;
      queueLength := 0;
    }

    /** `can_accept_job`: whether the slot is free; changes nothing. */
    method CanAcceptJob() returns (ok: bool)
      ensures ok == !busy
    {
      ok := !busy;
    }

    /** `accept_job`: check-and-set of the slot. */
    method AcceptJob(jobId: string) returns (accepted: bool)
      requires Valid()
      modifies this
      ensures Valid()
      ensures accepted == !old(busy)
      ensures !accepted ==> State() == old(State())
      ensures accepted ==> busy && currentJobId == Some(jobId) && queueLength == old(queueLength) + 1
      ensures (State(), accepted) == Accept(old(State()), jobId)
    {
      if busy {
        accepted := false;
        return;
      }
      busy := true;
      currentJobId := Some(jobId);
      queueLength := queueLength + 1;
      accepted := true;
    }

    /** `complete_job`: frees the slot only when `jobId` is the recorded job. */
    method CompleteJob(jobId: string)
      requires Valid()
      modifies this
      ensures Valid()
      ensures old(currentJobId) == Some(jobId) ==> !busy && currentJobId == None
      ensures old(currentJobId) != Some(jobId) ==> busy == old(busy) && currentJobId == old(currentJobId)
      ensures queueLength == if old(queueLength) > 0 then old(queueLength) - 1 else old(queueLength)
      ensures State() == Complete(old(State()), jobId)
    {
      if currentJobId == Some(jobId) {
        busy := false;
        currentJobId := None;
        if queueLength > 0 {
          queueLength := queueLength - 1;
        }
      } else {
        if queueLength > 0 {
          queueLength := queueLength - 1;
        }
      }
    }

    /** `get_status`: a snapshot of the three fields; changes nothing. */
    method GetStatus() returns (st: Status)
      ensures st.busy == busy && st.currentJobId == currentJobId && st.queueLength == queueLength
    {
      st := Status(busy, currentJobId, queueLength);
    }
  }

  /** The module-level singleton behind `get_scheduler`. */
  class SchedulerHolder {
    var instance: GPUScheduler?

    constructor()
      ensures instance == null
    {
      instance := null;
    }

    /** `get_scheduler`: creates the scheduler on first use and returns the same one afterwards. */
    method GetScheduler() returns (s: GPUScheduler)
      modifies this
      ensures instance == s
      ensures old(instance) != null ==> s == old(instance)
      ensures old(instance) == null ==> fresh(s) && s.State() == Initial
    {
      if instance == null {
        instance := new GPUScheduler();
      }
      s := instance;
    }
  }

  /**
   * Accept J1, accept J2 while J1 runs, complete J1, accept J3; then read the status,
   * twice, to see that reading changes nothing.
   */
  method AdmissionScenario() returns (a1: bool, a2: bool, a3: bool, st: Status, st2: Status)
    ensures a1 && !a2 && a3
    ensures st == Status(true, Some("J3"), 1) && st2 == st
  {
    var sched := new GPUScheduler();
    a1 := sched.AcceptJob("J1");
    a2 := sched.AcceptJob("J2");
    sched.CompleteJob("J1");
    a3 := sched.AcceptJob("J3");
    st := sched.GetStatus();
    st2 := sched.GetStatus();
  }
}
