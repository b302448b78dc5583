/** Checkpoints of a switchover attempt on the policy resource
    (internal/controller/progress.go). Any write may be lost. */
module Progress {
  import opened Text

  datatype Phase = PreFlight | Fence | Promote | Routing | ReverseReplica | Verify | Done

  const ENGINE_ORDER := [PreFlight, Fence, Promote, Routing, ReverseReplica, Verify]

  function Index(ph: Phase): nat
  {
    match ph
    case PreFlight => 0
    case Fence => 1
    case Promote => 2
    case Routing => 3
    case ReverseReplica => 4
    case Verify => 5
    case Done => 6
  }

  ghost predicate Ascending(s: seq<Phase>)
  {
    forall i, j :: 0 <= i < j < |s| ==> Index(s[i]) < Index(s[j])
  }

  datatype Checkpoint = Checkpoint(attempt: string, current: Phase, completed: seq<Phase>, failed: Option<Phase>)

  class Policy {
    var progress: Option<Checkpoint>
    constructor ()
      ensures progress == None
    {
      progress := None;
    }
  }

  class Reporter {
    const policy: Policy
    const attempt: string
    var completed: seq<Phase>
    ghost var failures: set<Phase>
    /** How many writes were lost, to a failed read or a failed patch. */
    ghost var lost: nat

    /** Whatever writes were lost, a checkpoint of this attempt lists a prefix of the
        phases completed so far, and names only a phase that failed as failed. */
    ghost predicate Valid()
      reads this, policy
    {
      policy.progress.Some? && policy.progress.value.attempt == attempt ==>
        && policy.progress.value.completed <= completed
        && (policy.progress.value.failed.Some? ==> policy.progress.value.failed.value in failures)
    }

    constructor (policy: Policy, attempt: string)
      requires policy.progress.Some? && policy.progress.value.attempt == attempt ==>
                 policy.progress.value.completed == [] && policy.progress.value.failed == None
      ensures Valid() && this.policy == policy && this.attempt == attempt && completed == [] && failures == {}
      ensures lost == 0
    {
      this.policy, this.attempt, completed, failures, lost := policy, attempt, [], {}, 0;
    }

    /** The stored checkpoint is this attempt's, at this phase, with all phases completed. */
    predicate Shows(ph: Phase)
      reads this, policy
    {
      UpToDate() && policy.progress.value.current == ph
    }

    predicate UpToDate()
      reads this, policy
    {
      && policy.progress.Some? && policy.progress.value.attempt == attempt
      && policy.progress.value.completed == completed
    }

    method WriteProgress(current: Phase, failed: Option<Phase>)
      requires Valid() && (failed.Some? ==> failed.value in failures)
      modifies policy, this`lost
      ensures Valid() && old(lost) <= lost <= old(lost) + 1
      ensures lost > old(lost) ==> policy.progress == old(policy.progress)
      ensures lost == old(lost) ==>
        && policy.progress.Some? && policy.progress.value.attempt == attempt
        && policy.progress.value.current == current && policy.progress.value.completed == completed
        && (failed.Some? ==> policy.progress.value.failed == failed)
    {
      var readFails: bool := *;
      if readFails {
        lost := lost + 1;
        return;
      }
      var was := policy.progress;
      var base := if was.None? || was.value.attempt != attempt
                  then Checkpoint(attempt, current, [], None) else was.value;
      var next := base.(current := current, completed := completed);
      if failed.Some? {
        next := next.(failed := failed);
      }
      var patchFails: bool := *;
      if patchFails {
        lost := lost + 1;
      } else {
        policy.progress := Some(next);
      }
    }

    method OnPhaseStart(ph: Phase)
      requires Valid()
      modifies policy, this`lost
      ensures Valid() && old(lost) <= lost <= old(lost) + 1
      ensures if lost == old(lost) then Shows(ph) else policy.progress == old(policy.progress)
    {
      WriteProgress(ph, None);
    }

    method OnPhaseComplete(ph: Phase)
      requires Valid()
      modifies this`completed, policy, this`lost
      ensures Valid() && old(lost) <= lost <= old(lost) + 1 && completed == old(completed) + [ph]
      ensures if lost == old(lost) then Shows(ph) else policy.progress == old(policy.progress)
    {
      completed := completed + [ph];
      WriteProgress(ph, None);
    }

    method OnPhaseError(ph: Phase)
      requires Valid()
      modifies this`failures, policy, this`lost
      ensures Valid() && old(lost) <= lost <= old(lost) + 1 && failures == old(failures) + {ph}
      ensures if lost == old(lost) then Shows(ph) && policy.progress.value.failed == Some(ph)
              else policy.progress == old(policy.progress)
    {
      failures := failures + {ph};
      WriteProgress(ph, Some(ph));
    }
  }
}
