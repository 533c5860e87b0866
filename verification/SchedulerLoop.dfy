// ScheduleOne and the binding goroutine as code (scheduler/schedule_one.go:65-364,
// 964-1009, 1020-1108), run in the midst of the other goroutines and the
// informers, and proved to take only steps of the transition system.
module SchedulerLoop {
  import opened Common
  import opened Lifecycle
  import opened LifecycleRuns
  import opened LifecycleQueue

  // What the plugins, the algorithm and the informer answer to one attempt.
  // None stands for a success.
  datatype Answers = Answers(
    profileKnown: bool,
    deleting: bool,
    assumedCheckFails: bool,
    host: Option<NodeName>,
    findStatus: FailKind,
    assumeFails: bool,
    reserve: Option<FailKind>,
    permit: Option<FailKind>,
    wait: Option<FailKind>,
    preBind: Option<FailKind>,
    binders: seq<Binder>,
    bindPlugins: Option<FailKind>,
    lookup: Lookup)

  // An extender as the bind step sees it; error is what its Bind call returns.
  datatype Binder = Binder(isBinder: bool, interested: bool, ignorable: bool, error: Option<string>)

  // The extender settles the binding: the ones after it are not asked.
  predicate Decides(b: Binder) {
    b.isBinder && b.interested && (b.error.Some? ==> !b.ignorable)
  }

  // Extenders come before the bind plugins.
  ghost predicate BindResult(binders: seq<Binder>, bindPlugins: Option<FailKind>, status: Option<FailKind>) {
    if exists i :: 0 <= i < |binders| && Decides(binders[i]) then
      exists i :: 0 <= i < |binders| && DecidesFirst(binders, i)
        && status == if binders[i].error.Some? then Some(Errored) else None
    else status == bindPlugins
  }

  ghost predicate DecidesFirst(binders: seq<Binder>, i: nat)
    requires i < |binders|
  {
    Decides(binders[i]) && forall j :: 0 <= j < i ==> !Decides(binders[j])
  }

  // extendersBinding
  method ExtendersBinding(binders: seq<Binder>) returns (bound: bool, error: Option<string>)
    ensures bound <==> exists i :: 0 <= i < |binders| && Decides(binders[i])
    ensures bound ==> exists i :: 0 <= i < |binders| && DecidesFirst(binders, i) && error == binders[i].error
    ensures !bound ==> error.None?
  {
    for i := 0 to |binders|
      invariant forall j :: 0 <= j < i ==> !Decides(binders[j])
    {
      var extender := binders[i];
      if !extender.isBinder || !extender.interested {
        continue;
      }
      if extender.error.Some? && extender.ignorable {
        continue;
      }
      assert DecidesFirst(binders, i);
      return true, extender.error;
    }
    return false, None;
  }

  // What bind returns.
  method BindStatus(binders: seq<Binder>, bindPlugins: Option<FailKind>) returns (status: Option<FailKind>)
    ensures BindResult(binders, bindPlugins, status)
  {
    var bound, error := ExtendersBinding(binders);
    if bound {
      status := if error.Some? then Some(Errored) else None;
    } else {
      status := bindPlugins;
    }
  }

  // The status is determined by the extenders and the plugins.
  lemma BindResultIsUnique(binders: seq<Binder>, bindPlugins: Option<FailKind>, a: Option<FailKind>, b: Option<FailKind>)
    requires BindResult(binders, bindPlugins, a) && BindResult(binders, bindPlugins, b)
    ensures a == b
  {
  }

  // AssumePod always fails for a pod in the cache, and may fail otherwise.
  predicate CanAssume(answers: Answers, s: State, p: Pod) {
    !answers.assumeFails && p !in s.cache
  }

  predicate Skips(answers: Answers, s: State, p: Pod) {
    || !answers.profileKnown
    || answers.deleting
    || (!answers.assumedCheckFails && IsAssumed(s.cache, p))
  }

  predicate SameAttempt(a: Cycle, b: Cycle) {
    a.pod == b.pod && a.host == b.host
  }

  // The attempt has a host and is about to assume its pod.
  predicate AboutToAssume(s: State, c: nat, p: Pod, host: NodeName) {
    c < |s.cycles| && s.cycles[c].pod == p && s.cycles[c].host == host && s.cycles[c].pc == HostFound
  }

  // The status of a scheduling cycle and where it failed; atAssume is the state in
  // which it tried to assume its pod, if it got that far.
  predicate CycleOutcome(answers: Answers, atAssume: State, p: Pod, status: Option<FailKind>, at: Origin) {
    if answers.host.None? then status == Some(answers.findStatus) && at == NoFit
    else if !CanAssume(answers, atAssume, p) then status == Some(Errored) && at == NoAssume
    else
      && status == (if answers.reserve.Some? then answers.reserve else answers.permit)
      && at == AfterReserve(InScheduling)
  }

  // The failure handler of attempt c at pod p takes the world from before to settled,
  // having found the given pod in the informer's store: the popped pod is out of
  // flight unless that is another pod, and a pending pod is in the queue.
  ghost predicate Settles(before: State, settled: State, c: nat, p: Pod, found: Lookup) {
    && c < |before.cycles| && before.cycles[c].pod == p && before.cycles[c].pc.Handling?
    && settled == Apply(before, Act(c, Handle(found)))
    && ((found.PodPending? ==> found.uid == p) ==> p !in settled.inFlight)
    && match found
       case PodPending(uid, backoff) =>
         && uid !in settled.inFlight && InQueue(settled, uid)
         && (!InQueue(before, uid) ==> if backoff then uid in settled.ready else uid in settled.unschedulable)
         && (uid != p ==> (p in settled.inFlight <==> p in before.inFlight))
       case _ => settled.ready == before.ready && settled.unschedulable == before.unschedulable
  }

  // A pod that the failure handler found pending is in the queue until it is popped.
  lemma SettledPodIsRetried(ttl: nat, before: State, settled: State, c: nat, p: Pod, found: Lookup, steps: seq<Step>)
    requires Settles(before, settled, c, p, found) && found.PodPending?
    requires Exec(ttl, settled, steps).Some? && Pop(found.uid) !in steps
    ensures InQueue(Exec(ttl, settled, steps).value, found.uid)
  {
    QueuedUntilPopped(ttl, settled, steps, found.uid);
  }

  lemma StepReaches(ttl: nat, s: State, step: Step)
    requires Enabled(ttl, s, step)
    ensures Reaches(ttl, s, Apply(s, step))
  {
    Stay(ttl, s);
    var t := Take(ttl, s, s, step);
  }

  class World {
    const ttl: nat
    var st: State
    // The steps the rest of the world will try to take.
    var others: seq<Step>

    ghost predicate Valid()
      reads this
    {
      Reachable(ttl, st)
    }

    constructor (ttl: nat, others: seq<Step>)
      ensures Valid() && this.ttl == ttl && st == Init()
    {
      this.ttl := ttl;
      this.others := others;
      st := Init();
      new;
      Stay(ttl, st);
    }

    // Any number of steps of the others, who leave attempt c alone.
    method Interfere(c: nat)
      requires Valid() && c < |st.cycles|
      modifies this
      ensures Valid() && c < |st.cycles| && st.cycles[c] == old(st.cycles[c])
      ensures Reaches(ttl, old(st), st)
    {
      Stay(ttl, st);
      var more: bool := *;
      while more && |others| > 0
        invariant Valid() && c < |st.cycles| && st.cycles[c] == old(st.cycles[c])
        invariant Reaches(ttl, old(st), st)
        decreases |others|
      {
        var step := others[0];
        others := others[1..];
        if Enabled(ttl, st, step) && !(step.Act? && step.c == c) {
          ghost var t := Take(ttl, old(st), st, step);
          TakeStep(step);
        }
        more := *;
      }
    }

    method TakeStep(step: Step)
      requires Valid() && Enabled(ttl, st, step)
      modifies this`st
      ensures Valid() && st == Apply(old(st), step)
    {
      ghost var t := Take(ttl, Init(), st, step);
      st := Apply(st, step);
    }

    // An action of attempt c that nothing can prevent, and the interference after it.
    method Do(c: nat, a: Action)
      requires Valid() && c < |st.cycles| && Fires(st.cycles[c].pc, a) && Guard(st, st.cycles[c], a) && !a.Forget?
      modifies this
      ensures Valid() && c < |st.cycles| && st.cycles[c] == old(Apply(st, Act(c, a))).cycles[c]
      ensures st.cycles[c].pc == After(old(st.cycles[c].pc), a, old(st.cycles[c].pod), false)
      ensures Reaches(ttl, old(Apply(st, Act(c, a))), st) && Reaches(ttl, old(st), st)
    {
      StepReaches(ttl, st, Act(c, a));
      TakeStep(Act(c, a));
      ghost var taken := st;
      Interfere(c);
      ReachesTransitive(ttl, old(st), taken, st);
    }

    // The same for an action that gives no host; start is a state the world has come from.
    method Advance(c: nat, a: Action, ghost start: State)
      requires Valid() && c < |st.cycles| && Fires(st.cycles[c].pc, a) && Guard(st, st.cycles[c], a)
      requires !a.Forget? && !a.FindOk? && Reaches(ttl, start, st)
      modifies this
      ensures Valid() && c < |st.cycles| && SameAttempt(st.cycles[c], old(st.cycles[c])) && Reaches(ttl, start, st)
      ensures st.cycles[c].pc == After(old(st.cycles[c].pc), a, old(st.cycles[c].pod), false)
    {
      Do(c, a);
      ReachesTransitive(ttl, start, old(st), st);
    }

    // ForgetPod, from the same point of view.
    method GiveUp(c: nat, ghost start: State) returns (forgot: bool)
      requires Valid() && c < |st.cycles| && st.cycles[c].pc.Forgetting? && Reaches(ttl, start, st)
      modifies this
      ensures Valid() && c < |st.cycles| && SameAttempt(st.cycles[c], old(st.cycles[c])) && Reaches(ttl, start, st)
      ensures st.cycles[c].pc == After(old(st.cycles[c].pc), Forget, old(st.cycles[c].pod), forgot)
    {
      forgot := ForgetPod(c);
      ReachesTransitive(ttl, start, old(st), st);
    }

    method ForgetPod(c: nat) returns (forgot: bool)
      requires Valid() && c < |st.cycles| && st.cycles[c].pc.Forgetting?
      modifies this
      ensures Valid() && c < |st.cycles|
      ensures st.cycles[c].pc == After(old(st.cycles[c].pc), Forget, old(st.cycles[c].pod), forgot)
      ensures SameAttempt(st.cycles[c], old(st.cycles[c]))
      ensures Reaches(ttl, old(Apply(st, Act(c, Forget))), st) && Reaches(ttl, old(st), st)
      ensures forgot == old(CanForget(st.cache, st.cycles[c].pod, st.cycles[c].host))
    {
      forgot := CanForget(st.cache, st.cycles[c].pod, st.cycles[c].host);
      StepReaches(ttl, st, Act(c, Forget));
      TakeStep(Act(c, Forget));
      ghost var taken := st;
      Interfere(c);
      ReachesTransitive(ttl, old(st), taken, st);
    }

    // skipPodSchedule and the profile lookup before it.
    method SkipPodSchedule(c: nat, answers: Answers) returns (skip: bool)
      requires Valid() && c < |st.cycles| && st.cycles[c].pc == Popped
      modifies this
      ensures Valid() && c < |st.cycles| && st.cycles[c].pod == old(st.cycles[c].pod)
      ensures st.cycles[c].pc == (if skip then Skipped else Finding)
      ensures skip <==> Skips(answers, old(st), old(st.cycles[c].pod))
      ensures !skip ==> Reaches(ttl, old(st), st)
    {
      skip := true;
      if !answers.profileKnown {
        Do(c, SkipPod(NoProfile));
      } else if answers.deleting {
        Do(c, SkipPod(Deleting));
      } else if !answers.assumedCheckFails && IsAssumed(st.cache, st.cycles[c].pod) {
        Do(c, SkipPod(AlreadyAssumed));
      } else {
        Do(c, Proceed(answers.assumedCheckFails));
        skip := false;
      }
    }

    // assume
    method Assume(c: nat, answers: Answers) returns (ok: bool)
      requires Valid() && c < |st.cycles| && st.cycles[c].pc == HostFound
      modifies this
      ensures ok <==> CanAssume(answers, old(st), old(st.cycles[c].pod))
      ensures Valid() && c < |st.cycles| && SameAttempt(st.cycles[c], old(st.cycles[c])) && Reaches(ttl, old(st), st)
      ensures st.cycles[c].pc == if ok then PodAssumed else Handling(NoAssume, Errored, false)
      ensures Reaches(ttl, old(Apply(st, Act(c, if CanAssume(answers, st, st.cycles[c].pod) then AssumeOk else AssumeFail))), st)
    {
      ok := !answers.assumeFails && st.cycles[c].pod !in st.cache;
      if ok {
        Do(c, AssumeOk);
      } else {
        Do(c, AssumeFail);
      }
    }

    // schedulingCycle; None is a success, after which the binding goroutine starts.
    method SchedulingCycle(c: nat, answers: Answers) returns (status: Option<FailKind>, ghost atAssume: State)
      requires Valid() && c < |st.cycles| && st.cycles[c].pc == Finding
      modifies this
      ensures Valid() && c < |st.cycles| && st.cycles[c].pod == old(st.cycles[c].pod)
      ensures status.None? ==>
                st.cycles[c].pc == Waiting && CycleOutcome(answers, atAssume, st.cycles[c].pod, status, AfterReserve(InScheduling))
      ensures status.Some? ==>
                && st.cycles[c].pc.Handling? && st.cycles[c].pc.why == status.value
                && CycleOutcome(answers, atAssume, st.cycles[c].pod, status, st.cycles[c].pc.at)
      ensures Reaches(ttl, old(st), st)
      ensures answers.host.Some? ==>
                && st.cycles[c].host == answers.host.value
                && AboutToAssume(atAssume, c, st.cycles[c].pod, answers.host.value)
                && Reaches(ttl, old(st), atAssume)
    {
      atAssume := st;
      if answers.host.None? {
        Do(c, FindFail(answers.findStatus));
        return Some(answers.findStatus), atAssume;
      }
      Do(c, FindOk(answers.host.value));
      atAssume := st;
      var ok := Assume(c, answers);
      ReachesTransitive(ttl, old(st), atAssume, st);
      if !ok {
        return Some(Errored), atAssume;
      }
      ghost var assumed := st;
      status := ReserveAndPermit(c, answers);
      ReachesTransitive(ttl, old(st), assumed, st);
    }

    // The Reserve and Permit plugins.
    method ReserveAndPermit(c: nat, answers: Answers) returns (status: Option<FailKind>)
      requires Valid() && c < |st.cycles| && st.cycles[c].pc == PodAssumed
      modifies this
      ensures Valid() && c < |st.cycles| && SameAttempt(st.cycles[c], old(st.cycles[c])) && Reaches(ttl, old(st), st)
      ensures status == if answers.reserve.Some? then answers.reserve else answers.permit
      ensures status.None? ==> st.cycles[c].pc == Waiting
      ensures status.Some? ==>
                st.cycles[c].pc.Handling? && st.cycles[c].pc.why == status.value && st.cycles[c].pc.at == AfterReserve(InScheduling)
    {
      Stay(ttl, st);
      if answers.reserve.Some? {
        Advance(c, ReserveFail(answers.reserve.value), old(st));
        var forgot := UndoReservation(c, InScheduling, answers.reserve.value, old(st));
        return answers.reserve;
      }
      Advance(c, ReserveOk, old(st));
      if answers.permit.Some? {
        Advance(c, PermitFail(answers.permit.value), old(st));
        var forgot := UndoReservation(c, InScheduling, answers.permit.value, old(st));
        return answers.permit;
      }
      Advance(c, PermitOk, old(st));
      return None;
    }

    // Unreserve and forget, in either cycle; start is a state the world has come from.
    method UndoReservation(c: nat, phase: Phase, why: FailKind, ghost start: State) returns (forgot: bool)
      requires Valid() && c < |st.cycles| && st.cycles[c].pc == Unreserving(phase, why) && Reaches(ttl, start, st)
      modifies this
      ensures Valid() && c < |st.cycles| && SameAttempt(st.cycles[c], old(st.cycles[c])) && Reaches(ttl, start, st)
      ensures st.cycles[c].pc ==
              if phase == InBinding && forgot && why == Errored then MovingNow else Handling(AfterReserve(phase), why, forgot)
    {
      Advance(c, Unreserve, start);
      forgot := GiveUp(c, start);
    }

    // handleSchedulingFailure.  settled is the state right after it.
    method HandleSchedulingFailure(c: nat, found: Lookup) returns (ghost settled: State)
      requires Valid() && c < |st.cycles| && st.cycles[c].pc.Handling?
      modifies this
      ensures Valid() && c < |st.cycles| && st.cycles[c].pod == old(st.cycles[c].pod)
      ensures Settles(old(st), settled, c, st.cycles[c].pod, found) && Reaches(ttl, settled, st)
      ensures var sameUid := found.PodPending? ==> found.uid == old(st.cycles[c].pod);
        st.cycles[c].pc
        == if DefersMove(old(st.cycles[c].pc.at), old(st.cycles[c].pc.why), old(st.cycles[c].pc.forgotten))
           then MovingLater(sameUid)
           else Ended(old(st.cycles[c].pc.at), old(st.cycles[c].pc.why), old(st.cycles[c].pc.forgotten), sameUid)
    {
      settled := Apply(st, Act(c, Handle(found)));
      Do(c, Handle(found));
    }

    // bindingCycle; None is a success.
    method BindingCycle(c: nat, answers: Answers) returns (status: Option<FailKind>)
      requires Valid() && c < |st.cycles| && st.cycles[c].pc == Waiting
      modifies this
      ensures Valid() && c < |st.cycles|
      ensures st.cycles[c].pc == if status.None? then Sent else Unreserving(InBinding, status.value)
      ensures st.cycles[c].pod == old(st.cycles[c].pod) && Reaches(ttl, old(st), st)
      ensures if answers.wait.Some? then status == answers.wait
              else if answers.preBind.Some? then status == answers.preBind
              else BindResult(answers.binders, answers.bindPlugins, status)
    {
      Stay(ttl, st);
      if answers.wait.Some? {
        Advance(c, BindingFail(answers.wait.value), old(st));
        return answers.wait;
      }
      Advance(c, WaitOk, old(st));
      if answers.preBind.Some? {
        Advance(c, BindingFail(answers.preBind.value), old(st));
        return answers.preBind;
      }
      status := BindAndSend(c, answers, old(st));
    }

    // The rest of bindingCycle, from the PreBind plugins' success on; start is a state
    // the world has come from.
    method BindAndSend(c: nat, answers: Answers, ghost start: State) returns (status: Option<FailKind>)
      requires Valid() && c < |st.cycles| && st.cycles[c].pc == PreBinding && Reaches(ttl, start, st)
      modifies this
      ensures Valid() && c < |st.cycles|
      ensures st.cycles[c].pod == old(st.cycles[c].pod) && Reaches(ttl, start, st)
      ensures st.cycles[c].pc == if status.None? then Sent else Unreserving(InBinding, status.value)
      ensures BindResult(answers.binders, answers.bindPlugins, status)
    {
      Advance(c, PreBindOk, start);
      status := BindStatus(answers.binders, answers.bindPlugins);
      if status.Some? {
        Advance(c, BindingFail(status.value), start);
        return;
      }
      Advance(c, BindOk, start);
      Advance(c, SendSuccess, start);
    }

    // handleBindingCycleError.  before and settled are the states around the failure
    // handler.
    method HandleBindingCycleError(c: nat, why: FailKind, found: Lookup) returns (ghost before: State, ghost settled: State)
      requires Valid() && c < |st.cycles| && st.cycles[c].pc == Unreserving(InBinding, why)
      modifies this
      ensures Valid() && c < |st.cycles| && st.cycles[c].pod == old(st.cycles[c].pod)
      ensures st.cycles[c].pc.Ended? && st.cycles[c].pc.at == AfterReserve(InBinding) && st.cycles[c].pc.why == why
      ensures st.cycles[c].pc.sameUid <==> (found.PodPending? ==> found.uid == st.cycles[c].pod)
      ensures Settles(before, settled, c, st.cycles[c].pod, found)
      ensures Reaches(ttl, old(st), before) && Reaches(ttl, settled, st)
    {
      Stay(ttl, st);
      var forgot := UndoReservation(c, InBinding, why, st);
      if forgot && why == Errored {
        MoveSome(c, {}, old(st));
      }
      before := st;
      settled := SettleAndMove(c, why, forgot, found);
    }

    // The failure handler and the deferred move.
    method SettleAndMove(c: nat, why: FailKind, forgot: bool, found: Lookup) returns (ghost settled: State)
      requires Valid() && c < |st.cycles| && st.cycles[c].pc == Handling(AfterReserve(InBinding), why, forgot)
      modifies this
      ensures Valid() && c < |st.cycles| && st.cycles[c].pod == old(st.cycles[c].pod)
      ensures st.cycles[c].pc == Ended(AfterReserve(InBinding), why, forgot, found.PodPending? ==> found.uid == st.cycles[c].pod)
      ensures Settles(old(st), settled, c, st.cycles[c].pod, found) && Reaches(ttl, settled, st)
    {
      settled := HandleSchedulingFailure(c, found);
      assert st.cycles[c].pc.MovingLater? <==> forgot && why == Rejected;
      if forgot && why == Rejected {
        MoveSome(c, {st.cycles[c].pod}, settled);
      }
    }

    // MoveAllToActiveOrBackoffQueue; start is a state the world has come from.
    method MoveSome(c: nat, spared: set<Pod>, ghost start: State)
      requires Valid() && c < |st.cycles| && (st.cycles[c].pc.MovingNow? || st.cycles[c].pc.MovingLater?)
      requires st.cycles[c].pc.MovingLater? ==> st.cycles[c].pod in spared
      requires Reaches(ttl, start, st)
      modifies this
      ensures Valid() && c < |st.cycles| && st.cycles[c].pod == old(st.cycles[c].pod)
      ensures st.cycles[c].pc ==
              if old(st.cycles[c].pc.MovingNow?) then Handling(AfterReserve(InBinding), Errored, true)
              else Ended(AfterReserve(InBinding), Rejected, true, old(st.cycles[c].pc.sameUid))
      ensures Reaches(ttl, start, st)
    {
      var pods := SomePods();
      Advance(c, Move(pods - spared), start);
    }

    // The pods of the unschedulable pool that the queueing hints let move.
    method SomePods() returns (pods: set<Pod>)
      ensures pods <= st.unschedulable
    {
      var keep: bool := *;
      if keep {
        pods := st.unschedulable;
      } else {
        pods := {};
      }
      var drop: bool := *;
      while drop && pods != {}
        invariant pods <= st.unschedulable
        decreases pods
      {
        var p :| p in pods;
        pods := pods - {p};
        drop := *;
      }
    }

    // The goroutine that ScheduleOne starts.  before and settled are the states around
    // the failure handler, if it is called.
    method BindAsynchronously(c: nat, answers: Answers) returns (ghost before: State, ghost settled: State)
      requires Valid() && c < |st.cycles| && st.cycles[c].pc == Waiting
      modifies this
      ensures Valid() && c < |st.cycles| && st.cycles[c].pod == old(st.cycles[c].pod) && Over(st.cycles[c].pc)
      ensures st.cycles[c].pc.EndedBound? <==>
                answers.wait.None? && answers.preBind.None? && BindResult(answers.binders, answers.bindPlugins, None)
      ensures !st.cycles[c].pc.EndedBound? ==>
                FailedAndSettled(c, st.cycles[c].pod, answers.lookup, old(st), before, settled)
    {
      before, settled := st, st;
      var status := BindingCycle(c, answers);
      if answers.wait.None? && answers.preBind.None? && BindResult(answers.binders, answers.bindPlugins, None) {
        BindResultIsUnique(answers.binders, answers.bindPlugins, status, None);
      }
      if status.Some? {
        ghost var failed := st;
        before, settled := HandleBindingCycleError(c, status.value, answers.lookup);
        ReachesTransitive(ttl, old(st), failed, before);
        return;
      }
      Do(c, FinishBound);
    }

    // Attempt c at pod p has ended in failure: on the way from start to the present
    // state its failure handler was called with the informer's answer.
    ghost predicate FailedAndSettled(c: nat, p: Pod, found: Lookup, start: State, before: State, settled: State)
      reads this
    {
      && c < |st.cycles| && st.cycles[c].pc.Ended?
      && (st.cycles[c].pc.sameUid <==> (found.PodPending? ==> found.uid == p))
      && Settles(before, settled, c, p, found)
      && Reaches(ttl, start, before) && Reaches(ttl, settled, st)
    }

    // ScheduleOne up to the start of the goroutine; c is the new attempt.  atCheck is
    // the state in which the pod's assumption was looked up, atAssume the one in which
    // the attempt tried to assume it, before and settled those around the failure handler.
    method ScheduleOne(p: Pod, answers: Answers)
      returns (c: nat, spawned: bool, ghost atCheck: State, ghost atAssume: State, ghost before: State, ghost settled: State)
      requires Valid() && Enabled(ttl, st, Pop(p))
      modifies this
      ensures Valid() && c < |st.cycles| && c == |old(st.cycles)| && st.cycles[c].pod == p
      ensures Reaches(ttl, old(Apply(st, Pop(p))), atCheck)
      ensures Skips(answers, atCheck, p) ==> !spawned && st.cycles[c].pc == Skipped
      ensures !Skips(answers, atCheck, p) ==>
                if spawned then
                  st.cycles[c].pc == Waiting && CycleOutcome(answers, atAssume, p, None, AfterReserve(InScheduling))
                else
                  && st.cycles[c].pc.Ended?
                  && CycleOutcome(answers, atAssume, p, Some(st.cycles[c].pc.why), st.cycles[c].pc.at)
      ensures spawned ==> st.cycles[c].host == answers.host.value
      ensures !spawned && !Skips(answers, atCheck, p) ==>
                FailedAndSettled(c, p, answers.lookup, atCheck, before, settled)
      ensures !Skips(answers, atCheck, p) && answers.host.Some? ==>
                AboutToAssume(atAssume, c, p, answers.host.value) && Reaches(ttl, atCheck, atAssume)
    {
      c := |st.cycles|;
      spawned := false;
      TakeStep(Pop(p));
      Interfere(c);
      atCheck, atAssume, before, settled := st, st, st, st;
      var skip := SkipPodSchedule(c, answers);
      if skip {
        return;
      }
      ghost var begun := st;
      var status;
      status, atAssume := SchedulingCycle(c, answers);
      ReachesTransitive(ttl, atCheck, begun, st);
      if answers.host.Some? {
        ReachesTransitive(ttl, atCheck, begun, atAssume);
      }
      if status.Some? {
        before := st;
        settled := HandleSchedulingFailure(c, answers.lookup);
        return;
      }
      spawned := true;
    }
  }
}
