// The queue's in-flight set: who keeps a pod in flight, who takes it out, and
// why every attempt comes to its end.
module LifecycleQueue {
  import opened Common
  import opened Lifecycle

  // The attempt has popped its pod and not yet released it.  A skipped attempt
  // never does (the source returns without calling Done), nor does one whose pod
  // was replaced by another with a different UID.
  predicate KeepsInFlight(pc: PC) {
    match pc
    case EndedBound => false
    case MovingLater(sameUid) => !sameUid
    case Ended(_, _, _, sameUid) => !sameUid
    case _ => true
  }

  ghost predicate Kept(s: State, p: Pod) {
    exists c :: 0 <= c < |s.cycles| && s.cycles[c].pod == p && KeepsInFlight(s.cycles[c].pc)
  }

  ghost predicate FlightInv(s: State) {
    forall p :: p in s.inFlight ==> Kept(s, p)
  }

  // An attempt stops keeping its pod in flight exactly in the step that takes the
  // pod out of the queue's in-flight set.
  lemma FlowReleases(s: State, p: Pod, pc: PC, a: Action, forgot: bool)
    requires Fires(pc, a)
    ensures KeepsInFlight(pc) && !KeepsInFlight(After(pc, a, p, forgot)) ==> p !in QueueAfter(s, p, a).inFlight
    ensures QueueAfter(s, p, a).inFlight <= s.inFlight
  {
  }

  lemma StepKeepsFlight(ttl: nat, s: State, step: Step)
    requires FlightInv(s) && Enabled(ttl, s, step)
    ensures FlightInv(Apply(s, step))
  {
    var s' := Apply(s, step);
    forall q | q in s'.inFlight ensures Kept(s', q) {
      if step.Pop? && q == step.p {
        assert s'.cycles[|s.cycles|].pod == q;
      } else {
        if step.Act? {
          var cycle := s.cycles[step.c];
          FlowReleases(s, cycle.pod, cycle.pc, step.action, CanForget(s.cache, cycle.pod, cycle.host));
        }
        KeptStays(s, step, q);
      }
    }
  }

  lemma KeptStays(s: State, step: Step, q: Pod)
    requires step.Act? ==> step.c < |s.cycles| && Fires(s.cycles[step.c].pc, step.action)
    requires Kept(s, q)
    requires (step.Act? && s.cycles[step.c].pod == q && KeepsInFlight(s.cycles[step.c].pc)) ==>
               KeepsInFlight(Apply(s, step).cycles[step.c].pc)
    ensures Kept(Apply(s, step), q)
  {
    var s' := Apply(s, step);
    var c :| 0 <= c < |s.cycles| && s.cycles[c].pod == q && KeepsInFlight(s.cycles[c].pc);
    assert s'.cycles[c].pod == q;
  }

  lemma {:induction false} RunKeepsFlight(ttl: nat, s: State, steps: seq<Step>)
    requires FlightInv(s) && Exec(ttl, s, steps).Some?
    ensures FlightInv(Exec(ttl, s, steps).value)
    decreases |steps|
  {
    if |steps| > 0 {
      StepKeepsFlight(ttl, s, steps[0]);
      RunKeepsFlight(ttl, Apply(s, steps[0]), steps[1..]);
    }
  }

  // A pod stays in flight only on account of an attempt that is under way, was
  // skipped, or had its pod replaced: once all attempts at a pod have ended
  // otherwise, it is not in flight.
  lemma NothingLeaks(ttl: nat, s: State, p: Pod)
    requires Reachable(ttl, s)
    requires forall c :: 0 <= c < |s.cycles| && s.cycles[c].pod == p ==>
               s.cycles[c].pc.EndedBound? || (s.cycles[c].pc.Ended? && s.cycles[c].pc.sameUid)
    ensures p !in s.inFlight
  {
    var steps :| Exec(ttl, Init(), steps) == Some(s);
    RunKeepsFlight(ttl, Init(), steps);
  }

  predicate FindsPod(step: Step, p: Pod) {
    step.Act? && step.action.Handle? && step.action.found.PodPending? && step.action.found.uid == p
  }

  // A pod left in flight by a skipped attempt stays so while no new attempt at it
  // begins: no step but a failure handler that happens to find it takes it out.
  lemma SkippedPodStaysInFlight(ttl: nat, s: State, step: Step, p: Pod)
    requires Enabled(ttl, s, step) && p in s.inFlight
    requires forall c :: 0 <= c < |s.cycles| && s.cycles[c].pod == p ==> Over(s.cycles[c].pc)
    requires !FindsPod(step, p)
    ensures p in Apply(s, step).inFlight
  {
  }

  // No new attempt at the pod, and no failure handler that finds it.
  ghost predicate LeavesAlone(steps: seq<Step>, p: Pod) {
    forall i :: 0 <= i < |steps| ==> steps[i] != Pop(p) && !FindsPod(steps[i], p)
  }

  // The same over whole runs: without another attempt at the pod and without a
  // failure handler that finds it, it never leaves the in-flight set.
  lemma {:induction false} SkippedPodNeverLeaves(ttl: nat, s: State, steps: seq<Step>, p: Pod)
    requires Exec(ttl, s, steps).Some? && p in s.inFlight
    requires forall c :: 0 <= c < |s.cycles| && s.cycles[c].pod == p ==> Over(s.cycles[c].pc)
    requires LeavesAlone(steps, p)
    ensures p in Exec(ttl, s, steps).value.inFlight
    decreases |steps|
  {
    if |steps| > 0 {
      SkippedPodStaysInFlight(ttl, s, steps[0], p);
      assert forall i :: 0 <= i < |steps| - 1 ==> steps[1..][i] == steps[i + 1];
      SkippedPodNeverLeaves(ttl, Apply(s, steps[0]), steps[1..], p);
    }
  }

  // ---------- exactly when a pod is in flight ----------

  // Attempt c is the only attempt there has been at pod p.
  ghost predicate Alone(s: State, c: nat, p: Pod) {
    && c < |s.cycles| && s.cycles[c].pod == p
    && forall d :: 0 <= d < |s.cycles| && d != c ==> s.cycles[d].pod != p
  }

  // The failure handler of an attempt at another pod finds p under that pod's name.
  predicate ForeignFind(s: State, step: Step, p: Pod) {
    FindsPod(step, p) && step.c < |s.cycles| && s.cycles[step.c].pod != p
  }

  ghost predicate NoForeignFind(ttl: nat, s: State, steps: seq<Step>, p: Pod)
    requires Exec(ttl, s, steps).Some?
    decreases |steps|
  {
    |steps| > 0 ==> !ForeignFind(s, steps[0], p) && NoForeignFind(ttl, Apply(s, steps[0]), steps[1..], p)
  }

  ghost predicate AloneInv(s: State, p: Pod) {
    forall c :: 0 <= c < |s.cycles| && Alone(s, c, p) && KeepsInFlight(s.cycles[c].pc) ==> p in s.inFlight
  }

  // An attempt that keeps its pod in flight does not take it out.
  lemma FlowKeepsFlight(s: State, p: Pod, pc: PC, a: Action, forgot: bool)
    requires Fires(pc, a) && KeepsInFlight(After(pc, a, p, forgot))
    ensures KeepsInFlight(pc)
    ensures p in s.inFlight ==> p in QueueAfter(s, p, a).inFlight
  {
  }

  lemma StepKeepsAlone(ttl: nat, s: State, step: Step, p: Pod)
    requires AloneInv(s, p) && Enabled(ttl, s, step) && !ForeignFind(s, step, p)
    ensures AloneInv(Apply(s, step), p)
  {
    var s' := Apply(s, step);
    forall c | 0 <= c < |s'.cycles| && Alone(s', c, p) && KeepsInFlight(s'.cycles[c].pc) ensures p in s'.inFlight {
      if c < |s.cycles| {
        assert s'.cycles[c].pod == s.cycles[c].pod;
        assert forall d :: 0 <= d < |s.cycles| ==> s'.cycles[d].pod == s.cycles[d].pod;
        assert Alone(s, c, p);
        if step.Act? && step.c == c {
          FlowKeepsFlight(s, p, s.cycles[c].pc, step.action, CanForget(s.cache, p, s.cycles[c].host));
        }
      }
    }
  }

  lemma {:induction false} RunKeepsAlone(ttl: nat, s: State, steps: seq<Step>, p: Pod)
    requires AloneInv(s, p) && Exec(ttl, s, steps).Some? && NoForeignFind(ttl, s, steps, p)
    ensures AloneInv(Exec(ttl, s, steps).value, p)
    decreases |steps|
  {
    if |steps| > 0 {
      StepKeepsAlone(ttl, s, steps[0], p);
      RunKeepsAlone(ttl, Apply(s, steps[0]), steps[1..], p);
    }
  }

  // A pod with a single attempt, which no other attempt's handler found, is in flight
  // exactly while the attempt goes on, and for ever after exactly when the attempt
  // was skipped or its handler found another pod under the name.
  lemma InFlightExactly(ttl: nat, steps: seq<Step>, s: State, p: Pod, c: nat)
    requires Exec(ttl, Init(), steps) == Some(s) && NoForeignFind(ttl, Init(), steps, p)
    requires Alone(s, c, p)
    ensures p in s.inFlight <==> KeepsInFlight(s.cycles[c].pc)
    ensures Over(s.cycles[c].pc) ==>
              (p in s.inFlight <==> s.cycles[c].pc.Skipped? || (s.cycles[c].pc.Ended? && !s.cycles[c].pc.sameUid))
  {
    RunKeepsFlight(ttl, Init(), steps);
    RunKeepsAlone(ttl, Init(), steps, p);
  }

  // The failure handler takes the popped pod out of flight exactly when the
  // informer's pending pod, if it finds one, is the same pod.
  lemma HandlerReleasesIff(s: State, c: nat, found: Lookup)
    requires c < |s.cycles| && Fires(s.cycles[c].pc, Handle(found)) && s.cycles[c].pod in s.inFlight
    ensures s.cycles[c].pod !in Apply(s, Act(c, Handle(found))).inFlight
       <==> (found.PodPending? ==> found.uid == s.cycles[c].pod)
  {
  }

  // Nothing but a pop takes a pod out of the queue.
  lemma {:induction false} QueuedUntilPopped(ttl: nat, s: State, steps: seq<Step>, p: Pod)
    requires Exec(ttl, s, steps).Some? && InQueue(s, p)
    requires Pop(p) !in steps
    ensures InQueue(Exec(ttl, s, steps).value, p)
    decreases |steps|
  {
    if |steps| > 0 {
      QueuedUntilPopped(ttl, Apply(s, steps[0]), steps[1..], p);
    }
  }

  // A failed pod that the informer still has pending is queued again, and stays
  // queued, in the unschedulable pool or ready, until it is popped for a new attempt.
  lemma FailedPodIsRetried(ttl: nat, s: State, c: nat, found: Lookup, steps: seq<Step>)
    requires Enabled(ttl, s, Act(c, Handle(found))) && found.PodPending?
    requires Exec(ttl, Apply(s, Act(c, Handle(found))), steps).Some? && Pop(found.uid) !in steps
    ensures InQueue(Exec(ttl, Apply(s, Act(c, Handle(found))), steps).value, found.uid)
  {
    QueuedUntilPopped(ttl, Apply(s, Act(c, Handle(found))), steps, found.uid);
  }

  // A step of the rest of the world that does not move p.
  predicate LeavesPooled(step: Step, c: nat, p: Pod) {
    match step
    case Act(d, a) => d != c && (a.Move? ==> p !in a.pods)
    case Requeue(pods) => p !in pods
    case Add(q) => q != p
    case _ => true
  }

  lemma {:induction false} StaysPooled(ttl: nat, s: State, steps: seq<Step>, c: nat, p: Pod)
    requires Exec(ttl, s, steps).Some? && c < |s.cycles| && p in s.unschedulable
    requires forall i :: 0 <= i < |steps| ==> LeavesPooled(steps[i], c, p)
    ensures var t := Exec(ttl, s, steps).value;
      c < |t.cycles| && t.cycles[c] == s.cycles[c] && p in t.unschedulable
    decreases |steps|
  {
    if |steps| > 0 {
      assert LeavesPooled(steps[0], c, p);
      assert forall i :: 0 <= i < |steps| - 1 ==> steps[1..][i] == steps[i + 1];
      StaysPooled(ttl, Apply(s, steps[0]), steps[1..], c, p);
    }
  }

  // A rejected pod whose forget succeeded and which the handler puts in the
  // unschedulable pool is still there after its attempt's own move, whatever happens
  // in between, unless somebody else moves it.
  lemma RejectedPodStaysPooled(ttl: nat, s: State, c: nat, between: seq<Step>, t: State, pods: set<Pod>)
    requires c < |s.cycles| && s.cycles[c].pc == Handling(AfterReserve(InBinding), Rejected, true)
    requires s.cycles[c].pod !in s.ready
    requires Exec(ttl, Apply(s, Act(c, Handle(PodPending(s.cycles[c].pod, false)))), between) == Some(t)
    requires forall i :: 0 <= i < |between| ==> LeavesPooled(between[i], c, s.cycles[c].pod)
    requires Enabled(ttl, t, Act(c, Move(pods)))
    ensures s.cycles[c].pod in Apply(t, Act(c, Move(pods))).unschedulable
    ensures Apply(t, Act(c, Move(pods))).cycles[c].pc == Ended(AfterReserve(InBinding), Rejected, true, true)
  {
    StaysPooled(ttl, Apply(s, Act(c, Handle(PodPending(s.cycles[c].pod, false)))), between, c, s.cycles[c].pod);
  }

  // A pod is not in the pool and ready at once: what moves from one to the other leaves
  // the one and arrives in the other.
  lemma StepKeepsPlaces(ttl: nat, s: State, step: Step)
    requires s.ready !! s.unschedulable && Enabled(ttl, s, step)
    ensures Apply(s, step).ready !! Apply(s, step).unschedulable
  {
  }

  lemma {:induction false} RunKeepsPlaces(ttl: nat, s: State, steps: seq<Step>)
    requires s.ready !! s.unschedulable && Exec(ttl, s, steps).Some?
    ensures Exec(ttl, s, steps).value.ready !! Exec(ttl, s, steps).value.unschedulable
    decreases |steps|
  {
    if |steps| > 0 {
      StepKeepsPlaces(ttl, s, steps[0]);
      RunKeepsPlaces(ttl, Apply(s, steps[0]), steps[1..]);
    }
  }

  // In every reachable state the pods of a move leave the pool and become ready, and no
  // other pod changes its place.
  lemma MoveMovesExactly(ttl: nat, s: State, c: nat, pods: set<Pod>)
    requires Reachable(ttl, s) && Enabled(ttl, s, Act(c, Move(pods)))
    ensures var s' := Apply(s, Act(c, Move(pods)));
      && s'.ready !! s'.unschedulable
      && (forall p :: p in pods ==> p in s'.ready && p !in s'.unschedulable)
      && (forall p :: p !in pods ==> (p in s'.ready <==> p in s.ready) && (p in s'.unschedulable <==> p in s.unschedulable))
  {
    var steps :| Exec(ttl, Init(), steps) == Some(s);
    RunKeepsPlaces(ttl, Init(), steps);
    StepKeepsPlaces(ttl, s, Act(c, Move(pods)));
  }

  // ---------- every attempt ends ----------

  function StepsLeft(pc: PC): nat {
    match pc
    case Popped => 14
    case Skipped => 0
    case Finding => 13
    case HostFound => 12
    case PodAssumed => 11
    case PodReserved => 10
    case Waiting => 9
    case PreBinding => 8
    case Binding => 7
    case Bound => 2
    case Sent => 1
    case EndedBound => 0
    case Unreserving(_, _) => 6
    case Forgetting(_, _) => 5
    case MovingNow => 4
    case Handling(_, _, _) => 3
    case MovingLater(_) => 1
    case Ended(_, _, _, _) => 0
  }

  predicate Over(pc: PC) {
    pc.Skipped? || pc.EndedBound? || pc.Ended?
  }

  // Each own step brings an attempt closer to its end.
  lemma OwnStepAdvances(pc: PC, a: Action, p: Pod, forgot: bool)
    requires Fires(pc, a)
    ensures StepsLeft(After(pc, a, p, forgot)) < StepsLeft(pc)
  {
  }

  // An attempt that is not over has a step it can take, whatever the others do,
  // the scheduling thread's attempt included.
  lemma NeverStuck(ttl: nat, s: State, c: nat)
    requires c < |s.cycles| && !Over(s.cycles[c].pc)
    ensures exists a :: Enabled(ttl, s, Act(c, a))
  {
    var a := match s.cycles[c].pc
      case Popped => Proceed(true)
      case Finding => FindFail(Errored)
      case HostFound => AssumeFail
      case PodAssumed => ReserveOk
      case PodReserved => PermitOk
      case Waiting => WaitOk
      case PreBinding => PreBindOk
      case Binding => BindOk
      case Bound => SendSuccess
      case Sent => FinishBound
      case Unreserving(_, _) => Unreserve
      case Forgetting(_, _) => Forget
      case Handling(_, _, _) => Handle(PodGone)
      case _ => Move({});
    assert Enabled(ttl, s, Act(c, a));
  }
}
