// The life of a pod in the scheduler (scheduler/schedule_one.go:65-393, 943-1082)
// as a transition system: one scheduling thread, any number of binding
// goroutines, the informers, and the scheduler's cache and queue.
module Lifecycle {
  import opened Common

  // A pod, identified by its UID.
  type Pod = nat

  // ---------- where a scheduling attempt is ----------

  // A status that is not a success is a rejection or an error.
  datatype FailKind = Rejected | Errored

  datatype Phase = InScheduling | InBinding

  // The step of the attempt that failed.
  datatype Origin = NoFit | NoAssume | AfterReserve(phase: Phase)

  // forgotten: ForgetPod succeeded.  sameUid: the pod handed back to the queue
  // has the UID of the pod that was popped.
  datatype PC =
    // the scheduling thread
    | Popped
    | Skipped
    | Finding
    | HostFound
    | PodAssumed
    | PodReserved
    // the binding goroutine
    | Waiting
    | PreBinding
    | Binding
    | Bound
    | Sent
    | EndedBound
    // failure, in either
    | Unreserving(phase: Phase, why: FailKind)
    | Forgetting(phase: Phase, why: FailKind)
    | MovingNow
    | Handling(at: Origin, why: FailKind, forgotten: bool)
    | MovingLater(sameUid: bool)
    | Ended(at: Origin, why: FailKind, forgotten: bool, sameUid: bool)

  // What the failure handler finds in the informer's store: no such pod, a pod
  // with a node, or a pending pod, which goes to the unschedulable pool or
  // straight to the backoff queue.
  datatype Lookup = PodGone | PodHasNode | PodPending(uid: Pod, backoff: bool)

  datatype SkipReason = NoProfile | Deleting | AlreadyAssumed

  datatype Action =
    | SkipPod(reason: SkipReason)
    | Proceed(checkFailed: bool)
    | FindOk(host: NodeName)
    | FindFail(kind: FailKind)
    | AssumeOk
    | AssumeFail
    | ReserveOk
    | ReserveFail(kind: FailKind)
    | PermitOk
    | PermitFail(kind: FailKind)
    | WaitOk
    | PreBindOk
    | BindOk
    | BindingFail(kind: FailKind)
    | SendSuccess
    | FinishBound
    | Unreserve
    | Forget
    | Move(pods: set<Pod>)
    | Handle(found: Lookup)

  predicate Fires(pc: PC, a: Action) {
    match pc
    case Popped => a.SkipPod? || a.Proceed?
    case Skipped => false
    case Finding => a.FindOk? || a.FindFail?
    case HostFound => a.AssumeOk? || a.AssumeFail?
    case PodAssumed => a.ReserveOk? || a.ReserveFail?
    case PodReserved => a.PermitOk? || a.PermitFail?
    case Waiting => a.WaitOk? || a.BindingFail?
    case PreBinding => a.PreBindOk? || a.BindingFail?
    case Binding => a.BindOk? || a.BindingFail?
    case Bound => a.SendSuccess?
    case Sent => a.FinishBound?
    case EndedBound => false
    case Unreserving(_, _) => a.Unreserve?
    case Forgetting(_, _) => a.Forget?
    case MovingNow => a.Move?
    case Handling(_, _, _) => a.Handle?
    case MovingLater(_) => a.Move?
    case Ended(_, _, _, _) => false
  }

  // The control flow of an attempt at pod p; forgot is the outcome of ForgetPod.
  function After(pc: PC, a: Action, p: Pod, forgot: bool): PC
    requires Fires(pc, a)
  {
    match pc
    case Popped => if a.SkipPod? then Skipped else Finding
    case Finding => if a.FindOk? then HostFound else Handling(NoFit, a.kind, false)
    case HostFound => if a.AssumeOk? then PodAssumed else Handling(NoAssume, Errored, false)
    case PodAssumed => if a.ReserveOk? then PodReserved else Unreserving(InScheduling, a.kind)
    case PodReserved => if a.PermitOk? then Waiting else Unreserving(InScheduling, a.kind)
    case Waiting => if a.WaitOk? then PreBinding else Unreserving(InBinding, a.kind)
    case PreBinding => if a.PreBindOk? then Binding else Unreserving(InBinding, a.kind)
    case Binding => if a.BindOk? then Bound else Unreserving(InBinding, a.kind)
    case Bound => Sent
    case Sent => EndedBound
    case Unreserving(phase, why) => Forgetting(phase, why)
    case Forgetting(phase, why) =>
      if phase == InBinding && forgot && why == Errored then MovingNow
      else Handling(AfterReserve(phase), why, forgot)
    case MovingNow => Handling(AfterReserve(InBinding), Errored, true)
    case Handling(at, why, forgotten) =>
      var sameUid := a.found.PodPending? ==> a.found.uid == p;
      if DefersMove(at, why, forgotten) then MovingLater(sameUid)
      else Ended(at, why, forgotten, sameUid)
    case MovingLater(sameUid) => Ended(AfterReserve(InBinding), Rejected, true, sameUid)
  }

  // The deferred AssignedPodDelete move of handleBindingCycleError.
  predicate DefersMove(at: Origin, why: FailKind, forgotten: bool) {
    at == AfterReserve(InBinding) && why == Rejected && forgotten
  }

  // ---------- the trace ----------

  datatype Kind =
    | ScheduleSuccess
    | Reserved
    | Unreserved
    | Bind
    | BindingSuccess
    | SettledBound
    | SettledFailed
    | Moved(why: FailKind)

  datatype Event = Event(cycle: nat, kind: Kind, pod: Pod, node: NodeName)

  function Emits(pc: PC, a: Action): Option<Kind>
    requires Fires(pc, a)
  {
    match a
    case FindOk(_) => Some(ScheduleSuccess)
    case ReserveOk => Some(Reserved)
    case ReserveFail(_) => Some(Reserved)
    case Unreserve => Some(Unreserved)
    case BindOk => Some(Bind)
    case SendSuccess => Some(BindingSuccess)
    case FinishBound => Some(SettledBound)
    case Handle(_) => Some(SettledFailed)
    case Move(_) => Some(Moved(if pc.MovingNow? then Errored else Rejected))
    case _ => None
  }

  // ---------- the state ----------

  // The cache's record of a pod.  owner is history: the attempt that assumed it.
  datatype Entry =
    | Assumed(node: NodeName, bindingFinished: bool, owner: nat)
    | Confirmed(node: NodeName)

  type Cache = map<Pod, Entry>

  // One attempt.  epoch is history: how often the informer had removed the pod
  // from the cache when the attempt assumed it.
  datatype Cycle = Cycle(pod: Pod, host: NodeName, pc: PC, epoch: nat)

  // The life of a pod between two removals by the informer.
  datatype Incarnation = Incarnation(pod: Pod, epoch: nat)

  // robbed and torn are history: the incarnations whose entry was forgotten by an
  // attempt other than the one that assumed it, and those of them whose own
  // attempt was not about to forget it in the scheduling thread anyway.
  datatype State = State(
    cache: Cache,
    cycles: seq<Cycle>,
    ready: set<Pod>,
    unschedulable: set<Pod>,
    inFlight: set<Pod>,
    epochs: map<Pod, nat>,
    robbed: set<Incarnation>,
    torn: set<Incarnation>,
    trace: seq<Event>)

  function Init(): State {
    State(map[], [], {}, {}, {}, map[], {}, {}, [])
  }

  function EpochOf(epochs: map<Pod, nat>, p: Pod): nat {
    if p in epochs then epochs[p] else 0
  }

  function Now(epochs: map<Pod, nat>, p: Pod): Incarnation {
    Incarnation(p, EpochOf(epochs, p))
  }

  predicate IsAssumed(cache: Cache, p: Pod) {
    p in cache && cache[p].Assumed?
  }

  // ForgetPod succeeds only on a pod assumed on the same node.
  predicate CanForget(cache: Cache, p: Pod, host: NodeName) {
    IsAssumed(cache, p) && cache[p].node == host
  }

  predicate InSchedulingThread(pc: PC) {
    match pc
    case Popped => true
    case Finding => true
    case HostFound => true
    case PodAssumed => true
    case PodReserved => true
    case Unreserving(phase, _) => phase == InScheduling
    case Forgetting(phase, _) => phase == InScheduling
    case Handling(at, _, _) => at != AfterReserve(InBinding)
    case _ => false
  }

  // The attempt has assumed its pod and has not forgotten it.
  predicate Holds(pc: PC) {
    match pc
    case PodAssumed => true
    case PodReserved => true
    case Waiting => true
    case PreBinding => true
    case Binding => true
    case Bound => true
    case Sent => true
    case EndedBound => true
    case Unreserving(_, _) => true
    case Forgetting(_, _) => true
    case _ => false
  }

  // It failed in the scheduling thread and is about to forget its pod; until then
  // no other attempt can assume it.
  predicate Doomed(pc: PC) {
    (pc.Unreserving? || pc.Forgetting?) && pc.phase == InScheduling
  }

  // It holds its pod and has not bound it.
  predicate MayForget(pc: PC) {
    Holds(pc) && !pc.Bound? && !pc.Sent? && !pc.EndedBound?
  }

  // ---------- the steps ----------

  datatype Step =
    | Act(c: nat, action: Action)
    | Add(p: Pod)
    | Requeue(pods: set<Pod>)
    | Pop(p: Pod)
    | Confirm(p: Pod, node: NodeName)
    | Remove(p: Pod)
    | Expire(p: Pod)

  // ttl is durationToExpireAssumedPod; zero means never.
  predicate Enabled(ttl: nat, s: State, step: Step) {
    match step
    case Act(c, a) => c < |s.cycles| && Fires(s.cycles[c].pc, a) && Guard(s, s.cycles[c], a)
    case Add(_) => true
    case Requeue(pods) => pods <= s.unschedulable
    case Pop(p) => p in s.ready && forall c :: 0 <= c < |s.cycles| ==> !InSchedulingThread(s.cycles[c].pc)
    case Confirm(_, _) => true
    case Remove(p) => p in s.cache
    case Expire(p) => ttl > 0 && IsAssumed(s.cache, p) && s.cache[p].bindingFinished
  }

  predicate Guard(s: State, cycle: Cycle, a: Action) {
    match a
    case SkipPod(AlreadyAssumed) => IsAssumed(s.cache, cycle.pod)
    case Proceed(checkFailed) => checkFailed || !IsAssumed(s.cache, cycle.pod)
    case AssumeOk => cycle.pod !in s.cache
    case Move(pods) => pods <= s.unschedulable && (cycle.pc.MovingLater? ==> cycle.pod !in pods)
    case _ => true
  }

  function CycleAfter(s: State, cycle: Cycle, a: Action): Cycle
    requires Fires(cycle.pc, a)
  {
    Cycle(cycle.pod,
          if a.FindOk? then a.host else cycle.host,
          After(cycle.pc, a, cycle.pod, CanForget(s.cache, cycle.pod, cycle.host)),
          if a.AssumeOk? then EpochOf(s.epochs, cycle.pod) else cycle.epoch)
  }

  function CacheAfter(cache: Cache, c: nat, cycle: Cycle, a: Action): Cache {
    match a
    case AssumeOk => cache[cycle.pod := Assumed(cycle.host, false, c)]
    case Forget => if CanForget(cache, cycle.pod, cycle.host) then cache - {cycle.pod} else cache
    case BindOk => FinishBinding(cache, cycle.pod)
    case BindingFail(_) => if cycle.pc.Binding? then FinishBinding(cache, cycle.pod) else cache
    case _ => cache
  }

  // finishBinding runs whether or not bind succeeded.
  function FinishBinding(cache: Cache, p: Pod): Cache {
    if IsAssumed(cache, p) then cache[p := cache[p].(bindingFinished := true)] else cache
  }

  predicate InQueue(s: State, p: Pod) {
    p in s.ready || p in s.unschedulable
  }

  // The queue after the failure handler: Done, or AddUnschedulableIfNotPresent,
  // which takes the pod it is given out of flight.
  function HandleQueue(s: State, p: Pod, found: Lookup): State {
    match found
    case PodGone => s.(inFlight := s.inFlight - {p})
    case PodHasNode => s.(inFlight := s.inFlight - {p})
    case PodPending(uid, backoff) =>
      s.(inFlight := s.inFlight - {uid},
         ready := if backoff && !InQueue(s, uid) then s.ready + {uid} else s.ready,
         unschedulable := if !backoff && !InQueue(s, uid) then s.unschedulable + {uid} else s.unschedulable)
  }

  function QueueAfter(s: State, p: Pod, a: Action): State {
    match a
    case FinishBound => s.(inFlight := s.inFlight - {p})
    case Handle(found) => HandleQueue(s, p, found)
    case Move(pods) => s.(unschedulable := s.unschedulable - pods, ready := s.ready + pods)
    case _ => s
  }

  function TraceAfter(trace: seq<Event>, c: nat, before: PC, after: Cycle, a: Action): seq<Event>
    requires Fires(before, a)
  {
    var kind := Emits(before, a);
    if kind.Some? then trace + [Event(c, kind.value, after.pod, after.host)] else trace
  }

  function Apply(s: State, step: Step): State
    requires step.Act? ==> step.c < |s.cycles| && Fires(s.cycles[step.c].pc, step.action)
  {
    match step
    case Act(c, a) =>
      var cycle := s.cycles[c];
      var after := CycleAfter(s, cycle, a);
      QueueAfter(s, cycle.pod, a).(
        cycles := s.cycles[c := after],
        robbed := if Robs(s, c, a) then s.robbed + {Now(s.epochs, cycle.pod)} else s.robbed,
        torn := if Robs(s, c, a) && !OwnerIsDoomed(s, cycle.pod) then s.torn + {Now(s.epochs, cycle.pod)} else s.torn,
        cache := CacheAfter(s.cache, c, cycle, a),
        trace := TraceAfter(s.trace, c, cycle.pc, after, a))
    case Add(p) => s.(ready := s.ready + {p}, unschedulable := s.unschedulable - {p})
    case Requeue(pods) => s.(unschedulable := s.unschedulable - pods, ready := s.ready + pods)
    case Pop(p) =>
      s.(ready := s.ready - {p}, inFlight := s.inFlight + {p}, cycles := s.cycles + [Cycle(p, "", Popped, 0)])
    case Confirm(p, node) => s.(cache := s.cache[p := Confirmed(node)])
    case Remove(p) =>
      s.(cache := s.cache - {p},
         epochs := s.epochs[p := EpochOf(s.epochs, p) + 1])
    case Expire(p) => s.(cache := s.cache - {p})
  }

  // The action forgets an entry that another attempt made.
  predicate Robs(s: State, c: nat, a: Action)
    requires c < |s.cycles|
  {
    var p := s.cycles[c].pod;
    a.Forget? && CanForget(s.cache, p, s.cycles[c].host) && s.cache[p].owner != c
  }

  predicate OwnerIsDoomed(s: State, p: Pod)
    requires IsAssumed(s.cache, p)
  {
    s.cache[p].owner < |s.cycles| && Doomed(s.cycles[s.cache[p].owner].pc)
  }

  // ---------- runs ----------

  ghost function Exec(ttl: nat, s: State, steps: seq<Step>): Option<State>
    decreases |steps|
  {
    if |steps| == 0 then Some(s)
    else if Enabled(ttl, s, steps[0]) then Exec(ttl, Apply(s, steps[0]), steps[1..])
    else None
  }

  ghost predicate Reaches(ttl: nat, s: State, t: State) {
    exists steps :: Exec(ttl, s, steps) == Some(t)
  }

  ghost predicate Reachable(ttl: nat, s: State) {
    Reaches(ttl, Init(), s)
  }
}
