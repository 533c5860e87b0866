// What every run leaves in the trace: each attempt's events, how often and in
// which order.
module LifecycleTrace {
  import opened Common
  import opened Lifecycle

  // How often each kind of event occurred for one attempt.
  datatype Tally = Tally(schedule: nat, reserve: nat, unreserve: nat, bind: nat, sent: nat, settle: nat, move: nat)

  const NOTHING := Tally(0, 0, 0, 0, 0, 0, 0)

  function Bump(t: Tally, k: Kind): Tally {
    match k
    case ScheduleSuccess => t.(schedule := t.schedule + 1)
    case Reserved => t.(reserve := t.reserve + 1)
    case Unreserved => t.(unreserve := t.unreserve + 1)
    case Bind => t.(bind := t.bind + 1)
    case BindingSuccess => t.(sent := t.sent + 1)
    case SettledBound => t.(settle := t.settle + 1)
    case SettledFailed => t.(settle := t.settle + 1)
    case Moved(_) => t.(move := t.move + 1)
  }

  function TallyOf(trace: seq<Event>, c: nat): Tally {
    if |trace| == 0 then NOTHING
    else
      var last := trace[|trace| - 1];
      var before := TallyOf(trace[..|trace| - 1], c);
      if last.cycle == c then Bump(before, last.kind) else before
  }

  lemma TallyAppend(trace: seq<Event>, e: Event, c: nat)
    ensures TallyOf(trace + [e], c) == if e.cycle == c then Bump(TallyOf(trace, c), e.kind) else TallyOf(trace, c)
  {
  }

  // The tally that belongs to each place in the control flow.
  function Expected(pc: PC): Tally {
    match pc
    case Popped => NOTHING
    case Skipped => NOTHING
    case Finding => NOTHING
    case HostFound => Tally(1, 0, 0, 0, 0, 0, 0)
    case PodAssumed => Tally(1, 0, 0, 0, 0, 0, 0)
    case PodReserved => Tally(1, 1, 0, 0, 0, 0, 0)
    case Waiting => Tally(1, 1, 0, 0, 0, 0, 0)
    case PreBinding => Tally(1, 1, 0, 0, 0, 0, 0)
    case Binding => Tally(1, 1, 0, 0, 0, 0, 0)
    case Bound => Tally(1, 1, 0, 1, 0, 0, 0)
    case Sent => Tally(1, 1, 0, 1, 1, 0, 0)
    case EndedBound => Tally(1, 1, 0, 1, 1, 1, 0)
    case Unreserving(_, _) => Tally(1, 1, 0, 0, 0, 0, 0)
    case Forgetting(_, _) => Tally(1, 1, 1, 0, 0, 0, 0)
    case MovingNow => Tally(1, 1, 1, 0, 0, 0, 0)
    case Handling(at, why, forgotten) =>
      Failed(at).(move := if at == AfterReserve(InBinding) && forgotten && why == Errored then 1 else 0)
    case MovingLater(_) => Tally(1, 1, 1, 0, 0, 1, 0)
    case Ended(at, _, forgotten, _) =>
      Failed(at).(settle := 1, move := if at == AfterReserve(InBinding) && forgotten then 1 else 0)
  }

  function Failed(at: Origin): Tally {
    match at
    case NoFit => NOTHING
    case NoAssume => Tally(1, 0, 0, 0, 0, 0, 0)
    case AfterReserve(_) => Tally(1, 1, 1, 0, 0, 0, 0)
  }

  // Which events may follow the events counted in t.
  predicate Allowed(k: Kind, t: Tally) {
    match k
    case ScheduleSuccess => t == NOTHING
    case Reserved => t.schedule == 1 && t.reserve == 0 && t.settle == 0
    case Unreserved => t.reserve == 1 && t.unreserve == 0 && t.bind == 0 && t.settle == 0
    case Bind => t.reserve == 1 && t.unreserve == 0 && t.bind == 0 && t.settle == 0
    case BindingSuccess => t.schedule == 1 && t.bind == 1 && t.sent == 0 && t.unreserve == 0 && t.settle == 0
    case SettledBound => t.sent == 1 && t.unreserve == 0 && t.settle == 0
    case SettledFailed => t.bind == 0 && t.unreserve == t.reserve && t.settle == 0
    case Moved(why) => t.unreserve == 1 && t.move == 0 && t.settle == (if why == Rejected then 1 else 0)
  }

  // The step emits what the tallies on both sides say.
  ghost predicate Matches(pc: PC, a: Action, after: PC)
    requires Fires(pc, a)
  {
    match Emits(pc, a)
    case None => Expected(after) == Expected(pc)
    case Some(k) => Expected(after) == Bump(Expected(pc), k) && Allowed(k, Expected(pc))
  }

  predicate Failing(pc: PC) {
    pc.Unreserving? || pc.Forgetting? || pc.MovingNow? || pc.Handling? || pc.MovingLater?
  }

  lemma FailureMatchesTally(pc: PC, a: Action, p: Pod, forgot: bool)
    requires Fires(pc, a) && Failing(pc)
    ensures Matches(pc, a, After(pc, a, p, forgot))
  {
  }

  lemma SuccessMatchesTally(pc: PC, a: Action, p: Pod, forgot: bool)
    requires Fires(pc, a) && !Failing(pc)
    ensures Matches(pc, a, After(pc, a, p, forgot))
  {
  }

  // So does every step along the control flow.
  lemma FlowMatchesTally(pc: PC, a: Action, p: Pod, forgot: bool)
    requires Fires(pc, a)
    ensures Matches(pc, a, After(pc, a, p, forgot))
  {
    if Failing(pc) {
      FailureMatchesTally(pc, a, p, forgot);
    } else {
      SuccessMatchesTally(pc, a, p, forgot);
    }
  }

  predicate Early(pc: PC) {
    pc.Popped? || pc.Skipped? || pc.Finding?
  }

  ghost predicate EventInv(s: State, j: nat)
    requires j < |s.trace|
  {
    var e := s.trace[j];
    && e.cycle < |s.cycles|
    && e.pod == s.cycles[e.cycle].pod && e.node == s.cycles[e.cycle].host
    && !Early(s.cycles[e.cycle].pc)
    && Allowed(e.kind, TallyOf(s.trace[..j], e.cycle))
  }

  ghost predicate TraceInv(s: State) {
    && (forall c :: 0 <= c < |s.cycles| ==> TallyOf(s.trace, c) == Expected(s.cycles[c].pc))
    && (forall j :: 0 <= j < |s.trace| ==> EventInv(s, j))
  }

  lemma InitTrace()
    ensures TraceInv(Init())
  {
  }

  // ---------- every step keeps the invariant ----------

  lemma SilentStep(s: State, s': State, c: nat, after: Cycle)
    requires TraceInv(s) && c < |s.cycles|
    requires s'.cycles == s.cycles[c := after] && s'.trace == s.trace
    requires after.pod == s.cycles[c].pod
    requires !Early(s.cycles[c].pc) ==> !Early(after.pc) && after.host == s.cycles[c].host
    requires Expected(after.pc) == Expected(s.cycles[c].pc)
    ensures TraceInv(s')
  {
    forall j | 0 <= j < |s'.trace| ensures EventInv(s', j) {
      assert EventInv(s, j);
    }
  }

  lemma LoudStep(s: State, s': State, c: nat, after: Cycle, k: Kind)
    requires TraceInv(s) && c < |s.cycles|
    requires s'.cycles == s.cycles[c := after] && s'.trace == s.trace + [Event(c, k, after.pod, after.host)]
    requires after.pod == s.cycles[c].pod && !Early(after.pc)
    requires !Early(s.cycles[c].pc) ==> after.host == s.cycles[c].host
    requires Expected(after.pc) == Bump(Expected(s.cycles[c].pc), k) && Allowed(k, Expected(s.cycles[c].pc))
    ensures TraceInv(s')
  {
    var e := Event(c, k, after.pod, after.host);
    forall d | 0 <= d < |s'.cycles| ensures TallyOf(s'.trace, d) == Expected(s'.cycles[d].pc) {
      TallyAppend(s.trace, e, d);
    }
    forall j | 0 <= j < |s'.trace| ensures EventInv(s', j) {
      if j < |s.trace| {
        assert EventInv(s, j);
        assert s'.trace[..j] == s.trace[..j];
      } else {
        assert s'.trace[..j] == s.trace;
      }
    }
  }

  lemma FlowLeavesEarly(pc: PC, a: Action, p: Pod, forgot: bool)
    requires Fires(pc, a)
    ensures !Early(pc) ==> !Early(After(pc, a, p, forgot)) && !a.FindOk?
    ensures Emits(pc, a).Some? ==> !Early(After(pc, a, p, forgot))
  {
  }

  lemma ActKeepsTrace(s: State, c: nat, a: Action)
    requires TraceInv(s) && c < |s.cycles| && Fires(s.cycles[c].pc, a)
    ensures TraceInv(Apply(s, Act(c, a)))
  {
    var s' := Apply(s, Act(c, a));
    var cycle := s.cycles[c];
    var forgot := CanForget(s.cache, cycle.pod, cycle.host);
    var after := s'.cycles[c];
    FlowMatchesTally(cycle.pc, a, cycle.pod, forgot);
    FlowLeavesEarly(cycle.pc, a, cycle.pod, forgot);
    var k := Emits(cycle.pc, a);
    if k.None? {
      SilentStep(s, s', c, after);
    } else {
      LoudStep(s, s', c, after, k.value);
    }
  }

  lemma {:induction false} NoEvents(trace: seq<Event>, c: nat)
    requires forall j :: 0 <= j < |trace| ==> trace[j].cycle != c
    ensures TallyOf(trace, c) == NOTHING
  {
    if |trace| > 0 {
      NoEvents(trace[..|trace| - 1], c);
    }
  }

  lemma PopKeepsTrace(s: State, p: Pod)
    requires TraceInv(s)
    ensures TraceInv(Apply(s, Pop(p)))
  {
    var s' := Apply(s, Pop(p));
    forall j | 0 <= j < |s.trace| ensures EventInv(s', j) && s.trace[j].cycle != |s.cycles| {
      assert EventInv(s, j);
    }
    NoEvents(s.trace, |s.cycles|);
  }

  lemma StepKeepsTrace(ttl: nat, s: State, step: Step)
    requires TraceInv(s) && Enabled(ttl, s, step)
    ensures TraceInv(Apply(s, step))
  {
    match step
    case Act(c, a) => ActKeepsTrace(s, c, a);
    case Pop(p) => PopKeepsTrace(s, p);
    case _ =>
      var s' := Apply(s, step);
      forall j | 0 <= j < |s'.trace| ensures EventInv(s', j) {
        assert EventInv(s, j);
      }
  }

  lemma {:induction false} RunKeepsTrace(ttl: nat, s: State, steps: seq<Step>)
    requires TraceInv(s) && Exec(ttl, s, steps).Some?
    ensures TraceInv(Exec(ttl, s, steps).value)
    decreases |steps|
  {
    if |steps| > 0 {
      StepKeepsTrace(ttl, s, steps[0]);
      RunKeepsTrace(ttl, Apply(s, steps[0]), steps[1..]);
    }
  }

  lemma ReachableTrace(ttl: nat, s: State)
    requires Reachable(ttl, s)
    ensures TraceInv(s)
  {
    InitTrace();
    var steps :| Exec(ttl, Init(), steps) == Some(s);
    RunKeepsTrace(ttl, Init(), steps);
  }

  // ---------- what the trace says ----------

  lemma {:induction false} ScheduledEarlier(trace: seq<Event>, c: nat)
    requires TallyOf(trace, c).schedule > 0
    ensures exists i :: 0 <= i < |trace| && trace[i].cycle == c && trace[i].kind == ScheduleSuccess
    decreases |trace|
  {
    var last := |trace| - 1;
    if !(trace[last].cycle == c && trace[last].kind == ScheduleSuccess) {
      ScheduledEarlier(trace[..last], c);
      var i :| 0 <= i < last && trace[..last][i].cycle == c && trace[..last][i].kind == ScheduleSuccess;
      assert trace[i].cycle == c && trace[i].kind == ScheduleSuccess;
    }
  }

  // Every BindingSuccess is preceded by the ScheduleSuccess of the same attempt,
  // for the same pod and node.
  lemma BindingFollowsScheduling(ttl: nat, s: State, j: nat)
    requires Reachable(ttl, s) && j < |s.trace| && s.trace[j].kind == BindingSuccess
    ensures exists i :: 0 <= i < j && s.trace[i] == s.trace[j].(kind := ScheduleSuccess)
  {
    ReachableTrace(ttl, s);
    assert EventInv(s, j);
    var before := s.trace[..j];
    ScheduledEarlier(before, s.trace[j].cycle);
    var i :| 0 <= i < j && before[i].cycle == s.trace[j].cycle && before[i].kind == ScheduleSuccess;
    assert EventInv(s, i);
    assert s.trace[i] == s.trace[j].(kind := ScheduleSuccess);
  }

  // An attempt that reserved and ended in failure was unreserved exactly once; an
  // attempt that bound never was; no other attempt was.
  lemma UnreservedExactlyOnce(ttl: nat, s: State, c: nat)
    requires Reachable(ttl, s) && c < |s.cycles|
    ensures var t := TallyOf(s.trace, c);
      && t.unreserve <= t.reserve <= 1
      && (s.cycles[c].pc.Ended? ==>
            t.unreserve == t.reserve == (if s.cycles[c].pc.at.AfterReserve? then 1 else 0) && t.bind == 0)
      && (t.bind > 0 ==> t.unreserve == 0)
      && (s.cycles[c].pc.EndedBound? ==> t.bind == 1 && t.sent == 1)
    ensures forall j :: 0 <= j < |s.trace| && s.trace[j].cycle == c ==>
              s.trace[j].pod == s.cycles[c].pod && s.trace[j].node == s.cycles[c].host
  {
    ReachableTrace(ttl, s);
    forall j | 0 <= j < |s.trace| && s.trace[j].cycle == c
      ensures s.trace[j].pod == s.cycles[c].pod && s.trace[j].node == s.cycles[c].host
    {
      assert EventInv(s, j);
    }
  }

  // Every attempt that gets past skipPodSchedule is settled exactly once: not
  // before it ends or has only its deferred move left, and never twice.
  lemma SettledExactlyOnce(ttl: nat, s: State, c: nat)
    requires Reachable(ttl, s) && c < |s.cycles|
    ensures var pc := s.cycles[c].pc;
      TallyOf(s.trace, c).settle == if pc.EndedBound? || pc.Ended? || pc.MovingLater? then 1 else 0
  {
    ReachableTrace(ttl, s);
  }

  // A failed binding whose forget succeeded moves pods exactly once; no other
  // attempt does.
  lemma MovesExactlyOnce(ttl: nat, s: State, c: nat)
    requires Reachable(ttl, s) && c < |s.cycles|
    ensures s.cycles[c].pc.Ended? ==>
              TallyOf(s.trace, c).move
              == if s.cycles[c].pc.at == AfterReserve(InBinding) && s.cycles[c].pc.forgotten then 1 else 0
    ensures s.cycles[c].pc.EndedBound? ==> TallyOf(s.trace, c).move == 0
  {
    ReachableTrace(ttl, s);
  }

  // The move of a rejected pod comes after the failure handler settled the pod,
  // the move of an error before.
  lemma MoveOrder(ttl: nat, s: State, j: nat)
    requires Reachable(ttl, s) && j < |s.trace| && s.trace[j].kind.Moved?
    ensures TallyOf(s.trace[..j], s.trace[j].cycle).settle == if s.trace[j].kind.why == Rejected then 1 else 0
    ensures TallyOf(s.trace[..j], s.trace[j].cycle).unreserve == 1
  {
    ReachableTrace(ttl, s);
    assert EventInv(s, j);
  }

  lemma {:induction false} SentEarlier(trace: seq<Event>, i: nat)
    requires i < |trace| && trace[i].kind == BindingSuccess
    ensures TallyOf(trace, trace[i].cycle).sent > 0
    decreases |trace|
  {
    var last := |trace| - 1;
    if i < last {
      SentEarlier(trace[..last], i);
    }
  }

  // No attempt announces its binding twice, and one that has announced it is
  // done but for its Done.
  lemma AnnouncedOnce(ttl: nat, s: State, i: nat, j: nat)
    requires Reachable(ttl, s) && i < |s.trace| && j < |s.trace|
    requires s.trace[i].kind == BindingSuccess && s.trace[j].kind == BindingSuccess
    ensures i != j ==> s.trace[i].cycle != s.trace[j].cycle
    ensures s.trace[i].cycle < |s.cycles| && s.trace[i].pod == s.cycles[s.trace[i].cycle].pod
    ensures s.cycles[s.trace[i].cycle].pc.Sent? || s.cycles[s.trace[i].cycle].pc.EndedBound?
  {
    ReachableTrace(ttl, s);
    assert EventInv(s, i) && EventInv(s, j);
    SentEarlier(s.trace, i);
    if i < j {
      NotAnnouncedBefore(s, i, j);
    } else if j < i {
      NotAnnouncedBefore(s, j, i);
    }
  }

  lemma NotAnnouncedBefore(s: State, i: nat, j: nat)
    requires TraceInv(s) && i < j < |s.trace|
    requires s.trace[i].kind == BindingSuccess && s.trace[j].kind == BindingSuccess
    ensures s.trace[i].cycle != s.trace[j].cycle
  {
    assert EventInv(s, j);
    SentEarlier(s.trace[..j], i);
  }
}
