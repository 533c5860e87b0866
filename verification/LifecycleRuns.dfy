// Runs that show what the guarantees of LifecycleCache and LifecycleQueue depend
// on: that assumed pods never expire, that no attempt takes another's entry, and
// that no attempt is skipped.
module LifecycleRuns {
  import opened Common
  import opened Lifecycle
  import opened LifecycleCache
  import opened LifecycleQueue

  lemma {:induction false} ExecConcat(ttl: nat, s: State, xs: seq<Step>, ys: seq<Step>)
    requires Exec(ttl, s, xs).Some?
    ensures Exec(ttl, s, xs + ys) == Exec(ttl, Exec(ttl, s, xs).value, ys)
    decreases |xs|
  {
    if |xs| == 0 {
      assert xs + ys == ys;
    } else {
      ExecConcat(ttl, Apply(s, xs[0]), xs[1..], ys);
      assert (xs + ys)[1..] == xs[1..] + ys;
    }
  }

  lemma ReachesTransitive(ttl: nat, s: State, t: State, u: State)
    requires Reaches(ttl, s, t) && Reaches(ttl, t, u)
    ensures Reaches(ttl, s, u)
  {
    var xs :| Exec(ttl, s, xs) == Some(t);
    var ys :| Exec(ttl, t, ys) == Some(u);
    ExecConcat(ttl, s, xs, ys);
    assert Exec(ttl, s, xs + ys) == Some(u);
  }

  lemma Take(ttl: nat, s: State, t: State, step: Step) returns (u: State)
    requires Reaches(ttl, s, t) && Enabled(ttl, t, step)
    ensures u == Apply(t, step) && Reaches(ttl, s, u)
  {
    u := Apply(t, step);
    assert Exec(ttl, t, [step]) == Some(u) by {
      assert Exec(ttl, u, []) == Some(u);
    }
    ReachesTransitive(ttl, s, t, u);
  }

  lemma Stay(ttl: nat, s: State)
    ensures Reaches(ttl, s, s)
  {
    assert Exec(ttl, s, []) == Some(s);
  }

  ghost predicate SchedulerIdle(s: State) {
    forall c :: 0 <= c < |s.cycles| ==> !InSchedulingThread(s.cycles[c].pc)
  }

  // The part of the state that the guarantees are about.
  ghost predicate Looks(s: State, cycles: seq<Cycle>, cache: Cache, epochs: map<Pod, nat>, torn: set<Incarnation>) {
    s.cycles == cycles && s.cache == cache && s.epochs == epochs && s.torn == torn
  }

  // One step of attempt c.
  lemma TakeAct(ttl: nat, s: State, t: State, c: nat, a: Action) returns (u: State)
    requires Reaches(ttl, s, t) && c < |t.cycles| && Fires(t.cycles[c].pc, a) && Guard(t, t.cycles[c], a)
    ensures Reaches(ttl, s, u)
    ensures Looks(u, t.cycles[c := CycleAfter(t, t.cycles[c], a)], CacheAfter(t.cache, c, t.cycles[c], a), t.epochs, u.torn)
    ensures !a.Forget? ==> u.torn == t.torn
  {
    u := Take(ttl, s, t, Act(c, a));
  }

  lemma PopAgain(ttl: nat, s: State, p: Pod) returns (t: State)
    requires SchedulerIdle(s)
    ensures Reaches(ttl, s, t)
    ensures Looks(t, s.cycles + [Cycle(p, "", Popped, 0)], s.cache, s.epochs, s.torn)
  {
    Stay(ttl, s);
    var s1 := Take(ttl, s, s, Add(p));
    t := Take(ttl, s, s1, Pop(p));
  }

  // A pod comes up again and is given a host.
  lemma FindHost(ttl: nat, s: State, p: Pod, h: NodeName) returns (t: State)
    requires SchedulerIdle(s)
    ensures Reaches(ttl, s, t)
    ensures Looks(t, s.cycles + [Cycle(p, h, HostFound, 0)], s.cache, s.epochs, s.torn)
  {
    var c := |s.cycles|;
    var s2 := PopAgain(ttl, s, p);
    var s3 := TakeAct(ttl, s, s2, c, Proceed(true));
    assert s3.cycles == s.cycles + [Cycle(p, "", Finding, 0)];
    t := TakeAct(ttl, s, s3, c, FindOk(h));
    assert t.cycles == s.cycles + [Cycle(p, h, HostFound, 0)];
  }

  lemma AssumeHost(ttl: nat, s: State, p: Pod, h: NodeName) returns (t: State)
    requires SchedulerIdle(s) && p !in s.cache
    ensures Reaches(ttl, s, t)
    ensures Looks(t, s.cycles + [Cycle(p, h, PodAssumed, EpochOf(s.epochs, p))],
                  s.cache[p := Assumed(h, false, |s.cycles|)], s.epochs, s.torn)
  {
    var s4 := FindHost(ttl, s, p, h);
    t := TakeAct(ttl, s, s4, |s.cycles|, AssumeOk);
    assert t.cycles == s.cycles + [Cycle(p, h, PodAssumed, EpochOf(s.epochs, p))];
  }

  lemma ReserveAndPermit(ttl: nat, s: State, c: nat) returns (t: State)
    requires c < |s.cycles| && s.cycles[c].pc == PodAssumed
    ensures Reaches(ttl, s, t)
    ensures Looks(t, s.cycles[c := s.cycles[c].(pc := Waiting)], s.cache, s.epochs, s.torn)
  {
    Stay(ttl, s);
    var s1 := TakeAct(ttl, s, s, c, ReserveOk);
    assert s1.cycles == s.cycles[c := s.cycles[c].(pc := PodReserved)];
    t := TakeAct(ttl, s, s1, c, PermitOk);
    assert t.cycles == s.cycles[c := s.cycles[c].(pc := Waiting)];
  }

  // A pod that is absent from the cache comes up again and gets as far as its
  // binding cycle.
  lemma Schedule(ttl: nat, s: State, p: Pod, h: NodeName) returns (t: State)
    requires SchedulerIdle(s) && p !in s.cache
    ensures Reaches(ttl, s, t) && SchedulerIdle(t)
    ensures Looks(t, s.cycles + [Cycle(p, h, Waiting, EpochOf(s.epochs, p))],
                  s.cache[p := Assumed(h, false, |s.cycles|)], s.epochs, s.torn)
  {
    var s5 := AssumeHost(ttl, s, p, h);
    t := ReserveAndPermit(ttl, s5, |s.cycles|);
    ReachesTransitive(ttl, s, s5, t);
    assert t.cycles == s.cycles + [Cycle(p, h, Waiting, EpochOf(s.epochs, p))];
  }

  lemma WaitAndPreBind(ttl: nat, s: State, c: nat) returns (t: State)
    requires c < |s.cycles| && s.cycles[c].pc == Waiting
    ensures Reaches(ttl, s, t)
    ensures Looks(t, s.cycles[c := s.cycles[c].(pc := Binding)], s.cache, s.epochs, s.torn)
  {
    Stay(ttl, s);
    var s1 := TakeAct(ttl, s, s, c, WaitOk);
    assert s1.cycles == s.cycles[c := s.cycles[c].(pc := PreBinding)];
    t := TakeAct(ttl, s, s1, c, PreBindOk);
    assert t.cycles == s.cycles[c := s.cycles[c].(pc := Binding)];
  }

  // A waiting attempt binds its pod.
  lemma BindAndAnnounce(ttl: nat, s: State, c: nat) returns (t: State)
    requires c < |s.cycles| && s.cycles[c].pc == Waiting
    ensures Reaches(ttl, s, t)
    ensures Looks(t, s.cycles[c := s.cycles[c].(pc := Sent)], FinishBinding(s.cache, s.cycles[c].pod), s.epochs, s.torn)
  {
    var s2 := WaitAndPreBind(ttl, s, c);
    var s3 := TakeAct(ttl, s, s2, c, BindOk);
    assert s3.cycles == s.cycles[c := s.cycles[c].(pc := Bound)];
    t := TakeAct(ttl, s, s3, c, SendSuccess);
    assert t.cycles == s.cycles[c := s.cycles[c].(pc := Sent)];
  }

  // With any expiry, a bound pod can leave the cache before the informer confirms it.
  lemma BoundPodExpires(ttl: nat) returns (t: State)
    requires ttl > 0
    ensures Reachable(ttl, t) && SchedulerIdle(t)
    ensures Looks(t, [Cycle(0, "node", Sent, 0)], map[], map[], {})
  {
    var s := Init();
    var s1 := Schedule(ttl, s, 0, "node");
    var s2 := BindAndAnnounce(ttl, s1, 0);
    ReachesTransitive(ttl, s, s1, s2);
    t := Take(ttl, s, s2, Expire(0));
  }

  // Then it can be assumed a second time.
  lemma ExpiryBreaksSafety(ttl: nat) returns (t: State)
    requires ttl > 0
    ensures Reachable(ttl, t) && !Safe(t)
  {
    var s := BoundPodExpires(ttl);
    t := Schedule(ttl, s, 0, "node");
    ReachesTransitive(ttl, Init(), s, t);
    assert !UniqueInv(t, 0, 1);
  }

  // In every run at most one attempt holds an incarnation that is not torn, exactly
  // when durationToExpireAssumedPod is zero, the value the source gives it.
  lemma SafeExactlyWithoutExpiry(ttl: nat)
    ensures (forall s :: Reachable(ttl, s) ==> Safe(s)) <==> ttl == 0
  {
    if ttl == 0 {
      forall s | Reachable(ttl, s) ensures Safe(s) {
        ReachableIsSafe(s);
      }
    } else {
      var t := ExpiryBreaksSafety(ttl);
    }
  }

  // ---------- draining the scheduling thread ----------

  // Attempt c has moved on in the scheduling thread; nothing else has changed but
  // that entries may be gone.  An attempt that held its pod and had not failed
  // holds it still.
  ghost predicate MovedOn(s: State, t: State, c: nat)
    requires c < |s.cycles|
  {
    && |t.cycles| == |s.cycles| && t.epochs == s.epochs && t.cache.Keys <= s.cache.Keys
    && (forall d :: 0 <= d < |s.cycles| && d != c ==> t.cycles[d] == s.cycles[d])
    && (MayForget(s.cycles[c].pc) && !Doomed(s.cycles[c].pc) ==>
          && t.cycles[c] == s.cycles[c].(pc := t.cycles[c].pc)
          && MayForget(t.cycles[c].pc) && !Doomed(t.cycles[c].pc))
  }

  // A way out of the scheduling thread that binds nothing and assumes nothing.
  function WayOut(pc: PC): (a: Action)
    requires InSchedulingThread(pc)
    ensures Fires(pc, a)
  {
    match pc
    case Popped => SkipPod(Deleting)
    case Finding => FindFail(Errored)
    case HostFound => AssumeFail
    case PodAssumed => ReserveOk
    case PodReserved => PermitOk
    case Unreserving(_, _) => Unreserve
    case Forgetting(_, _) => Forget
    case Handling(_, _, _) => Handle(PodGone)
    case _ => SendSuccess
  }

  lemma OneStepOut(ttl: nat, s: State, c: nat) returns (t: State)
    requires c < |s.cycles| && InSchedulingThread(s.cycles[c].pc)
    ensures Reaches(ttl, s, t) && MovedOn(s, t, c)
    ensures StepsLeft(t.cycles[c].pc) < StepsLeft(s.cycles[c].pc)
  {
    var cycle := s.cycles[c];
    var a := WayOut(cycle.pc);
    Stay(ttl, s);
    t := TakeAct(ttl, s, s, c, a);
    OwnStepAdvances(cycle.pc, a, cycle.pod, CanForget(s.cache, cycle.pod, cycle.host));
  }

  lemma {:induction false} LeaveThread(ttl: nat, s: State, c: nat) returns (t: State)
    requires c < |s.cycles| && InSchedulingThread(s.cycles[c].pc)
    ensures Reaches(ttl, s, t) && MovedOn(s, t, c) && !InSchedulingThread(t.cycles[c].pc)
    decreases StepsLeft(s.cycles[c].pc)
  {
    t := OneStepOut(ttl, s, c);
    if InSchedulingThread(t.cycles[c].pc) {
      var u := LeaveThread(ttl, t, c);
      ReachesTransitive(ttl, s, t, u);
      t := u;
    }
  }

  // The thread becomes idle, and the attempts that hold their pods and have not
  // failed in the thread stand where they stood or have started their goroutine.
  ghost predicate Drained(s: State, t: State) {
    && SchedulerIdle(t)
    && |t.cycles| == |s.cycles| && t.epochs == s.epochs && t.cache.Keys <= s.cache.Keys
    && forall d :: 0 <= d < |s.cycles| && Holds(s.cycles[d].pc) && !Doomed(s.cycles[d].pc) ==>
         && t.cycles[d] == s.cycles[d].(pc := t.cycles[d].pc)
         && Holds(t.cycles[d].pc)
         && (MayForget(s.cycles[d].pc) ==> LiveBinding(t.cycles[d].pc))
  }

  lemma Drain(ttl: nat, s: State) returns (t: State)
    requires OneThread(s)
    ensures Reaches(ttl, s, t) && Drained(s, t)
  {
    if SchedulerIdle(s) {
      t := s;
      Stay(ttl, s);
    } else {
      var c :| 0 <= c < |s.cycles| && InSchedulingThread(s.cycles[c].pc);
      t := LeaveThread(ttl, s, c);
    }
  }

  // ---------- taking another attempt's entry ----------

  predicate LiveBinding(pc: PC) {
    MayForget(pc) && !InSchedulingThread(pc)
  }

  // Two attempts hold the pod in its present incarnation.
  ghost predicate DoublyHeld(s: State, p: Pod, c: nat, d: nat) {
    && c < |s.cycles| && d < |s.cycles| && c != d
    && s.cycles[c].pod == p && s.cycles[d].pod == p
    && HoldsNow(s, c) && HoldsNow(s, d)
  }

  // An attempt that holds a pod absent from the cache gets a companion, unless it
  // is about to give up in the scheduling thread.
  lemma HolderGetsCompanion(ttl: nat, s: State, p: Pod, o: nat, h: NodeName) returns (t: State, d: nat)
    requires OneThread(s) && p !in s.cache
    requires o < |s.cycles| && s.cycles[o].pod == p && HoldsNow(s, o) && !Doomed(s.cycles[o].pc)
    ensures Reaches(ttl, s, t) && t.epochs == s.epochs
    ensures DoublyHeld(t, p, o, d) && |s.cycles| <= d
  {
    var s1 := Drain(ttl, s);
    d := |s1.cycles|;
    t := Schedule(ttl, s1, p, h);
    ReachesTransitive(ttl, s, s1, t);
  }

  // The condition on torn incarnations is exact: whenever an attempt can forget the
  // entry of another, which is not about to give up in the scheduling thread, some
  // continuation has two attempts hold that very incarnation.
  lemma RobberyAllowsTwoHolders(s: State, c: nat) returns (t: State, d: nat)
    requires Reachable(0, s) && Enabled(0, s, Act(c, Forget))
    requires Robs(s, c, Forget) && !OwnerIsDoomed(s, s.cycles[c].pod)
    ensures Reaches(0, Apply(s, Act(c, Forget)), t) && t.epochs == s.epochs
    ensures DoublyHeld(t, s.cycles[c].pod, s.cache[s.cycles[c].pod].owner, d) && |s.cycles| <= d
  {
    var p := s.cycles[c].pod;
    ReachableCache(s);
    ReachableOneThread(0, s);
    StepKeepsThread(0, s, Act(c, Forget));
    assert EntryInv(s, p);
    t, d := HolderGetsCompanion(0, Apply(s, Act(c, Forget)), p, s.cache[p].owner, s.cycles[c].host);
  }

  // Attempt c has forgotten the entry of its pod; the other attempts stand as before.
  ghost predicate ForgotIn(s: State, t: State, c: nat)
    requires c < |s.cycles|
  {
    && s.cycles[c].pod !in t.cache && t.epochs == s.epochs
    && |t.cycles| == |s.cycles|
    && (forall d :: 0 <= d < |s.cycles| && d != c ==> t.cycles[d] == s.cycles[d])
    && !InSchedulingThread(t.cycles[c].pc)
  }

  lemma ForgetNow(ttl: nat, s: State, c: nat) returns (t: State)
    requires c < |s.cycles| && s.cycles[c].pc.Forgetting? && s.cycles[c].pc.phase == InBinding
    requires CanForget(s.cache, s.cycles[c].pod, s.cycles[c].host)
    ensures Reaches(ttl, s, t) && ForgotIn(s, t, c)
  {
    Stay(ttl, s);
    t := TakeAct(ttl, s, s, c, Forget);
  }

  lemma UnreserveAndForget(ttl: nat, s: State, c: nat) returns (t: State)
    requires c < |s.cycles| && s.cycles[c].pc.Unreserving? && s.cycles[c].pc.phase == InBinding
    requires CanForget(s.cache, s.cycles[c].pod, s.cycles[c].host)
    ensures Reaches(ttl, s, t) && ForgotIn(s, t, c)
  {
    Stay(ttl, s);
    var s1 := TakeAct(ttl, s, s, c, Unreserve);
    t := ForgetNow(ttl, s1, c);
    ReachesTransitive(ttl, s, s1, t);
  }

  // A live binding cycle can fail and forget whatever entry is on its node.
  lemma FailAndForget(ttl: nat, s: State, c: nat) returns (t: State)
    requires c < |s.cycles| && LiveBinding(s.cycles[c].pc)
    requires CanForget(s.cache, s.cycles[c].pod, s.cycles[c].host)
    ensures Reaches(ttl, s, t) && ForgotIn(s, t, c)
  {
    if s.cycles[c].pc.Forgetting? {
      t := ForgetNow(ttl, s, c);
    } else if s.cycles[c].pc.Unreserving? {
      t := UnreserveAndForget(ttl, s, c);
    } else {
      Stay(ttl, s);
      var s1 := TakeAct(ttl, s, s, c, BindingFail(Errored));
      t := UnreserveAndForget(ttl, s1, c);
      ReachesTransitive(ttl, s, s1, t);
    }
  }

  // A binding cycle whose pod is absent from the cache lets a later attempt assume
  // the pod on its node, and takes its entry.
  lemma LateForget(ttl: nat, s: State, p: Pod, c: nat) returns (t: State, o: nat)
    requires SchedulerIdle(s) && p !in s.cache
    requires c < |s.cycles| && s.cycles[c].pod == p && LiveBinding(s.cycles[c].pc)
    ensures Reaches(ttl, s, t) && t.epochs == s.epochs && SchedulerIdle(t) && p !in t.cache
    ensures |s.cycles| <= o < |t.cycles|
    ensures t.cycles[o].pod == p && HoldsNow(t, o) && !Doomed(t.cycles[o].pc)
  {
    var s1 := Schedule(ttl, s, p, s.cycles[c].host);
    o := |s.cycles|;
    t := FailAndForget(ttl, s1, c);
    ReachesTransitive(ttl, s, s1, t);
    assert t.cycles[o] == s1.cycles[o];
  }

  // The thread drained, such a cycle takes the entry of the next attempt.
  lemma DrainAndTake(ttl: nat, s: State, p: Pod, c: nat) returns (t: State, o: nat)
    requires OneThread(s) && p !in s.cache
    requires c < |s.cycles| && s.cycles[c].pod == p && MayForget(s.cycles[c].pc) && !Doomed(s.cycles[c].pc)
    ensures Reaches(ttl, s, t) && t.epochs == s.epochs && SchedulerIdle(t) && p !in t.cache
    ensures |s.cycles| <= o < |t.cycles|
    ensures t.cycles[o].pod == p && HoldsNow(t, o) && !Doomed(t.cycles[o].pc)
  {
    var s1 := Drain(ttl, s);
    t, o := LateForget(ttl, s1, p, c);
    ReachesTransitive(ttl, s, s1, t);
  }

  // Whenever a pod is absent from the cache while an attempt that has not failed in
  // the scheduling thread holds it unbound, two later attempts can hold it at once.
  lemma AbsentPodCanBeDoublyHeld(ttl: nat, s: State, p: Pod, c: nat) returns (t: State, o: nat, d: nat)
    requires OneThread(s) && p !in s.cache
    requires c < |s.cycles| && s.cycles[c].pod == p && MayForget(s.cycles[c].pc) && !Doomed(s.cycles[c].pc)
    ensures Reaches(ttl, s, t) && t.epochs == s.epochs
    ensures DoublyHeld(t, p, o, d) && |s.cycles| <= o && |s.cycles| <= d
  {
    var s1;
    s1, o := DrainAndTake(ttl, s, p, c);
    t, d := HolderGetsCompanion(ttl, s1, p, o, "node");
    ReachesTransitive(ttl, s, s1, t);
  }

  lemma RemoveNow(ttl: nat, s: State, p: Pod) returns (t: State)
    requires Reachable(ttl, s) && p in s.cache
    ensures Reaches(ttl, s, t) && OneThread(t) && t.cycles == s.cycles && p !in t.cache
    ensures t.epochs == s.epochs[p := EpochOf(s.epochs, p) + 1]
  {
    ReachableOneThread(ttl, s);
    Stay(ttl, s);
    t := Take(ttl, s, s, Remove(p));
  }

  // The informer's removal under such an attempt leads there: in the incarnation
  // that begins with it, two attempts can hold the pod.
  lemma RemovalTears(ttl: nat, s: State, p: Pod, c: nat) returns (t: State, o: nat, d: nat)
    requires Reachable(ttl, s) && p in s.cache
    requires c < |s.cycles| && s.cycles[c].pod == p && MayForget(s.cycles[c].pc) && !Doomed(s.cycles[c].pc)
    ensures Reaches(ttl, s, t) && EpochOf(t.epochs, p) == EpochOf(s.epochs, p) + 1
    ensures DoublyHeld(t, p, o, d) && |s.cycles| <= o && |s.cycles| <= d
  {
    var s1 := RemoveNow(ttl, s, p);
    t, o, d := AbsentPodCanBeDoublyHeld(ttl, s1, p, c);
    ReachesTransitive(ttl, s, s1, t);
  }

  // ---------- skipped pods ----------

  lemma PopAndSkip(ttl: nat, s: State, p: Pod) returns (t: State)
    requires SchedulerIdle(s)
    ensures Reaches(ttl, s, t) && p in t.inFlight
    ensures t.cycles == s.cycles + [Cycle(p, "", Skipped, 0)]
  {
    Stay(ttl, s);
    var s1 := Take(ttl, s, s, Add(p));
    var s2 := Take(ttl, s, s1, Pop(p));
    t := Take(ttl, s, s2, Act(|s.cycles|, SkipPod(Deleting)));
  }

  // Any pod whose attempts are over can come to be stuck: popped and skipped, it is
  // in flight in every continuation without a new attempt at it and without a
  // failure handler that finds it.
  lemma SkippedPodIsStuck(ttl: nat, s: State, p: Pod) returns (t: State)
    requires SchedulerIdle(s)
    requires forall c :: 0 <= c < |s.cycles| && s.cycles[c].pod == p ==> Over(s.cycles[c].pc)
    ensures Reaches(ttl, s, t) && t.cycles == s.cycles + [Cycle(p, "", Skipped, 0)]
    ensures forall steps :: Exec(ttl, t, steps).Some? && LeavesAlone(steps, p) ==> p in Exec(ttl, t, steps).value.inFlight
  {
    t := PopAndSkip(ttl, s, p);
    forall steps | Exec(ttl, t, steps).Some? && LeavesAlone(steps, p) ensures p in Exec(ttl, t, steps).value.inFlight {
      SkippedPodNeverLeaves(ttl, t, steps, p);
    }
  }
}
