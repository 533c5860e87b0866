// Who may hold a pod: the cache's assumed pods and the attempts that assumed
// them, in every reachable state.
module LifecycleCache {
  import opened Common
  import opened Lifecycle
  import opened LifecycleTrace

  // ---------- the control flow seen from the cache ----------

  lemma FlowKeepsHold(pc: PC, a: Action, p: Pod, forgot: bool)
    requires Fires(pc, a)
    ensures !a.AssumeOk? && !a.Forget? ==> (Holds(After(pc, a, p, forgot)) <==> Holds(pc))
    ensures !a.AssumeOk? && !a.Forget? && Doomed(pc) ==> Doomed(After(pc, a, p, forgot))
    ensures InSchedulingThread(After(pc, a, p, forgot)) ==> InSchedulingThread(pc)
    ensures a.AssumeOk? ==> !Holds(pc) && InSchedulingThread(pc) && After(pc, a, p, forgot) == PodAssumed
    ensures a.Forget? ==> MayForget(pc) && !Holds(After(pc, a, p, forgot))
    ensures a.FindOk? ==> !Holds(pc)
    ensures a.BindOk? || a.BindingFail? ==> Holds(pc)
  {
  }

  // ---------- the scheduling thread ----------

  // At most one attempt is in the scheduling thread.
  ghost predicate OneThread(s: State) {
    forall c, d :: 0 <= c < d < |s.cycles| ==> !(InSchedulingThread(s.cycles[c].pc) && InSchedulingThread(s.cycles[d].pc))
  }

  lemma StepKeepsThread(ttl: nat, s: State, step: Step)
    requires OneThread(s) && Enabled(ttl, s, step)
    ensures OneThread(Apply(s, step))
  {
    if step.Act? {
      var cycle := s.cycles[step.c];
      FlowKeepsHold(cycle.pc, step.action, cycle.pod, CanForget(s.cache, cycle.pod, cycle.host));
    }
  }

  lemma {:induction false} RunKeepsThread(ttl: nat, s: State, steps: seq<Step>)
    requires OneThread(s) && Exec(ttl, s, steps).Some?
    ensures OneThread(Exec(ttl, s, steps).value)
    decreases |steps|
  {
    if |steps| > 0 {
      StepKeepsThread(ttl, s, steps[0]);
      RunKeepsThread(ttl, Apply(s, steps[0]), steps[1..]);
    }
  }

  lemma ReachableOneThread(ttl: nat, s: State)
    requires Reachable(ttl, s)
    ensures OneThread(s)
  {
    var steps :| Exec(ttl, Init(), steps) == Some(s);
    RunKeepsThread(ttl, Init(), steps);
  }

  // ---------- the invariant ----------

  // Attempt c holds its pod in the pod's current incarnation.
  ghost predicate HoldsNow(s: State, c: nat)
    requires c < |s.cycles|
  {
    Holds(s.cycles[c].pc) && s.cycles[c].epoch == EpochOf(s.epochs, s.cycles[c].pod)
  }

  // Every assumed pod was assumed by an attempt that still holds it.
  ghost predicate EntryInv(s: State, p: Pod) {
    IsAssumed(s.cache, p) ==>
      var o := s.cache[p].owner;
      && o < |s.cycles|
      && s.cycles[o].pod == p && s.cycles[o].host == s.cache[p].node
      && HoldsNow(s, o)
  }

  ghost function Held(s: State, c: nat): Incarnation
    requires c < |s.cycles|
  {
    Incarnation(s.cycles[c].pod, s.cycles[c].epoch)
  }

  // An attempt that holds its pod has its entry in the cache, unless the informer
  // confirmed the pod or another attempt's forget took the entry.
  ghost predicate HolderInv(s: State, c: nat)
    requires c < |s.cycles|
  {
    var p := s.cycles[c].pod;
    && s.cycles[c].epoch <= EpochOf(s.epochs, p)
    && (HoldsNow(s, c) ==>
          && (Held(s, c) !in s.torn && IsAssumed(s.cache, p) ==> s.cache[p].owner == c)
          && (Held(s, c) !in s.torn && !Doomed(s.cycles[c].pc) ==> p in s.cache)
          && (Held(s, c) !in s.robbed ==> p in s.cache))
    && (Holds(s.cycles[c].pc) && InSchedulingThread(s.cycles[c].pc) && IsAssumed(s.cache, p) ==> s.cache[p].owner == c)
  }

  // At most one attempt holds an incarnation of a pod.
  ghost predicate UniqueInv(s: State, c: nat, d: nat)
    requires c < |s.cycles| && d < |s.cycles|
  {
    c != d && Held(s, c) == Held(s, d) && Held(s, c) !in s.torn ==> !(Holds(s.cycles[c].pc) && Holds(s.cycles[d].pc))
  }

  // No entry is taken before the informer has removed the pod once.
  ghost predicate RobbedInv(s: State) {
    && s.torn <= s.robbed
    && forall i :: i in s.robbed ==> 0 < i.epoch <= EpochOf(s.epochs, i.pod)
  }

  ghost predicate CacheInv(s: State) {
    && (forall p :: p in s.cache ==> EntryInv(s, p))
    && (forall c :: 0 <= c < |s.cycles| ==> HolderInv(s, c))
    && (forall c, d :: 0 <= c < |s.cycles| && 0 <= d < |s.cycles| ==> UniqueInv(s, c, d))
    && RobbedInv(s)
  }

  lemma InitCache()
    ensures CacheInv(Init())
  {
  }

  // ---------- every step keeps it, while assumed pods do not expire ----------

  // A step of attempt c that neither assumes nor forgets.
  ghost predicate PlainStep(s: State, s': State, c: nat) {
    && c < |s.cycles| && |s'.cycles| == |s.cycles|
    && (forall d :: 0 <= d < |s.cycles| && d != c ==> s'.cycles[d] == s.cycles[d])
    && s'.epochs == s.epochs && s'.robbed == s.robbed && s'.torn == s.torn
    && s'.cycles[c].pod == s.cycles[c].pod && s'.cycles[c].epoch == s.cycles[c].epoch
    && (InSchedulingThread(s'.cycles[c].pc) ==> InSchedulingThread(s.cycles[c].pc))
    && (Holds(s'.cycles[c].pc) <==> Holds(s.cycles[c].pc))
    && (Holds(s.cycles[c].pc) ==> s'.cycles[c].host == s.cycles[c].host)
    && (Doomed(s.cycles[c].pc) ==> Doomed(s'.cycles[c].pc))
    && s'.cache.Keys == s.cache.Keys
    && (forall p :: p in s.cache ==> SameEntry(s.cache[p], s'.cache[p]))
  }

  // The same entry, up to the note that binding has finished.
  predicate SameEntry(a: Entry, b: Entry) {
    if a.Assumed? then b.Assumed? && b.node == a.node && b.owner == a.owner else b == a
  }

  lemma PlainStepKeepsCache(s: State, s': State, c: nat)
    requires CacheInv(s) && PlainStep(s, s', c)
    ensures CacheInv(s')
  {
    forall p | p in s'.cache ensures EntryInv(s', p) {
      assert EntryInv(s, p) && SameEntry(s.cache[p], s'.cache[p]);
    }
    forall d | 0 <= d < |s'.cycles| ensures HolderInv(s', d) {
      assert HolderInv(s, d);
      var p := s.cycles[d].pod;
      assert p in s.cache ==> SameEntry(s.cache[p], s'.cache[p]);
    }
    forall d, e | 0 <= d < |s'.cycles| && 0 <= e < |s'.cycles| ensures UniqueInv(s', d, e) {
      assert UniqueInv(s, d, e);
    }
  }

  // Attempt c assumes its pod, which must be absent from the cache.
  ghost predicate AssumeStep(s: State, s': State, c: nat) {
    && c < |s.cycles| && !Holds(s.cycles[c].pc) && InSchedulingThread(s.cycles[c].pc) && s.cycles[c].pod !in s.cache
    && s'.epochs == s.epochs && s'.robbed == s.robbed && s'.torn == s.torn
    && s'.cycles == s.cycles[c := Cycle(s.cycles[c].pod, s.cycles[c].host, PodAssumed, EpochOf(s.epochs, s.cycles[c].pod))]
    && s'.cache == s.cache[s.cycles[c].pod := Assumed(s.cycles[c].host, false, c)]
  }

  lemma AssumeKeepsCache(s: State, s': State, c: nat)
    requires CacheInv(s) && OneThread(s) && AssumeStep(s, s', c)
    ensures CacheInv(s')
  {
    var p := s.cycles[c].pod;
    forall q | q in s'.cache ensures EntryInv(s', q) {
      if q != p {
        assert EntryInv(s, q);
      }
    }
    forall d | 0 <= d < |s'.cycles| ensures HolderInv(s', d) {
      assert HolderInv(s, d);
    }
    forall d, e | 0 <= d < |s'.cycles| && 0 <= e < |s'.cycles| ensures UniqueInv(s', d, e) {
      assert UniqueInv(s, d, e);
      assert HolderInv(s, d) && HolderInv(s, e);
    }
  }

  // Attempt c gives up its pod; if ForgetPod can, it removes the entry.
  ghost predicate ForgetStep(s: State, s': State, c: nat) {
    && c < |s.cycles| && MayForget(s.cycles[c].pc)
    && s'.epochs == s.epochs
    && s'.robbed == (if Robs(s, c, Forget) then s.robbed + {Now(s.epochs, s.cycles[c].pod)} else s.robbed)
    && s'.torn == (if Robs(s, c, Forget) && !OwnerIsDoomed(s, s.cycles[c].pod)
                   then s.torn + {Now(s.epochs, s.cycles[c].pod)} else s.torn)
    && |s'.cycles| == |s.cycles|
    && (InSchedulingThread(s'.cycles[c].pc) ==> InSchedulingThread(s.cycles[c].pc))
    && (forall d :: 0 <= d < |s.cycles| && d != c ==> s'.cycles[d] == s.cycles[d])
    && s'.cycles[c].pod == s.cycles[c].pod && s'.cycles[c].epoch == s.cycles[c].epoch
    && !Holds(s'.cycles[c].pc)
    && s'.cache == (if CanForget(s.cache, s.cycles[c].pod, s.cycles[c].host) then s.cache - {s.cycles[c].pod} else s.cache)
  }

  // An attempt finds its own entry on its own node; the entry it takes from
  // another, it takes because it is of an earlier incarnation, or because its own
  // entry was taken before.
  lemma ForgetTakesOwnEntry(s: State, c: nat)
    requires CacheInv(s) && c < |s.cycles| && MayForget(s.cycles[c].pc)
    ensures var p := s.cycles[c].pod;
      && (IsAssumed(s.cache, p) && s.cache[p].owner == c ==> CanForget(s.cache, p, s.cycles[c].host) && HoldsNow(s, c))
      && (Robs(s, c, Forget) ==> !HoldsNow(s, c) || Held(s, c) in s.torn)
  {
    var p := s.cycles[c].pod;
    assert HolderInv(s, c);
    if p in s.cache {
      assert EntryInv(s, p);
    }
  }

  lemma ForgetKeepsCache(s: State, s': State, c: nat)
    requires CacheInv(s) && ForgetStep(s, s', c)
    ensures CacheInv(s')
  {
    var p := s.cycles[c].pod;
    ForgetTakesOwnEntry(s, c);
    forall q | q in s'.cache ensures EntryInv(s', q) {
      assert EntryInv(s, q);
    }
    forall d | 0 <= d < |s'.cycles| ensures HolderInv(s', d) {
      assert HolderInv(s, d);
      if d != c && s.cycles[d].pod == p {
        assert UniqueInv(s, c, d) && HolderInv(s, c);
      }
    }
    forall d, e | 0 <= d < |s'.cycles| && 0 <= e < |s'.cycles| ensures UniqueInv(s', d, e) {
      assert UniqueInv(s, d, e);
    }
  }

  lemma ConfirmKeepsCache(s: State, p: Pod, node: NodeName)
    requires CacheInv(s)
    ensures CacheInv(Apply(s, Confirm(p, node)))
  {
    var s' := Apply(s, Confirm(p, node));
    forall q | q in s'.cache ensures EntryInv(s', q) {
      if q != p {
        assert EntryInv(s, q);
      }
    }
    forall d | 0 <= d < |s'.cycles| ensures HolderInv(s', d) {
      assert HolderInv(s, d);
    }
    forall d, e | 0 <= d < |s'.cycles| && 0 <= e < |s'.cycles| ensures UniqueInv(s', d, e) {
      assert UniqueInv(s, d, e);
    }
  }

  lemma RemoveKeepsCache(s: State, p: Pod)
    requires CacheInv(s)
    ensures CacheInv(Apply(s, Remove(p)))
  {
    var s' := Apply(s, Remove(p));
    forall q | q in s'.cache ensures EntryInv(s', q) {
      assert EntryInv(s, q);
    }
    forall d | 0 <= d < |s'.cycles| ensures HolderInv(s', d) {
      assert HolderInv(s, d);
    }
    forall d, e | 0 <= d < |s'.cycles| && 0 <= e < |s'.cycles| ensures UniqueInv(s', d, e) {
      assert UniqueInv(s, d, e);
    }
  }

  lemma PopKeepsCache(s: State, p: Pod)
    requires CacheInv(s)
    ensures CacheInv(Apply(s, Pop(p)))
  {
    var s' := Apply(s, Pop(p));
    forall q | q in s'.cache ensures EntryInv(s', q) {
      assert EntryInv(s, q);
    }
    forall d | 0 <= d < |s'.cycles| ensures HolderInv(s', d) {
      if d < |s.cycles| {
        assert HolderInv(s, d);
      }
    }
    forall d, e | 0 <= d < |s'.cycles| && 0 <= e < |s'.cycles| ensures UniqueInv(s', d, e) {
      if d < |s.cycles| && e < |s.cycles| {
        assert UniqueInv(s, d, e);
      }
    }
  }

  lemma ActKeepsCache(s: State, c: nat, a: Action)
    requires CacheInv(s) && OneThread(s) && c < |s.cycles| && Fires(s.cycles[c].pc, a) && Guard(s, s.cycles[c], a)
    ensures CacheInv(Apply(s, Act(c, a)))
  {
    var s' := Apply(s, Act(c, a));
    var cycle := s.cycles[c];
    FlowKeepsHold(cycle.pc, a, cycle.pod, CanForget(s.cache, cycle.pod, cycle.host));
    if a.AssumeOk? {
      AssumeKeepsCache(s, s', c);
    } else if a.Forget? {
      ForgetKeepsCache(s, s', c);
    } else {
      PlainStepKeepsCache(s, s', c);
    }
  }

  lemma StepKeepsCache(s: State, step: Step)
    requires CacheInv(s) && OneThread(s) && Enabled(0, s, step)
    ensures CacheInv(Apply(s, step))
  {
    match step
    case Act(c, a) => ActKeepsCache(s, c, a);
    case Pop(p) => PopKeepsCache(s, p);
    case Confirm(p, node) => ConfirmKeepsCache(s, p, node);
    case Remove(p) => RemoveKeepsCache(s, p);
    case Add(p) => SameCache(s, Apply(s, step));
    case Requeue(pods) => SameCache(s, Apply(s, step));
  }

  lemma SameCache(s: State, s': State)
    requires CacheInv(s)
    requires s'.cache == s.cache && s'.cycles == s.cycles && s'.epochs == s.epochs && s'.robbed == s.robbed && s'.torn == s.torn
    ensures CacheInv(s')
  {
    forall p | p in s'.cache ensures EntryInv(s', p) {
      assert EntryInv(s, p);
    }
    forall c | 0 <= c < |s'.cycles| ensures HolderInv(s', c) {
      assert HolderInv(s, c);
    }
    forall c, d | 0 <= c < |s'.cycles| && 0 <= d < |s'.cycles| ensures UniqueInv(s', c, d) {
      assert UniqueInv(s, c, d);
    }
  }

  lemma {:induction false} RunKeepsCache(s: State, steps: seq<Step>)
    requires CacheInv(s) && OneThread(s) && Exec(0, s, steps).Some?
    ensures CacheInv(Exec(0, s, steps).value)
    decreases |steps|
  {
    if |steps| > 0 {
      StepKeepsCache(s, steps[0]);
      StepKeepsThread(0, s, steps[0]);
      RunKeepsCache(Apply(s, steps[0]), steps[1..]);
    }
  }

  lemma ReachableCache(s: State)
    requires Reachable(0, s)
    ensures CacheInv(s)
  {
    InitCache();
    var steps :| Exec(0, Init(), steps) == Some(s);
    RunKeepsCache(Init(), steps);
  }

  // ---------- consequences ----------

  ghost predicate Safe(s: State) {
    forall c, d :: 0 <= c < |s.cycles| && 0 <= d < |s.cycles| ==> UniqueInv(s, c, d)
  }

  lemma ReachableIsSafe(s: State)
    requires Reachable(0, s)
    ensures Safe(s)
  {
    ReachableCache(s);
  }

  // Two announced bindings of a pod belong to different incarnations of it, unless
  // the one they share was torn.
  lemma OneBindingPerIncarnation(s: State, i: nat, j: nat)
    requires Reachable(0, s)
    requires i < |s.trace| && j < |s.trace| && i != j
    requires s.trace[i].kind == BindingSuccess && s.trace[j].kind == BindingSuccess
    requires s.trace[i].pod == s.trace[j].pod
    ensures s.trace[i].cycle < |s.cycles| && s.trace[j].cycle < |s.cycles|
    ensures Held(s, s.trace[i].cycle) != Held(s, s.trace[j].cycle) || Held(s, s.trace[i].cycle) in s.torn
  {
    ReachableCache(s);
    AnnouncedOnce(0, s, i, j);
    AnnouncedOnce(0, s, j, i);
    assert UniqueInv(s, s.trace[i].cycle, s.trace[j].cycle);
  }

  // Until the informer removes a pod from the cache, without exception: at most one
  // attempt holds it, in its scheduling cycle, in its binding cycle or bound, and at
  // most one binding of it is announced.
  lemma OneBindingUntilRemoval(s: State, p: Pod)
    requires Reachable(0, s) && EpochOf(s.epochs, p) == 0
    ensures forall c, d :: 0 <= c < d < |s.cycles| && s.cycles[c].pod == p && s.cycles[d].pod == p
              ==> !(Holds(s.cycles[c].pc) && Holds(s.cycles[d].pc))
    ensures forall i, j :: 0 <= i < |s.trace| && 0 <= j < |s.trace| && Announces(s.trace[i], p) && Announces(s.trace[j], p)
              ==> i == j
  {
    ReachableCache(s);
    forall c, d | 0 <= c < d < |s.cycles| && s.cycles[c].pod == p && s.cycles[d].pod == p
      ensures !(Holds(s.cycles[c].pc) && Holds(s.cycles[d].pc))
    {
      assert UniqueInv(s, c, d) && HolderInv(s, c) && HolderInv(s, d);
    }
    forall i, j | 0 <= i < |s.trace| && 0 <= j < |s.trace| && Announces(s.trace[i], p) && Announces(s.trace[j], p)
      ensures i == j
    {
      AnnouncedOnce(0, s, i, j);
      AnnouncedOnce(0, s, j, i);
    }
  }

  predicate Announces(e: Event, p: Pod) {
    e.kind == BindingSuccess && e.pod == p
  }

  ghost predicate HeldBySomeone(s: State, p: Pod) {
    exists c :: 0 <= c < |s.cycles| && s.cycles[c].pod == p && HoldsNow(s, c)
  }

  // Assumed-pod accounting: the assumed pods are exactly the unconfirmed pods
  // that some attempt holds, unless a forget took the entry of that incarnation.
  lemma AssumedPodsAreHeld(s: State, p: Pod)
    requires Reachable(0, s)
    ensures IsAssumed(s.cache, p) ==> HeldBySomeone(s, p)
    ensures Now(s.epochs, p) !in s.robbed ==>
              (IsAssumed(s.cache, p) <==> HeldBySomeone(s, p) && !(p in s.cache && s.cache[p].Confirmed?))
  {
    ReachableCache(s);
    if p in s.cache {
      assert EntryInv(s, p);
    }
    if HeldBySomeone(s, p) {
      var c :| 0 <= c < |s.cycles| && s.cycles[c].pod == p && HoldsNow(s, c);
      assert HolderInv(s, c);
    }
  }

  // Taking an entry breaks the accounting at once: its attempt still holds the pod.
  lemma RobberyBreaksAccounting(s: State, c: nat)
    requires Reachable(0, s) && Enabled(0, s, Act(c, Forget)) && Robs(s, c, Forget)
    ensures var s' := Apply(s, Act(c, Forget));
      Now(s'.epochs, s.cycles[c].pod) in s'.robbed && s.cycles[c].pod !in s'.cache && HeldBySomeone(s', s.cycles[c].pod)
  {
    ReachableCache(s);
    var p := s.cycles[c].pod;
    var s' := Apply(s, Act(c, Forget));
    assert EntryInv(s, p);
    var o := s.cache[p].owner;
    assert s'.cycles[o] == s.cycles[o] && HoldsNow(s', o);
  }

  // An attempt that fails in the scheduling thread takes no other attempt's entry.
  lemma DoomedRobsNothing(s: State, c: nat)
    requires Reachable(0, s) && c < |s.cycles| && Doomed(s.cycles[c].pc)
    ensures !Robs(s, c, Forget)
  {
    ReachableCache(s);
    assert HolderInv(s, c);
  }

  // After the forget of a failed reserve, permit, wait, prebind or bind the pod is
  // assumed exactly if a later attempt has it on another node; that of the attempt
  // that holds the pod always leaves it unassumed.
  lemma FailureLeavesUnassumed(s: State, c: nat)
    requires Reachable(0, s) && Enabled(0, s, Act(c, Forget))
    ensures var p := s.cycles[c].pod;
      IsAssumed(Apply(s, Act(c, Forget)).cache, p)
      <==> IsAssumed(s.cache, p) && s.cache[p].owner != c && s.cache[p].node != s.cycles[c].host
    ensures HoldsNow(s, c) && Held(s, c) !in s.torn ==> !IsAssumed(Apply(s, Act(c, Forget)).cache, s.cycles[c].pod)
  {
    ReachableCache(s);
    ForgetTakesOwnEntry(s, c);
    assert HolderInv(s, c);
  }

  // No step evicts an assumed pod but the informer's and a forget on its node: a
  // failed assume and a forget on another node leave it alone, and a bound pod is
  // never forgotten.  That forget is its own attempt's, or that of an attempt at an
  // earlier incarnation, unless this one is torn.
  lemma OnlyOwnForgetEvicts(s: State, step: Step, p: Pod)
    requires Reachable(0, s) && Enabled(0, s, step) && IsAssumed(s.cache, p)
    requires !step.Confirm? && !step.Remove?
    ensures var s' := Apply(s, step);
      && ((IsAssumed(s'.cache, p) && SameEntry(s.cache[p], s'.cache[p])) <==> !ForgetsHere(s, step, p))
      && (ForgetsHere(s, step, p) ==> p !in s'.cache)
    ensures ForgetsHere(s, step, p) ==>
              || s.cache[p].owner == step.c
              || s.cycles[step.c].epoch < EpochOf(s.epochs, p)
              || Now(s.epochs, p) in s.torn
  {
    ReachableCache(s);
    assert EntryInv(s, p);
    if ForgetsHere(s, step, p) {
      ForgetTakesOwnEntry(s, step.c);
      assert HolderInv(s, step.c);
    }
  }

  predicate ForgetsHere(s: State, step: Step, p: Pod)
    requires IsAssumed(s.cache, p)
  {
    && step.Act? && step.action.Forget? && step.c < |s.cycles|
    && s.cycles[step.c].pod == p && s.cycles[step.c].host == s.cache[p].node
  }

  // finishBinding runs whether bind succeeds or fails: the pod's entry stays where it is
  // and is marked finished.
  lemma BindFinishes(ttl: nat, s: State, c: nat, a: Action)
    requires Enabled(ttl, s, Act(c, a)) && s.cycles[c].pc == Binding && IsAssumed(s.cache, s.cycles[c].pod)
    ensures var p := s.cycles[c].pod;
      var s' := Apply(s, Act(c, a));
      && IsAssumed(s'.cache, p) && s'.cache[p].bindingFinished
      && s'.cache[p].node == s.cache[p].node && s'.cache[p].owner == s.cache[p].owner
      && (ttl > 0 ==> Enabled(ttl, s', Expire(p)))
  {
  }

  // Nothing else marks an entry finished.
  lemma OnlyBindFinishes(ttl: nat, s: State, step: Step, p: Pod)
    requires Enabled(ttl, s, step) && IsAssumed(Apply(s, step).cache, p) && Apply(s, step).cache[p].bindingFinished
    ensures || (IsAssumed(s.cache, p) && s.cache[p].bindingFinished)
            || (step.Act? && s.cycles[step.c].pod == p && s.cycles[step.c].pc == Binding)
  {
  }
}
