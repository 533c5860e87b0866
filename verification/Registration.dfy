// The index of the cluster events that plugins register
// (scheduler/scheduler.go:372-432, 525-537): buildQueueingHintMap and unionedGVKs.
module Registration {
  import opened Common

  // ActionType is a set of bits in an int64.
  type ActionType = bv64

  type GVK = string

  const NODE: GVK := "Node"

  datatype ClusterEvent = ClusterEvent(resource: GVK, actionType: ActionType)

  // A hint function is identified by a number; DEFAULT_HINT always queues.
  type HintFn = nat

  const DEFAULT_HINT: HintFn := 0

  datatype EventWithHint = EventWithHint(event: ClusterEvent, hint: Option<HintFn>)

  datatype Plugin = Plugin(name: string, events: seq<EventWithHint>)

  datatype QueueingHint = QueueingHint(plugin: string, fn: HintFn)

  type HintMap = map<ClusterEvent, seq<QueueingHint>>

  // The framework's bits for Add and UpdateNodeTaint: two actions, each one bit.
  datatype Actions = Actions(add: ActionType, updateNodeTaint: ActionType)

  predicate Has(a: ActionType, bits: ActionType) {
    a & bits != 0
  }

  // ---------- the specification of the hint map ----------

  function HintsFor(m: HintMap, e: ClusterEvent): seq<QueueingHint> {
    if e in m then m[e] else []
  }

  function Appended(m: HintMap, e: ClusterEvent, h: QueueingHint): HintMap {
    m[e := HintsFor(m, e) + [h]]
  }

  function HintOf(p: Plugin, e: EventWithHint, hintsEnabled: bool): QueueingHint {
    QueueingHint(p.name, if e.hint.Some? && hintsEnabled then e.hint.value else DEFAULT_HINT)
  }

  predicate RegistersNodeAt(p: Plugin, bits: ActionType, i: nat)
    requires i < |p.events|
  {
    p.events[i].event.resource == NODE && Has(p.events[i].event.actionType, bits)
  }

  predicate RegistersNodeUpTo(p: Plugin, bits: ActionType, k: nat)
    requires k <= |p.events|
  {
    exists i :: 0 <= i < k && RegistersNodeAt(p, bits, i)
  }

  predicate RegistersNode(p: Plugin, bits: ActionType) {
    RegistersNodeUpTo(p, bits, |p.events|)
  }

  function TaintEvent(actions: Actions): ClusterEvent {
    ClusterEvent(NODE, actions.updateNodeTaint)
  }

  // The plugin registers for added nodes without registering for taint updates.
  predicate NeedsTaintEvent(p: Plugin, actions: Actions) {
    RegistersNode(p, actions.add) && !RegistersNode(p, actions.updateNodeTaint)
  }

  function HintIf(condition: bool, h: QueueingHint): seq<QueueingHint> {
    if condition then [h] else []
  }

  // What the first k events of a plugin contribute to an event's list.
  function OwnHints(p: Plugin, k: nat, e: ClusterEvent, hintsEnabled: bool): seq<QueueingHint>
    requires k <= |p.events|
  {
    if k == 0 then []
    else
      OwnHints(p, k - 1, e, hintsEnabled) + HintIf(p.events[k - 1].event == e, HintOf(p, p.events[k - 1], hintsEnabled))
  }

  function PluginHints(p: Plugin, e: ClusterEvent, hintsEnabled: bool, actions: Actions): seq<QueueingHint> {
    OwnHints(p, |p.events|, e, hintsEnabled)
    + HintIf(NeedsTaintEvent(p, actions) && e == TaintEvent(actions), QueueingHint(p.name, DEFAULT_HINT))
  }

  function AllHints(ps: seq<Plugin>, e: ClusterEvent, hintsEnabled: bool, actions: Actions): seq<QueueingHint> {
    if |ps| == 0 then []
    else AllHints(ps[..|ps| - 1], e, hintsEnabled, actions) + PluginHints(ps[|ps| - 1], e, hintsEnabled, actions)
  }

  // ---------- buildQueueingHintMap ----------

  // No event has an empty list.
  ghost predicate NoEmptyLists(m: HintMap) {
    forall e :: e in m ==> |m[e]| > 0
  }

  method BuildQueueingHintMap(ps: seq<Plugin>, hintsEnabled: bool, actions: Actions) returns (m: HintMap)
    ensures forall e :: HintsFor(m, e) == AllHints(ps, e, hintsEnabled, actions)
    ensures NoEmptyLists(m)
    ensures !hintsEnabled ==> forall e, h :: e in m && h in m[e] ==> h.fn == DEFAULT_HINT
    ensures hintsEnabled ==>
              forall e, h: QueueingHint :: h.fn != DEFAULT_HINT ==> (e in m && h in m[e] <==> RegistersHint(ps, h.plugin, e, h.fn))
    ensures forall e :: e in m ==>
              |m[e]| == Registrations(ps, e) + (if e == ClusterEvent(NODE, actions.updateNodeTaint) then |Injected(ps, actions)| else 0)
  {
    m := map[];
    for i := 0 to |ps|
      invariant forall e :: HintsFor(m, e) == AllHints(ps[..i], e, hintsEnabled, actions)
      invariant NoEmptyLists(m)
    {
      assert ps[..i + 1][..i] == ps[..i];
      m := RegisterPlugin(m, ps[i], hintsEnabled, actions);
    }
    assert ps[..|ps|] == ps;
    BuiltMap(m, ps, hintsEnabled, actions);
  }

  // The entries of a map with those lists, by name and function, and their number.
  lemma BuiltMap(m: HintMap, ps: seq<Plugin>, hintsEnabled: bool, actions: Actions)
    requires forall e :: HintsFor(m, e) == AllHints(ps, e, hintsEnabled, actions)
    ensures !hintsEnabled ==> forall e, h :: e in m && h in m[e] ==> h.fn == DEFAULT_HINT
    ensures hintsEnabled ==>
              forall e, h: QueueingHint :: h.fn != DEFAULT_HINT ==> (e in m && h in m[e] <==> RegistersHint(ps, h.plugin, e, h.fn))
    ensures forall e :: e in m ==>
              |m[e]| == Registrations(ps, e) + (if e == ClusterEvent(NODE, actions.updateNodeTaint) then |Injected(ps, actions)| else 0)
  {
    forall e, h | e in m && h in m[e] && !hintsEnabled ensures h.fn == DEFAULT_HINT {
      HintsAreGated(ps, e, hintsEnabled, actions, h);
    }
    forall e, h: QueueingHint | hintsEnabled && h.fn != DEFAULT_HINT
      ensures e in m && h in m[e] <==> RegistersHint(ps, h.plugin, e, h.fn)
    {
      HintsAreGated(ps, e, hintsEnabled, actions, h);
      assert h in HintsFor(m, e) <==> e in m && h in m[e];
    }
    forall e | e in m
      ensures |m[e]| == Registrations(ps, e) + (if e == ClusterEvent(NODE, actions.updateNodeTaint) then |Injected(ps, actions)| else 0)
    {
      HintsCount(ps, e, hintsEnabled, actions);
      assert HintsFor(m, e) == m[e];
    }
  }

  method RegisterPlugin(m0: HintMap, p: Plugin, hintsEnabled: bool, actions: Actions) returns (m: HintMap)
    requires NoEmptyLists(m0)
    ensures forall e :: HintsFor(m, e) == HintsFor(m0, e) + PluginHints(p, e, hintsEnabled, actions)
    ensures NoEmptyLists(m)
  {
    if |p.events| == 0 {
      AddTaintHint(m0, m0, p, hintsEnabled, actions);
      return m0;
    }
    var registerNodeAdded, registerNodeTaintUpdated;
    m, registerNodeAdded, registerNodeTaintUpdated := RegisterOwnEvents(m0, p, hintsEnabled, actions);
    OwnHintsAreAdded(m0, p, hintsEnabled);
    AddTaintHint(m, m0, p, hintsEnabled, actions);
    if registerNodeAdded && !registerNodeTaintUpdated {
      m := Append(m, TaintEvent(actions), QueueingHint(p.name, DEFAULT_HINT));
    }
  }

  method RegisterOwnEvents(m0: HintMap, p: Plugin, hintsEnabled: bool, actions: Actions)
    returns (m: HintMap, registerNodeAdded: bool, registerNodeTaintUpdated: bool)
    requires NoEmptyLists(m0)
    ensures m == WithOwnHints(m0, p, |p.events|, hintsEnabled)
    ensures NoEmptyLists(m)
    ensures registerNodeAdded <==> RegistersNode(p, actions.add)
    ensures registerNodeTaintUpdated <==> RegistersNode(p, actions.updateNodeTaint)
  {
    m, registerNodeAdded, registerNodeTaintUpdated := m0, false, false;
    for k := 0 to |p.events|
      invariant registerNodeAdded <==> RegistersNodeUpTo(p, actions.add, k)
      invariant registerNodeTaintUpdated <==> RegistersNodeUpTo(p, actions.updateNodeTaint, k)
      invariant m == WithOwnHints(m0, p, k, hintsEnabled)
      invariant NoEmptyLists(m)
    {
      registerNodeAdded, registerNodeTaintUpdated := NoteEvent(p, k, actions, registerNodeAdded, registerNodeTaintUpdated);
      m := Append(m, p.events[k].event, HintOf(p, p.events[k], hintsEnabled));
    }
  }

  method NoteEvent(p: Plugin, k: nat, actions: Actions, added0: bool, taintUpdated0: bool)
    returns (added: bool, taintUpdated: bool)
    requires k < |p.events|
    requires added0 <==> RegistersNodeUpTo(p, actions.add, k)
    requires taintUpdated0 <==> RegistersNodeUpTo(p, actions.updateNodeTaint, k)
    ensures added <==> RegistersNodeUpTo(p, actions.add, k + 1)
    ensures taintUpdated <==> RegistersNodeUpTo(p, actions.updateNodeTaint, k + 1)
  {
    added, taintUpdated := added0, taintUpdated0;
    var event := p.events[k].event;
    OneMoreEvent(p, actions.add, k);
    OneMoreEvent(p, actions.updateNodeTaint, k);
    if event.resource == NODE {
      if Has(event.actionType, actions.add) {
        added := true;
      }
      if Has(event.actionType, actions.updateNodeTaint) {
        taintUpdated := true;
      }
    }
  }

  lemma OneMoreEvent(p: Plugin, bits: ActionType, k: nat)
    requires k < |p.events|
    ensures RegistersNodeUpTo(p, bits, k + 1)
       <==> RegistersNodeUpTo(p, bits, k) || RegistersNodeAt(p, bits, k)
  {
  }

  // m is m0 with the hints of the plugin's own events at the ends of their lists.
  ghost predicate OwnHintsAdded(m: HintMap, m0: HintMap, p: Plugin, hintsEnabled: bool)
  {
    forall e :: HintsFor(m, e) == HintsFor(m0, e) + OwnHints(p, |p.events|, e, hintsEnabled)
  }

  method Append(m0: HintMap, e: ClusterEvent, h: QueueingHint) returns (m: HintMap)
    requires NoEmptyLists(m0)
    ensures m == Appended(m0, e, h)
    ensures NoEmptyLists(m)
  {
    m := m0[e := HintsFor(m0, e) + [h]];
    assert |m[e]| > 0;
  }

  lemma AppendedAt(m: HintMap, e: ClusterEvent, h: QueueingHint, f: ClusterEvent)
    ensures HintsFor(Appended(m, e, h), f) == HintsFor(m, f) + HintIf(e == f, h)
  {
  }

  // The map after the plugin's first k events.
  function WithOwnHints(m0: HintMap, p: Plugin, k: nat, hintsEnabled: bool): HintMap
    requires k <= |p.events|
  {
    if k == 0 then m0
    else Appended(WithOwnHints(m0, p, k - 1, hintsEnabled), p.events[k - 1].event, HintOf(p, p.events[k - 1], hintsEnabled))
  }

  lemma Regroup<T>(a: seq<T>, b: seq<T>, c: seq<T>)
    ensures (a + b) + c == a + (b + c)
  {
  }

  lemma {:induction false} OwnHintsAt(m0: HintMap, p: Plugin, k: nat, f: ClusterEvent, hintsEnabled: bool)
    requires k <= |p.events|
    ensures HintsFor(WithOwnHints(m0, p, k, hintsEnabled), f) == HintsFor(m0, f) + OwnHints(p, k, f, hintsEnabled)
  {
    if k > 0 {
      OwnHintsAt(m0, p, k - 1, f, hintsEnabled);
      OneMoreHint(WithOwnHints(m0, p, k - 1, hintsEnabled), p.events[k - 1].event, HintOf(p, p.events[k - 1], hintsEnabled), f,
                  HintsFor(m0, f), OwnHints(p, k - 1, f, hintsEnabled));
    }
  }

  lemma OneMoreHint(m: HintMap, e: ClusterEvent, h: QueueingHint, f: ClusterEvent, before: seq<QueueingHint>, own: seq<QueueingHint>)
    requires HintsFor(m, f) == before + own
    ensures HintsFor(Appended(m, e, h), f) == before + (own + HintIf(e == f, h))
  {
    AppendedAt(m, e, h, f);
    Regroup(before, own, HintIf(e == f, h));
  }

  lemma OwnHintsAreAdded(m0: HintMap, p: Plugin, hintsEnabled: bool)
    ensures OwnHintsAdded(WithOwnHints(m0, p, |p.events|, hintsEnabled), m0, p, hintsEnabled)
  {
    forall f ensures HintsFor(WithOwnHints(m0, p, |p.events|, hintsEnabled), f)
                  == HintsFor(m0, f) + OwnHints(p, |p.events|, f, hintsEnabled) {
      OwnHintsAt(m0, p, |p.events|, f, hintsEnabled);
    }
  }

  function WithTaintHint(m: HintMap, p: Plugin, actions: Actions): HintMap {
    if NeedsTaintEvent(p, actions) then Appended(m, TaintEvent(actions), QueueingHint(p.name, DEFAULT_HINT)) else m
  }

  lemma TaintHintAt(m: HintMap, p: Plugin, actions: Actions, f: ClusterEvent)
    ensures HintsFor(WithTaintHint(m, p, actions), f)
         == HintsFor(m, f) + HintIf(NeedsTaintEvent(p, actions) && f == TaintEvent(actions), QueueingHint(p.name, DEFAULT_HINT))
  {
    AppendedAt(m, TaintEvent(actions), QueueingHint(p.name, DEFAULT_HINT), f);
  }

  lemma AddTaintHint(m: HintMap, m0: HintMap, p: Plugin, hintsEnabled: bool, actions: Actions)
    requires OwnHintsAdded(m, m0, p, hintsEnabled)
    ensures forall e :: HintsFor(WithTaintHint(m, p, actions), e) == HintsFor(m0, e) + PluginHints(p, e, hintsEnabled, actions)
  {
    var h := QueueingHint(p.name, DEFAULT_HINT);
    forall e ensures HintsFor(WithTaintHint(m, p, actions), e) == HintsFor(m0, e) + PluginHints(p, e, hintsEnabled, actions) {
      TaintHintAt(m, p, actions, e);
      Regroup(HintsFor(m0, e), OwnHints(p, |p.events|, e, hintsEnabled),
              HintIf(NeedsTaintEvent(p, actions) && e == TaintEvent(actions), h));
    }
  }

  // ---------- what the hint map promises ----------

  // An event's list grows with every plugin.
  lemma {:induction false} PluginIsHeard(ps: seq<Plugin>, i: nat, e: ClusterEvent, hintsEnabled: bool, actions: Actions, h: QueueingHint)
    requires i < |ps| && h in PluginHints(ps[i], e, hintsEnabled, actions)
    ensures h in AllHints(ps, e, hintsEnabled, actions)
  {
    if i < |ps| - 1 {
      PluginIsHeard(ps[..|ps| - 1], i, e, hintsEnabled, actions, h);
    }
  }

  lemma {:induction false} EventIsHeard(p: Plugin, k: nat, n: nat, hintsEnabled: bool)
    requires k < n <= |p.events|
    ensures HintOf(p, p.events[k], hintsEnabled) in OwnHints(p, n, p.events[k].event, hintsEnabled)
  {
    if k < n - 1 {
      EventIsHeard(p, k, n - 1, hintsEnabled);
    }
  }

  // The plugin registers the event, or has it injected.
  ghost predicate Hears(p: Plugin, e: ClusterEvent, actions: Actions) {
    || (exists k :: 0 <= k < |p.events| && p.events[k].event == e)
    || (NeedsTaintEvent(p, actions) && e == TaintEvent(actions))
  }

  ghost predicate HeardBy(ps: seq<Plugin>, e: ClusterEvent, actions: Actions) {
    exists i :: 0 <= i < |ps| && Hears(ps[i], e, actions)
  }

  lemma {:induction false} NoOwnHint(p: Plugin, k: nat, e: ClusterEvent, hintsEnabled: bool)
    requires k <= |p.events|
    ensures OwnHints(p, k, e, hintsEnabled) == [] <==> forall i :: 0 <= i < k ==> p.events[i].event != e
  {
    if k > 0 {
      NoOwnHint(p, k - 1, e, hintsEnabled);
    }
  }

  // An event is in the map exactly when some plugin registers it or has it injected.
  lemma {:induction false} HeardExactly(ps: seq<Plugin>, e: ClusterEvent, hintsEnabled: bool, actions: Actions)
    ensures AllHints(ps, e, hintsEnabled, actions) != [] <==> HeardBy(ps, e, actions)
  {
    if |ps| > 0 {
      var rest, p := ps[..|ps| - 1], ps[|ps| - 1];
      HeardExactly(rest, e, hintsEnabled, actions);
      NoOwnHint(p, |p.events|, e, hintsEnabled);
      assert HeardBy(ps, e, actions) <==> HeardBy(rest, e, actions) || Hears(p, e, actions) by {
        if HeardBy(rest, e, actions) {
          var i :| 0 <= i < |rest| && Hears(rest[i], e, actions);
          assert ps[i] == rest[i];
        }
      }
    }
  }

  // ---------- which hint functions an event has ----------

  // Some plugin of that name registers the event with that hint function.
  ghost predicate RegistersHint(ps: seq<Plugin>, name: string, e: ClusterEvent, fn: HintFn) {
    exists i, k :: 0 <= i < |ps| && 0 <= k < |ps[i].events| && ps[i].name == name
      && ps[i].events[k] == EventWithHint(e, Some(fn))
  }

  ghost predicate OwnRegistersHint(p: Plugin, n: nat, e: ClusterEvent, fn: HintFn)
    requires n <= |p.events|
  {
    exists k :: 0 <= k < n && p.events[k] == EventWithHint(e, Some(fn))
  }

  lemma {:induction false} OwnHintsGated(p: Plugin, n: nat, e: ClusterEvent, hintsEnabled: bool, h: QueueingHint)
    requires n <= |p.events|
    ensures !hintsEnabled && h in OwnHints(p, n, e, hintsEnabled) ==> h.fn == DEFAULT_HINT
    ensures hintsEnabled && h.fn != DEFAULT_HINT ==>
              (h in OwnHints(p, n, e, hintsEnabled) <==> h.plugin == p.name && OwnRegistersHint(p, n, e, h.fn))
  {
    if n > 0 {
      OwnHintsGated(p, n - 1, e, hintsEnabled, h);
      assert OwnRegistersHint(p, n, e, h.fn)
        <==> OwnRegistersHint(p, n - 1, e, h.fn) || p.events[n - 1] == EventWithHint(e, Some(h.fn));
    }
  }

  // With the gate off every hint is the default; with it on, another hint function is
  // there exactly if a plugin registers the event with it.
  lemma {:induction false} HintsAreGated(ps: seq<Plugin>, e: ClusterEvent, hintsEnabled: bool, actions: Actions, h: QueueingHint)
    ensures !hintsEnabled && h in AllHints(ps, e, hintsEnabled, actions) ==> h.fn == DEFAULT_HINT
    ensures hintsEnabled && h.fn != DEFAULT_HINT ==>
              (h in AllHints(ps, e, hintsEnabled, actions) <==> RegistersHint(ps, h.plugin, e, h.fn))
  {
    if |ps| > 0 {
      var rest, p := ps[..|ps| - 1], ps[|ps| - 1];
      HintsAreGated(rest, e, hintsEnabled, actions, h);
      OwnHintsGated(p, |p.events|, e, hintsEnabled, h);
      LastRegistersHint(ps, h.plugin, e, h.fn);
    }
  }

  lemma LastRegistersHint(ps: seq<Plugin>, name: string, e: ClusterEvent, fn: HintFn)
    requires |ps| > 0
    ensures var rest, p := ps[..|ps| - 1], ps[|ps| - 1];
      RegistersHint(ps, name, e, fn)
      <==> RegistersHint(rest, name, e, fn) || (p.name == name && OwnRegistersHint(p, |p.events|, e, fn))
  {
    var rest, p := ps[..|ps| - 1], ps[|ps| - 1];
    if RegistersHint(rest, name, e, fn) {
      var i, k :| 0 <= i < |rest| && 0 <= k < |rest[i].events| && rest[i].name == name
        && rest[i].events[k] == EventWithHint(e, Some(fn));
      assert ps[i] == rest[i];
    }
    if RegistersHint(ps, name, e, fn) {
      var i, k :| 0 <= i < |ps| && 0 <= k < |ps[i].events| && ps[i].name == name
        && ps[i].events[k] == EventWithHint(e, Some(fn));
      if i < |rest| {
        assert rest[i] == ps[i];
      }
    }
  }

  // ---------- how many ----------

  // How often the first n events of a plugin are e.
  function TimesRegistered(p: Plugin, n: nat, e: ClusterEvent): nat
    requires n <= |p.events|
  {
    if n == 0 then 0 else TimesRegistered(p, n - 1, e) + (if p.events[n - 1].event == e then 1 else 0)
  }

  function Registrations(ps: seq<Plugin>, e: ClusterEvent): nat {
    if |ps| == 0 then 0
    else Registrations(ps[..|ps| - 1], e) + TimesRegistered(ps[|ps| - 1], |ps[|ps| - 1].events|, e)
  }

  // The plugins that have the taint event injected.
  ghost function Injected(ps: seq<Plugin>, actions: Actions): set<nat> {
    set i: nat | i < |ps| && NeedsTaintEvent(ps[i], actions)
  }

  lemma {:induction false} OwnHintsCount(p: Plugin, n: nat, e: ClusterEvent, hintsEnabled: bool)
    requires n <= |p.events|
    ensures |OwnHints(p, n, e, hintsEnabled)| == TimesRegistered(p, n, e)
  {
    if n > 0 {
      OwnHintsCount(p, n - 1, e, hintsEnabled);
    }
  }

  lemma InjectedGrows(ps: seq<Plugin>, actions: Actions)
    requires |ps| > 0
    ensures |Injected(ps, actions)|
         == |Injected(ps[..|ps| - 1], actions)| + (if NeedsTaintEvent(ps[|ps| - 1], actions) then 1 else 0)
  {
    var rest, last := ps[..|ps| - 1], |ps| - 1;
    var before, after := Injected(rest, actions), Injected(ps, actions);
    forall i: nat ensures i in after <==> i in before || (i == last && NeedsTaintEvent(ps[last], actions)) {
      if i < last {
        assert rest[i] == ps[i];
      }
    }
    OneMoreMember(before, after, last, NeedsTaintEvent(ps[last], actions));
  }

  lemma OneMoreMember(before: set<nat>, after: set<nat>, x: nat, joins: bool)
    requires x !in before
    requires forall i: nat :: i in after <==> i in before || (i == x && joins)
    ensures |after| == |before| + (if joins then 1 else 0)
  {
    assert after == if joins then before + {x} else before;
  }

  // One entry for each registration, and one for each injection.
  lemma {:induction false} HintsCount(ps: seq<Plugin>, e: ClusterEvent, hintsEnabled: bool, actions: Actions)
    ensures |AllHints(ps, e, hintsEnabled, actions)|
         == Registrations(ps, e) + (if e == ClusterEvent(NODE, actions.updateNodeTaint) then |Injected(ps, actions)| else 0)
  {
    if |ps| > 0 {
      HintsCount(ps[..|ps| - 1], e, hintsEnabled, actions);
      OwnHintsCount(ps[|ps| - 1], |ps[|ps| - 1].events|, e, hintsEnabled);
      InjectedGrows(ps, actions);
    }
  }

  // A plugin that hears of added nodes also hears of updated taints, through one
  // of its own events or through the injected one.
  lemma AddedNodesBringTaintUpdates(ps: seq<Plugin>, i: nat, hintsEnabled: bool, actions: Actions) returns (e: ClusterEvent, fn: HintFn)
    requires i < |ps| && RegistersNode(ps[i], actions.add)
    requires Has(actions.updateNodeTaint, actions.updateNodeTaint)
    ensures e.resource == NODE && Has(e.actionType, actions.updateNodeTaint)
    ensures QueueingHint(ps[i].name, fn) in AllHints(ps, e, hintsEnabled, actions)
  {
    var p := ps[i];
    if RegistersNode(p, actions.updateNodeTaint) {
      var k :| 0 <= k < |p.events| && RegistersNodeAt(p, actions.updateNodeTaint, k);
      e, fn := p.events[k].event, HintOf(p, p.events[k], hintsEnabled).fn;
      EventIsHeard(p, k, |p.events|, hintsEnabled);
    } else {
      e, fn := TaintEvent(actions), DEFAULT_HINT;
    }
    PluginIsHeard(ps, i, e, hintsEnabled, actions, QueueingHint(p.name, fn));
  }

  // ---------- unionedGVKs ----------

  // Some event of resource r asks for one of the given bits.
  ghost predicate Registered(events: set<ClusterEvent>, r: GVK, bits: ActionType) {
    exists e :: e in events && e.resource == r && Has(e.actionType, bits)
  }

  // u has exactly the bits of the actions registered for resource r.
  ghost predicate IsUnion(u: ActionType, events: set<ClusterEvent>, r: GVK) {
    forall bits: ActionType :: Has(u, bits) <==> Registered(events, r, bits)
  }

  ghost predicate Mentions(events: set<ClusterEvent>, r: GVK) {
    exists e :: e in events && e.resource == r
  }

  ghost predicate Unioned(gvks: map<GVK, ActionType>, events: set<ClusterEvent>) {
    && (forall r :: r in gvks <==> Mentions(events, r))
    && (forall r :: r in gvks ==> IsUnion(gvks[r], events, r))
  }

  function WithEvent(gvks: map<GVK, ActionType>, e: ClusterEvent): map<GVK, ActionType> {
    gvks[e.resource := if e.resource in gvks then gvks[e.resource] | e.actionType else e.actionType]
  }

  lemma HasUnion(a: ActionType, b: ActionType, bits: ActionType)
    ensures Has(a | b, bits) <==> Has(a, bits) || Has(b, bits)
  {
    assert (a | b) & bits == (a & bits) | (b & bits);
  }

  lemma MaskedPart(a: ActionType, b: ActionType)
    ensures Has(a, a & !b) <==> a & !b != 0
    ensures !Has(b, a & !b)
  {
  }

  lemma NoRest(a: ActionType, b: ActionType)
    requires a & !b == 0 && b & !a == 0
    ensures a == b
  {
  }

  // Numbers that meet the same masks are equal, so the union is unique: it does not
  // depend on the order in which the maps are visited.
  lemma UnionIsUnique(a: ActionType, b: ActionType, events: set<ClusterEvent>, r: GVK)
    requires IsUnion(a, events, r) && IsUnion(b, events, r)
    ensures a == b
  {
    var ab, ba := a & !b, b & !a;
    MaskedPart(a, b);
    MaskedPart(b, a);
    assert Has(a, ab) <==> Registered(events, r, ab);
    assert Has(b, ab) <==> Registered(events, r, ab);
    assert Has(a, ba) <==> Registered(events, r, ba);
    assert Has(b, ba) <==> Registered(events, r, ba);
    NoRest(a, b);
  }

  lemma UnionedIsUnique(g: map<GVK, ActionType>, h: map<GVK, ActionType>, events: set<ClusterEvent>)
    requires Unioned(g, events) && Unioned(h, events)
    ensures g == h
  {
    forall r ensures r in g <==> r in h {
      assert r in g <==> Mentions(events, r);
      assert r in h <==> Mentions(events, r);
    }
    forall r | r in g ensures g[r] == h[r] {
      UnionIsUnique(g[r], h[r], events, r);
    }
  }

  lemma MentionsGrows(events: set<ClusterEvent>, e: ClusterEvent, r: GVK)
    ensures Mentions(events + {e}, r) <==> Mentions(events, r) || e.resource == r
  {
  }

  ghost predicate Joins(v: ActionType, u: ActionType, a: ActionType) {
    forall bits: ActionType :: Has(v, bits) <==> Has(u, bits) || Has(a, bits)
  }

  lemma UnionJoins(u: ActionType, a: ActionType)
    ensures Joins(u | a, u, a)
  {
    forall bits: ActionType ensures Has(u | a, bits) <==> Has(u, bits) || Has(a, bits) {
      HasUnion(u, a, bits);
    }
  }

  lemma UnionGrows(u: ActionType, v: ActionType, events: set<ClusterEvent>, e: ClusterEvent)
    requires IsUnion(u, events, e.resource)
    requires Joins(v, u, e.actionType)
    ensures IsUnion(v, events + {e}, e.resource)
  {
  }

  lemma UnionStarts(events: set<ClusterEvent>, e: ClusterEvent)
    requires !Mentions(events, e.resource)
    ensures IsUnion(e.actionType, events + {e}, e.resource)
  {
  }

  lemma UnionStays(u: ActionType, events: set<ClusterEvent>, e: ClusterEvent, r: GVK)
    requires IsUnion(u, events, r) && r != e.resource
    ensures IsUnion(u, events + {e}, r)
  {
  }

  lemma AddEvent(gvks: map<GVK, ActionType>, events: set<ClusterEvent>, e: ClusterEvent)
    requires Unioned(gvks, events)
    ensures Unioned(WithEvent(gvks, e), events + {e})
  {
    var after := WithEvent(gvks, e);
    forall r ensures r in after <==> Mentions(events + {e}, r) {
      MentionsGrows(events, e, r);
    }
    forall r | r in after ensures IsUnion(after[r], events + {e}, r) {
      if r != e.resource {
        UnionStays(gvks[r], events, e, r);
      } else if r in gvks {
        UnionJoins(gvks[r], e.actionType);
        UnionGrows(gvks[r], after[r], events, e);
      } else {
        UnionStarts(events, e);
      }
    }
  }

  // The index a scheduler builds: every profile's plugins go into a hint map of
  // their own, and the hint maps into one map of unions.
  method BuildEventIndex(profiles: map<string, seq<Plugin>>, hintsEnabled: bool, actions: Actions)
    returns (hints: map<string, HintMap>, gvks: map<GVK, ActionType>)
    requires Has(actions.updateNodeTaint, actions.updateNodeTaint)
    ensures hints.Keys == profiles.Keys
    ensures forall p, e :: p in profiles ==> HintsFor(hints[p], e) == AllHints(profiles[p], e, hintsEnabled, actions)
    ensures forall p, e :: p in profiles ==> (e in hints[p] <==> HeardBy(profiles[p], e, actions))
    ensures Unioned(gvks, AllEvents(hints))
    ensures (exists p, i :: p in profiles && 0 <= i < |profiles[p]| && RegistersNode(profiles[p][i], actions.add))
            ==> NODE in gvks && Has(gvks[NODE], actions.updateNodeTaint)
  {
    hints := map[];
    var names := profiles.Keys;
    while names != {}
      invariant names <= profiles.Keys && hints.Keys == profiles.Keys - names
      invariant forall p, e :: p in hints ==> HintsFor(hints[p], e) == AllHints(profiles[p], e, hintsEnabled, actions)
      invariant forall p, e :: p in hints ==> (e in hints[p] <==> HeardBy(profiles[p], e, actions))
      decreases names
    {
      var p :| p in names;
      var m := BuildQueueingHintMap(profiles[p], hintsEnabled, actions);
      forall e ensures e in m <==> HeardBy(profiles[p], e, actions) {
        HeardExactly(profiles[p], e, hintsEnabled, actions);
        assert e in m <==> HintsFor(m, e) != [];
      }
      hints := hints[p := m];
      names := names - {p};
    }
    gvks := UnionedGVKs(hints);
    if p, i :| p in profiles && 0 <= i < |profiles[p]| && RegistersNode(profiles[p][i], actions.add) {
      var e, fn := AddedNodesBringTaintUpdates(profiles[p], i, hintsEnabled, actions);
      assert HintsFor(hints[p], e) == AllHints(profiles[p], e, hintsEnabled, actions);
      assert e in hints[p];
      RegisteredBitIsUnioned(gvks, AllEvents(hints), e, actions.updateNodeTaint);
    }
  }

  lemma RegisteredBitIsUnioned(gvks: map<GVK, ActionType>, events: set<ClusterEvent>, e: ClusterEvent, bits: ActionType)
    requires Unioned(gvks, events) && e in events && Has(e.actionType, bits)
    ensures e.resource in gvks && Has(gvks[e.resource], bits)
  {
  }

  ghost function AllEvents(hints: map<string, HintMap>): set<ClusterEvent> {
    set p, e | p in hints && e in hints[p] :: e
  }

  // The profiles and their events are visited in any order.
  method UnionedGVKs(hints: map<string, HintMap>) returns (gvks: map<GVK, ActionType>)
    ensures Unioned(gvks, AllEvents(hints))
  {
    gvks := map[];
    ghost var seen: set<ClusterEvent> := {};
    var profiles := hints.Keys;
    while profiles != {}
      invariant profiles <= hints.Keys
      invariant seen == set p, e | p in hints.Keys - profiles && e in hints[p] :: e
      invariant Unioned(gvks, seen)
      decreases profiles
    {
      var p :| p in profiles;
      gvks := UnionProfile(gvks, hints[p].Keys, seen);
      seen := seen + hints[p].Keys;
      profiles := profiles - {p};
    }
  }

  method UnionProfile(gvks0: map<GVK, ActionType>, events: set<ClusterEvent>, ghost seen: set<ClusterEvent>)
    returns (gvks: map<GVK, ActionType>)
    requires Unioned(gvks0, seen)
    ensures Unioned(gvks, seen + events)
  {
    gvks := gvks0;
    var todo := events;
    ghost var done: set<ClusterEvent> := {};
    while todo != {}
      invariant done == events - todo && todo <= events
      invariant Unioned(gvks, seen + done)
      decreases todo
    {
      var evt :| evt in todo;
      AddEvent(gvks, seen + done, evt);
      if evt.resource in gvks {
        gvks := gvks[evt.resource := gvks[evt.resource] | evt.actionType];
      } else {
        gvks := gvks[evt.resource := evt.actionType];
      }
      todo := todo - {evt};
      done := done + {evt};
      assert seen + done == seen + (done - {evt}) + {evt};
    }
    assert done == events;
  }
}
