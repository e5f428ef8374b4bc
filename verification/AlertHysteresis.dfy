/** Alert hysteresis: counting consecutive breaches per rule and target
    (cloudhelm/alerts.py), with the resets that editing or deleting a rule and setting a new
    GPU baseline perform. */
module AlertHysteresis {
  import opened Wrappers

  datatype Operator = Gte | Lte

  /** `overload` marks the metric `service_business_overload_percent`. */
  datatype Rule = Rule(overload: bool, operator: Operator, threshold: real, required: nat)

  datatype Key = Key(rule: nat, target: string)

  datatype AlertState = AlertState(
    active: bool, count: nat, value: real, firstTriggeredAt: Option<int>, evaluatedAt: int)

  datatype Status = Triggered | Recovered

  datatype AlertEvent = AlertEvent(key: Key, status: Status, value: real, threshold: real)

  /** The schema bounds `consecutive_required` below by one. */
  predicate ValidRule(rule: Rule) { rule.required >= 1 }

  predicate IsBreached(rule: Rule, value: real) {
    if rule.overload then value > rule.threshold
    else if rule.operator == Gte then value >= rule.threshold
    else value <= rule.threshold
  }

  // ---------------------------------------------------------------- one evaluation

  datatype Tables = Tables(rules: map<nat, Rule>, states: map<Key, AlertState>, events: seq<AlertEvent>)

  function StateOf(states: map<Key, AlertState>, key: Key): AlertState {
    if key in states then states[key] else AlertState(false, 0, 0.0, None, 0)
  }

  /** The event of one evaluation, if any: the breach run just reached its required length,
      or an active alert saw a value inside its bounds. */
  function Fired(rule: Rule, state: AlertState, breached: bool): Option<Status> {
    if breached && !state.active && state.count + 1 >= rule.required then Some(Triggered)
    else if !breached && state.active then Some(Recovered)
    else None
  }

  function Stepped(rule: Rule, state: AlertState, breached: bool, value: real, now: int): AlertState {
    var fired := Fired(rule, state, breached);
    AlertState(
      if fired.Some? then fired.value == Triggered else state.active,
      if breached then state.count + 1 else 0,
      value,
      if fired.None? then state.firstTriggeredAt else if fired.value == Triggered then Some(now) else None,
      now)
  }

  function Evaluated(t: Tables, key: Key, value: real, now: int): Tables
    requires key.rule in t.rules
  {
    var rule := t.rules[key.rule];
    var state := StateOf(t.states, key);
    var breached := IsBreached(rule, value);
    var fired := Fired(rule, state, breached);
    Tables(
      t.rules,
      t.states[key := Stepped(rule, state, breached, value, now)],
      if fired.Some? then t.events + [AlertEvent(key, fired.value, value, rule.threshold)] else t.events)
  }

  function Created(t: Tables, id: nat, rule: Rule): Tables {
    if id in t.rules then t else t.(rules := t.rules[id := rule])
  }

  function WithoutStates(states: map<Key, AlertState>, id: nat): map<Key, AlertState> {
    map key | key in states && key.rule != id :: states[key]
  }

  function Edited(t: Tables, id: nat, rule: Rule): Tables {
    if id !in t.rules then t else Tables(t.rules[id := rule], WithoutStates(t.states, id), t.events)
  }

  function EventsOfOthers(events: seq<AlertEvent>, id: nat): (r: seq<AlertEvent>)
    ensures |r| <= |events|
  {
    if events == [] then []
    else
      EventsOfOthers(events[..|events| - 1], id)
        + if events[|events| - 1].key.rule == id then [] else [events[|events| - 1]]
  }

  function Deleted(t: Tables, id: nat): Tables {
    if id !in t.rules then t
    else Tables(t.rules - {id}, WithoutStates(t.states, id), EventsOfOthers(t.events, id))
  }

  /** A new baseline of one target forgets its states under the given rules, those on the
      number of missing GPUs. */
  function Rebased(t: Tables, ids: set<nat>, target: string): Tables {
    t.(states := map key | key in t.states && !(key.rule in ids && key.target == target) :: t.states[key])
  }

  class AlertEngine {
    var rules: map<nat, Rule>
    var states: map<Key, AlertState>
    var events: seq<AlertEvent>

    function State(): Tables
      reads this
    {
      Tables(rules, states, events)
    }

    constructor ()
      ensures State() == Tables(map[], map[], [])
    {
      rules, states, events := map[], map[], [];
    }

    method Evaluate(key: Key, value: real, now: int) returns (fired: Option<Status>)
      requires key.rule in rules
      modifies this
      ensures State() == Evaluated(old(State()), key, value, now)
      ensures fired == Fired(rules[key.rule], StateOf(old(states), key), IsBreached(rules[key.rule], value))
    {
      var rule := rules[key.rule];
      var state := StateOf(states, key);
      state := state.(value := value, evaluatedAt := now);
      if IsBreached(rule, value) {
        state := state.(count := state.count + 1);
        if state.active || state.count < rule.required {
          states := states[key := state];
          return None;
        }
        state := state.(active := true, firstTriggeredAt := Some(now));
        fired := Some(Triggered);
      } else {
        state := state.(count := 0);
        if !state.active {
          states := states[key := state];
          return None;
        }
        state := state.(active := false, firstTriggeredAt := None);
        fired := Some(Recovered);
      }
      states := states[key := state];
      events := events + [AlertEvent(key, fired.value, value, rule.threshold)];
    }

    method CreateRule(id: nat, rule: Rule)
      modifies this
      ensures State() == Created(old(State()), id, rule)
    {
      if id !in rules { rules := rules[id := rule]; }
    }

    method UpdateRule(id: nat, rule: Rule) returns (known: bool)
      modifies this
      ensures known == (id in old(rules)) && State() == Edited(old(State()), id, rule)
    {
      if id !in rules { return false; }
      rules := rules[id := rule];
      states := map key | key in states && key.rule != id :: states[key];
      return true;
    }

    method DeleteRule(id: nat) returns (known: bool)
      modifies this
      ensures known == (id in old(rules)) && State() == Deleted(old(State()), id)
    {
      if id !in rules { return false; }
      events := EventsOfOthers(events, id);
      states := map key | key in states && key.rule != id :: states[key];
      rules := rules - {id};
      return true;
    }

    method ResetBaseline(ids: set<nat>, target: string)
      modifies this
      ensures State() == Rebased(old(State()), ids, target)
    {
      states := map key | key in states && !(key.rule in ids && key.target == target) :: states[key];
    }
  }

  // ---------------------------------------------------------------- whole histories

  datatype Step =
    | Observe(key: Key, value: real, now: int)
    | Create(id: nat, rule: Rule)
    | Edit(id: nat, rule: Rule)
    | Delete(id: nat)
    | Rebase(ids: set<nat>, target: string)

  /** Evaluations only concern rules that exist, and rules carry a legal count. */
  ghost predicate Legal(steps: seq<Step>) {
    forall i :: 0 <= i < |steps| ==>
      match steps[i]
      case Observe(key, _, _) => key.rule in Run(steps[..i]).rules
      case Create(_, rule) => ValidRule(rule)
      case Edit(_, rule) => ValidRule(rule)
      case Delete(_) => true
      case Rebase(_, _) => true
  }

  /** The step makes the target's history under the rule start again. */
  predicate Restarts(step: Step, key: Key) {
    match step
    case Observe(_, _, _) => false
    case Create(_, _) => false
    case Edit(id, _) => id == key.rule
    case Delete(id) => id == key.rule
    case Rebase(ids, target) => key.rule in ids && key.target == target
  }

  function Apply(t: Tables, step: Step): Tables {
    match step
    case Observe(key, value, now) => if key.rule in t.rules then Evaluated(t, key, value, now) else t
    case Create(id, rule) => Created(t, id, rule)
    case Edit(id, rule) => Edited(t, id, rule)
    case Delete(id) => Deleted(t, id)
    case Rebase(ids, target) => Rebased(t, ids, target)
  }

  function Run(steps: seq<Step>): Tables {
    if steps == [] then Tables(map[], map[], [])
    else Apply(Run(steps[..|steps| - 1]), steps[|steps| - 1])
  }

  /** Which observations of this target breached its rule, since its history last started. */
  function Breaches(steps: seq<Step>, key: Key): seq<bool> {
    if steps == [] then []
    else
      var before, last := steps[..|steps| - 1], steps[|steps| - 1];
      if Restarts(last, key) then []
      else if last.Observe? && last.key == key && key.rule in Run(before).rules then
        Breaches(before, key) + [IsBreached(Run(before).rules[key.rule], last.value)]
      else Breaches(before, key)
  }

  /** The events recorded for this target since its history last started. */
  function Emitted(steps: seq<Step>, key: Key): seq<Status> {
    if steps == [] then []
    else
      var before, last := steps[..|steps| - 1], steps[|steps| - 1];
      if Restarts(last, key) then []
      else Emitted(before, key) + NewEvents(Run(before).events, Run(steps).events, key)
  }

  function NewEvents(before: seq<AlertEvent>, after: seq<AlertEvent>, key: Key): seq<Status> {
    if |after| > |before| && after[|after| - 1].key == key then [after[|after| - 1].status] else []
  }

  /** Length of the run of breaches at the end of a history. */
  function TrailingRun(h: seq<bool>): nat {
    if h == [] || !h[|h| - 1] then 0 else 1 + TrailingRun(h[..|h| - 1])
  }

  /** The event that belongs to position `i` of a history: a trigger exactly where the run
      of breaches reaches the required length, a recovery exactly at the next value inside
      the bounds. */
  function EventAt(h: seq<bool>, required: nat, i: nat): seq<Status>
    requires i < |h|
  {
    if h[i] && TrailingRun(h[..i + 1]) == required then [Triggered]
    else if !h[i] && TrailingRun(h[..i]) >= required then [Recovered]
    else []
  }

  function EventsOf(h: seq<bool>, required: nat): seq<Status> {
    if h == [] then []
    else EventsOf(h[..|h| - 1], required) + EventAt(h, required, |h| - 1)
  }

  ghost predicate ClosedForm(t: Tables, key: Key, h: seq<bool>, emitted: seq<Status>) {
    && (key in t.states <==> h != [])
    && (h != [] ==> key.rule in t.rules)
    && (key.rule in t.rules ==>
          var required := t.rules[key.rule].required;
          && required >= 1
          && StateOf(t.states, key).count == TrailingRun(h)
          && (StateOf(t.states, key).active <==> TrailingRun(h) >= required)
          && emitted == EventsOf(h, required))
  }

  lemma ObserveKeepsClosedForm(t: Tables, key: Key, h: seq<bool>, emitted: seq<Status>, value: real, now: int)
    requires key.rule in t.rules && ClosedForm(t, key, h, emitted)
    ensures var breached := IsBreached(t.rules[key.rule], value);
      var next := Evaluated(t, key, value, now);
      ClosedForm(next, key, h + [breached], emitted + NewEvents(t.events, next.events, key))
  {
    var breached := IsBreached(t.rules[key.rule], value);
    var g := h + [breached];
    assert g[..|h|] == h && g[..|h| + 1] == g;
  }

  lemma PrefixLegal(steps: seq<Step>)
    requires Legal(steps) && steps != []
    ensures Legal(steps[..|steps| - 1])
  {
    var before := steps[..|steps| - 1];
    forall i | 0 <= i < |before|
      ensures before[i] == steps[i] && before[..i] == steps[..i]
    {}
  }

  lemma OtherStepKeepsClosedForm(t: Tables, step: Step, key: Key, h: seq<bool>, emitted: seq<Status>)
    requires ClosedForm(t, key, h, emitted)
    requires step.Observe? ==> step.key != key
    requires !Restarts(step, key) && (step.Edit? || step.Create? ==> ValidRule(step.rule))
    requires key.rule !in t.rules ==> emitted == []
    ensures ClosedForm(Apply(t, step), key, h, emitted)
    ensures NewEvents(t.events, Apply(t, step).events, key) == []
  {}

  lemma RestartKeepsClosedForm(t: Tables, step: Step, key: Key, h: seq<bool>, emitted: seq<Status>)
    requires ClosedForm(t, key, h, emitted) && Restarts(step, key)
    requires step.Edit? ==> ValidRule(step.rule)
    ensures ClosedForm(Apply(t, step), key, [], [])
  {}

  /** Over any interleaving of evaluations of all rules and targets, of creating, editing and
      deleting rules and of new baselines, the stored count of a target is the length of its
      trailing breach run since its history last started, it is active exactly when that run
      has the required length, and its recorded events are exactly those of the closed form. */
  lemma {:induction false} HysteresisClosedForm(steps: seq<Step>, key: Key)
    requires Legal(steps)
    ensures ClosedForm(Run(steps), key, Breaches(steps, key), Emitted(steps, key))
  {
    if steps != [] {
      var before, last := steps[..|steps| - 1], steps[|steps| - 1];
      PrefixLegal(steps);
      HysteresisClosedForm(before, key);
      var t, h, emitted := Run(before), Breaches(before, key), Emitted(before, key);
      if last.Observe? && last.key == key {
        ObserveKeepsClosedForm(t, key, h, emitted, last.value, last.now);
      } else if Restarts(last, key) {
        RestartKeepsClosedForm(t, last, key, h, emitted);
      } else {
        if key.rule !in t.rules { NothingWithoutRule(before, key); }
        OtherStepKeepsClosedForm(t, last, key, h, emitted);
      }
    }
  }

  /** The events of one target strictly alternate, starting with a trigger, and the alert is
      active exactly when the last of them is a trigger. */
  lemma {:induction false} EventsAlternate(h: seq<bool>, required: nat)
    requires required >= 1
    ensures var events := EventsOf(h, required);
      && (forall i :: 0 <= i < |events| ==> events[i] == if i % 2 == 0 then Triggered else Recovered)
      && (TrailingRun(h) >= required <==> |events| % 2 == 1)
  {
    if h != [] {
      EventsAlternate(h[..|h| - 1], required);
      assert h[..|h|] == h;
    }
  }

  /** The closed form read at the store: alternation of what was recorded. */
  lemma RecordedEventsAlternate(steps: seq<Step>, key: Key)
    requires Legal(steps)
    ensures var emitted := Emitted(steps, key);
      && (forall i :: 0 <= i < |emitted| ==> emitted[i] == if i % 2 == 0 then Triggered else Recovered)
      && (StateOf(Run(steps).states, key).active <==> |emitted| % 2 == 1)
  {
    HysteresisClosedForm(steps, key);
    if key.rule in Run(steps).rules {
      EventsAlternate(Breaches(steps, key), Run(steps).rules[key.rule].required);
    } else {
      NothingWithoutRule(steps, key);
    }
  }

  lemma {:induction false} NothingWithoutRule(steps: seq<Step>, key: Key)
    requires Legal(steps) && key.rule !in Run(steps).rules
    ensures Emitted(steps, key) == []
  {
    if steps != [] {
      PrefixLegal(steps);
      if !Restarts(steps[|steps| - 1], key) { NothingWithoutRule(steps[..|steps| - 1], key); }
    }
  }

  // ---------------------------------------------------------------- read at the values

  /** The values observed for this target since its history last started. */
  function Values(steps: seq<Step>, key: Key): seq<real> {
    if steps == [] then []
    else
      var before, last := steps[..|steps| - 1], steps[|steps| - 1];
      if Restarts(last, key) then []
      else if last.Observe? && last.key == key then Values(before, key) + [last.value]
      else Values(before, key)
  }

  /** The rule a history leaves under an id: the last one set since it was last deleted, where
      creating sets it only if there is none. */
  function RuleLeft(steps: seq<Step>, id: nat): Option<Rule> {
    if steps == [] then None
    else
      var before := RuleLeft(steps[..|steps| - 1], id);
      match steps[|steps| - 1]
      case Create(i, rule) => if i == id && before.None? then Some(rule) else before
      case Edit(i, rule) => if i == id && before.Some? then Some(rule) else before
      case Delete(i) => if i == id then None else before
      case Observe(_, _, _) => before
      case Rebase(_, _) => before
  }

  lemma {:induction false} RulesAreLeft(steps: seq<Step>, id: nat)
    ensures RuleLeft(steps, id) == if id in Run(steps).rules then Some(Run(steps).rules[id]) else None
  {
    if steps != [] { RulesAreLeft(steps[..|steps| - 1], id); }
  }

  /** A value breaches a rule: it lies above the threshold of an overload rule, and beyond or
      on the threshold of any other, on the side of its operator. */
  ghost predicate Beyond(rule: Rule, value: real) {
    || (value > rule.threshold && (rule.overload || rule.operator == Gte))
    || (value < rule.threshold && !rule.overload && rule.operator == Lte)
    || (value == rule.threshold && !rule.overload)
  }

  /** Every observation counts, against the rule that is in force at the end. */
  lemma {:induction false} BreachesAreBeyond(steps: seq<Step>, key: Key, i: nat)
    requires Legal(steps) && i < |Values(steps, key)|
    ensures |Breaches(steps, key)| == |Values(steps, key)| && RuleLeft(steps, key.rule).Some?
    ensures Breaches(steps, key)[i] <==> Beyond(RuleLeft(steps, key.rule).value, Values(steps, key)[i])
  {
    var before, last := steps[..|steps| - 1], steps[|steps| - 1];
    PrefixLegal(steps);
    RulesAreLeft(before, key.rule);
    RulesAreLeft(steps, key.rule);
    BreachesAlike(before, key);
    if i < |Values(before, key)| { BreachesAreBeyond(before, key, i); }
    hide Beyond;
    if last.Observe? && last.key == key { BreachIsBeyond(Run(before).rules[key.rule], last.value); }
  }

  lemma BreachIsBeyond(rule: Rule, value: real)
    ensures IsBreached(rule, value) <==> Beyond(rule, value)
  {}

  lemma {:induction false} BreachesAlike(steps: seq<Step>, key: Key)
    requires Legal(steps)
    ensures |Breaches(steps, key)| == |Values(steps, key)|
  {
    if steps != [] {
      PrefixLegal(steps);
      BreachesAlike(steps[..|steps| - 1], key);
      assert steps[|steps| - 1].Observe? ==> steps[|steps| - 1].key.rule in Run(steps[..|steps| - 1]).rules;
    }
  }

  /** An alert is active if and only if, since its history last started, the values once were
      beyond the threshold as many times in a row as the rule requires, and none has been
      within it since. */
  lemma ActiveExactly(steps: seq<Step>, key: Key)
    requires Legal(steps) && RuleLeft(steps, key.rule).Some?
    ensures var rule, values := RuleLeft(steps, key.rule).value, Values(steps, key);
      StateOf(Run(steps).states, key).active <==>
        |values| >= rule.required && forall i :: |values| - rule.required <= i < |values| ==> Beyond(rule, values[i])
  {
    hide Beyond;
    RulesAreLeft(steps, key.rule);
    HysteresisClosedForm(steps, key);
    BreachesAlike(steps, key);
    var h, values := Breaches(steps, key), Values(steps, key);
    TrailingRunIs(h, RuleLeft(steps, key.rule).value.required);
    forall i | 0 <= i < |values| ensures h[i] <==> Beyond(RuleLeft(steps, key.rule).value, values[i]) {
      BreachesAreBeyond(steps, key, i);
    }
  }

  lemma {:induction false} TrailingRunIs(h: seq<bool>, n: nat)
    ensures TrailingRun(h) >= n <==> |h| >= n && forall i :: |h| - n <= i < |h| ==> h[i]
  {
    if h != [] && h[|h| - 1] && n > 0 { TrailingRunIs(h[..|h| - 1], n - 1); }
  }

  // ---------------------------------------------------------------- read at the store

  /** The events stored for a target, in order. */
  function StoredFor(events: seq<AlertEvent>, key: Key): seq<AlertEvent> {
    if events == [] then []
    else
      var last := events[|events| - 1];
      StoredFor(events[..|events| - 1], key) + if last.key == key then [last] else []
  }

  lemma {:induction false} StoredAfter(events: seq<AlertEvent>, e: AlertEvent, key: Key)
    ensures StoredFor(events + [e], key) == StoredFor(events, key) + if e.key == key then [e] else []
  {
    assert (events + [e])[..|events|] == events;
  }

  /** Deleting a rule deletes its events and leaves those of all other rules, in order. */
  lemma {:induction false} OthersStayStored(events: seq<AlertEvent>, id: nat, key: Key)
    ensures StoredFor(EventsOfOthers(events, id), key) == if key.rule == id then [] else StoredFor(events, key)
  {
    if events != [] {
      var front, last := events[..|events| - 1], events[|events| - 1];
      OthersStayStored(front, id, key);
      if last.key.rule != id {
        StoredAfter(EventsOfOthers(front, id), last, key);
      } else {
        assert EventsOfOthers(events, id) == EventsOfOthers(front, id);
      }
    }
  }

  /** What the last observation of a history fires, by the closed form. */
  function LastEvent(h: seq<bool>, required: nat): Option<Status> {
    if h == [] || EventAt(h, required, |h| - 1) == [] then None else Some(EventAt(h, required, |h| - 1)[0])
  }

  /** The events a history records for a target since its rule was last deleted, each with the
      value and the threshold it was recorded at. */
  function Recorded(steps: seq<Step>, key: Key): seq<AlertEvent> {
    if steps == [] then []
    else
      var before, last := steps[..|steps| - 1], steps[|steps| - 1];
      var rule := RuleLeft(before, key.rule);
      if last == Delete(key.rule) then []
      else if last.Observe? && last.key == key && rule.Some? && LastEvent(Breaches(steps, key), rule.value.required).Some? then
        Recorded(before, key)
          + [AlertEvent(key, LastEvent(Breaches(steps, key), rule.value.required).value, last.value, rule.value.threshold)]
      else Recorded(before, key)
  }

  lemma FiredIs(t: Tables, key: Key, h: seq<bool>, emitted: seq<Status>, breached: bool)
    requires key.rule in t.rules && ClosedForm(t, key, h, emitted)
    ensures Fired(t.rules[key.rule], StateOf(t.states, key), breached) == LastEvent(h + [breached], t.rules[key.rule].required)
  {
    var g := h + [breached];
    assert g[..|h|] == h && g[..|h| + 1] == g;
  }

  lemma {:induction false} NothingStoredWithoutRule(steps: seq<Step>, key: Key)
    requires Legal(steps) && key.rule !in Run(steps).rules
    ensures StoredFor(Run(steps).events, key) == [] && Recorded(steps, key) == []
  {
    if steps != [] {
      PrefixLegal(steps);
      var before, last := steps[..|steps| - 1], steps[|steps| - 1];
      if last == Delete(key.rule) {
        if key.rule in Run(before).rules {
          OthersStayStored(Run(before).events, key.rule, key);
        } else {
          NothingStoredWithoutRule(before, key);
        }
      } else {
        NothingStoredWithoutRule(before, key);
        StepStores(before, last, key);
      }
    }
  }

  /** What one step does to the events stored for a target. */
  lemma StepStores(before: seq<Step>, last: Step, key: Key)
    requires last.Observe? ==> last.key.rule in Run(before).rules
    ensures var t := Run(before);
      StoredFor(Apply(t, last).events, key) ==
        if last == Delete(key.rule) && key.rule in t.rules then []
        else if last.Observe? && last.key == key then
          var rule := t.rules[key.rule];
          var fired := Fired(rule, StateOf(t.states, key), IsBreached(rule, last.value));
          StoredFor(t.events, key) +
            if fired.Some? then [AlertEvent(key, fired.value, last.value, rule.threshold)] else []
        else StoredFor(t.events, key)
  {
    hide Run, Fired, Stepped, IsBreached;
    var t := Run(before);
    if last.Delete? {
      OthersStayStored(t.events, last.id, key);
    } else if last.Observe? {
      var rule := t.rules[last.key.rule];
      var fired := Fired(rule, StateOf(t.states, last.key), IsBreached(rule, last.value));
      if fired.Some? { StoredAfter(t.events, AlertEvent(last.key, fired.value, last.value, rule.threshold), key); }
    }
  }

  /** The events stored for a target are exactly those the closed form records. */
  lemma {:induction false} StoredExactly(steps: seq<Step>, key: Key)
    requires Legal(steps)
    ensures StoredFor(Run(steps).events, key) == Recorded(steps, key)
  {
    hide Fired, Stepped, IsBreached, LastEvent, StoredFor;
    if steps == [] {
      StoredNothing(key);
    } else {
      PrefixLegal(steps);
      var before, last := steps[..|steps| - 1], steps[|steps| - 1];
      StoredExactly(before, key);
      StepStores(before, last, key);
      RulesAreLeft(before, key.rule);
      if last == Delete(key.rule) && key.rule !in Run(before).rules {
        NothingStoredWithoutRule(before, key);
      } else if last.Observe? && last.key == key {
        HysteresisClosedForm(before, key);
        FiredIs(Run(before), key, Breaches(before, key), Emitted(before, key), IsBreached(Run(before).rules[key.rule], last.value));
      }
    }
  }

  lemma StoredNothing(key: Key)
    ensures StoredFor(Run([]).events, key) == [] && Recorded([], key) == []
  {}

  /** Since when the alert of a target is active, by the closed form. */
  function TriggeredAt(steps: seq<Step>, key: Key): Option<int> {
    if steps == [] then None
    else
      var before, last := steps[..|steps| - 1], steps[|steps| - 1];
      var rule := RuleLeft(before, key.rule);
      if Restarts(last, key) then None
      else if last.Observe? && last.key == key && rule.Some? then
        match LastEvent(Breaches(steps, key), rule.value.required)
        case Some(Triggered) => Some(last.now)
        case Some(Recovered) => None
        case None => TriggeredAt(before, key)
      else TriggeredAt(before, key)
  }

  /** The stored state shows since when the alert is active, if it is. */
  lemma {:induction false} StateShowsTrigger(steps: seq<Step>, key: Key)
    requires Legal(steps)
    ensures StateOf(Run(steps).states, key).firstTriggeredAt == TriggeredAt(steps, key)
    ensures StateOf(Run(steps).states, key).active <==> TriggeredAt(steps, key).Some?
  {
    hide IsBreached, LastEvent;
    if steps != [] {
      PrefixLegal(steps);
      var before, last := steps[..|steps| - 1], steps[|steps| - 1];
      StateShowsTrigger(before, key);
      RulesAreLeft(before, key.rule);
      HysteresisClosedForm(before, key);
      if last.Observe? && last.key == key {
        FiredIs(Run(before), key, Breaches(before, key), Emitted(before, key), IsBreached(Run(before).rules[key.rule], last.value));
      }
    }
  }

  /** It shows the value observed last. */
  lemma {:induction false} StateShowsLast(steps: seq<Step>, key: Key)
    requires Legal(steps)
    ensures key in Run(steps).states <==> Values(steps, key) != []
    ensures var values := Values(steps, key);
      values != [] ==> StateOf(Run(steps).states, key).value == values[|values| - 1]
  {
    hide IsBreached;
    if steps != [] {
      PrefixLegal(steps);
      HysteresisClosedForm(steps, key);
      BreachesAlike(steps, key);
      StateShowsLast(steps[..|steps| - 1], key);
      assert steps[|steps| - 1].Observe? ==> steps[|steps| - 1].key.rule in Run(steps[..|steps| - 1]).rules;
    }
  }
}
