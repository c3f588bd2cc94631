/**
 * The evaluate stage: after the fill stage, decide the single next move of the turn
 * (chain to a next ability, mark abilities complete, stand still on a pending prompt,
 * fall back to the default ability, infer the next slot from history, or prompt it).
 *
 * `Evaluation` is the stage as a function of the state before it runs: the actions it
 * dispatches and the error it throws, if any. `EvaluateStage.Evaluate` is the
 * `evaluate` function of evaluate.ts, which reads the store and dispatches one action
 * at a time, and is proved to dispatch exactly those actions.
 */
module EvaluateLogic {
  import opened Wrappers
  import opened WolfTypes
  import opened Seqs
  import opened Helpers
  import opened SlotActions
  import opened Store

  /** The user callbacks and the unshown fill-stage helper `fulfillSlot`, as oracles. */
  datatype Callbacks = Callbacks(
    runNextAbility: (nat, Storage, WolfState) -> Option<NextAbilityResult>,
    runGetValue: (nat, seq<SlotRecord>, Storage) -> Value,
    fulfillSlot: (Storage, Value, SlotId, WolfState) -> seq<StoreAction>)

  // ---------------------------------------------------------------------------
  // Completion

  /**
   * An ability is complete when it exists, every slot it declares has a status entry
   * for that ability, and every enabled status entry of that ability is done.
   */
  function IsAbilityCompletedByFilledSlotsOnCurrentTurn(flow: Flow, status: seq<SlotStatus>, abilityName: string): (r: bool)
    ensures r <==>
      && FindAbility(flow.abilities, abilityName).Some?
      && (forall slot :: slot in AbilitySlots(FindAbility(flow.abilities, abilityName).value) ==>
            HasStatusEntry(status, abilityName, slot.name))
      && (forall e :: e in status && e.abilityName == abilityName && e.isEnabled ==> e.isDone)
  {
    match FindAbility(flow.abilities, abilityName)
    case None => false
    case Some(ability) =>
      var ofAbility := (e: SlotStatus) => e.abilityName == ability.name;
      var enabled := (e: SlotStatus) => e.isEnabled;
      var focusedSlotStatus := Filter(status, ofAbility);
      FilterMembers(status, ofAbility);
      FilterMembers(focusedSlotStatus, enabled);
      var isEveryAbilitySlotInSlotStatus :=
        All(AbilitySlots(ability), (slot: Slot) => Any(focusedSlotStatus, (e: SlotStatus) => e.slotName == slot.name));
      isEveryAbilitySlotInSlotStatus && All(Filter(focusedSlotStatus, enabled), (e: SlotStatus) => e.isDone)
  }

  /**
   * The abilities of the slots filled on this turn that are now complete, one entry per
   * filled slot (so possibly repeated), in the order of the filled slots.
   */
  function GetAbilitiesCompleted(flow: Flow, s: WolfState): (r: seq<string>)
    ensures |r| <= |s.filledSlotsOnCurrentTurn|
    ensures forall n :: n in r <==>
      (exists f :: f in s.filledSlotsOnCurrentTurn && f.abilityName == n)
      && IsAbilityCompletedByFilledSlotsOnCurrentTurn(flow, s.slotStatus, n)
  {
    if |s.filledSlotsOnCurrentTurn| == 0 then []
    else
      var toName := (f: SlotId) => f.abilityName;
      var completed := (n: string) => IsAbilityCompletedByFilledSlotsOnCurrentTurn(flow, s.slotStatus, n);
      var abilityList := Map(s.filledSlotsOnCurrentTurn, toName);
      MapMembers(s.filledSlotsOnCurrentTurn, toName);
      FilterMembers(abilityList, completed);
      Filter(abilityList, completed)
  }

  /**
   * The first completed ability is that of the earliest filled slot whose ability is
   * complete: the one the stage chains from after marking completions.
   */
  lemma FirstCompletedFill(flow: Flow, s: WolfState, k: nat)
    requires k < |s.filledSlotsOnCurrentTurn|
    requires IsAbilityCompletedByFilledSlotsOnCurrentTurn(flow, s.slotStatus, s.filledSlotsOnCurrentTurn[k].abilityName)
    requires forall j :: 0 <= j < k ==> !IsAbilityCompletedByFilledSlotsOnCurrentTurn(flow, s.slotStatus, s.filledSlotsOnCurrentTurn[j].abilityName)
    ensures |GetAbilitiesCompleted(flow, s)| > 0
    ensures GetAbilitiesCompleted(flow, s)[0] == s.filledSlotsOnCurrentTurn[k].abilityName
  {
    var toName := (f: SlotId) => f.abilityName;
    var completed := (n: string) => IsAbilityCompletedByFilledSlotsOnCurrentTurn(flow, s.slotStatus, n);
    FilterFirst(Map(s.filledSlotsOnCurrentTurn, toName), completed, k);
  }

  /** The ability names of the slots filled on this turn, in fill order. */
  function FilledAbilityNames(s: WolfState): (r: seq<string>)
    ensures |r| == |s.filledSlotsOnCurrentTurn|
    ensures forall i :: 0 <= i < |r| ==> r[i] == s.filledSlotsOnCurrentTurn[i].abilityName
  {
    Map(s.filledSlotsOnCurrentTurn, (f: SlotId) => f.abilityName)
  }

  /**
   * Deduplicated, the completed abilities are in the order in which their names first
   * occur among the filled slots: `abilityCompleted` is dispatched in that order.
   */
  lemma CompletionOrder(flow: Flow, s: WolfState, i: nat, j: nat)
    requires i < j < |Dedup(GetAbilitiesCompleted(flow, s))|
    ensures var done := Dedup(GetAbilitiesCompleted(flow, s));
      && done[i] in FilledAbilityNames(s) && done[j] in FilledAbilityNames(s)
      && FirstIndex(FilledAbilityNames(s), done[i]) < FirstIndex(FilledAbilityNames(s), done[j])
  {
    var toName := (f: SlotId) => f.abilityName;
    var completed := (n: string) => IsAbilityCompletedByFilledSlotsOnCurrentTurn(flow, s.slotStatus, n);
    var names := Map(s.filledSlotsOnCurrentTurn, toName);
    var all := GetAbilitiesCompleted(flow, s);
    var done := Dedup(all);
    assert |s.filledSlotsOnCurrentTurn| > 0;
    assert all == Filter(names, completed);
    FilterMembers(names, completed);
    FilterKeepsOrder(names, completed, done[i], done[j]);
  }

  /** Is the ability recorded as completed in the ability status list? */
  function IsAbilityCompleted(abilityName: string, abilityStatus: seq<AbilityStatus>): (r: bool)
    ensures r <==> exists a :: a in abilityStatus && a.abilityName == abilityName && a.isCompleted
  {
    Any(abilityStatus, (a: AbilityStatus) => a.abilityName == abilityName && a.isCompleted)
  }

  /** The result of the completed ability's `nextAbility` callback; null without one. */
  function GetNextAbility(flow: Flow, cb: Callbacks, abilityName: string, storage: Storage, s: WolfState): (r: Option<NextAbilityResult>)
    ensures FindAbility(flow.abilities, abilityName).None? ==> r.None?
    ensures FindAbility(flow.abilities, abilityName).Some? && FindAbility(flow.abilities, abilityName).value.nextAbility.None? ==> r.None?
    ensures FindAbility(flow.abilities, abilityName).Some? && FindAbility(flow.abilities, abilityName).value.nextAbility.Some? ==>
      r == cb.runNextAbility(FindAbility(flow.abilities, abilityName).value.nextAbility.value, storage, s)
  {
    match FindAbility(flow.abilities, abilityName)
    case Some(ability) =>
      if ability.nextAbility.Some? then cb.runNextAbility(ability.nextAbility.value, storage, s) else None
    case None => None
  }

  // ---------------------------------------------------------------------------
  // Slot selection

  /**
   * getUnfilledEnabledSlots (not shown; assumed): the status entries of the ability that
   * are enabled and not done, in status order, as slot ids.
   */
  function GetUnfilledEnabledSlots(status: seq<SlotStatus>, abilityName: string): (r: seq<SlotId>)
    ensures forall id :: id in r <==>
      exists e :: e in status && e.abilityName == abilityName && e.isEnabled && !e.isDone && id == SlotId(abilityName, e.slotName)
  {
    var unfilledEnabled := (e: SlotStatus) => e.abilityName == abilityName && e.isEnabled && !e.isDone;
    var toId := (e: SlotStatus) => SlotId(e.abilityName, e.slotName);
    FilterMembers(status, unfilledEnabled);
    MapMembers(Filter(status, unfilledEnabled), toId);
    Map(Filter(status, unfilledEnabled), toId)
  }

  /** The ability's declared slots that have no status entry, as slot ids, in declaration order. */
  function GetMissingSlotsOnSlotStatus(flow: Flow, status: seq<SlotStatus>, focusedAbility: string): (r: seq<SlotId>)
    ensures FindAbility(flow.abilities, focusedAbility).None? ==> r == []
    ensures forall id :: id in r <==>
      && FindAbility(flow.abilities, focusedAbility).Some?
      && id.abilityName == focusedAbility
      && (exists slot :: slot in AbilitySlots(FindAbility(flow.abilities, focusedAbility).value) && slot.name == id.slotName)
      && !HasStatusEntry(status, focusedAbility, id.slotName)
  {
    match FindAbility(flow.abilities, focusedAbility)
    case None => []
    case Some(ability) =>
      var ofAbility := (e: SlotStatus) => e.abilityName == focusedAbility;
      var toSlotName := (e: SlotStatus) => e.slotName;
      var namesOfSlotStatusOnAbility := Map(Filter(status, ofAbility), toSlotName);
      FilterMembers(status, ofAbility);
      MapMembers(Filter(status, ofAbility), toSlotName);
      var toName := (slot: Slot) => slot.name;
      var names := Map(AbilitySlots(ability), toName);
      MapMembers(AbilitySlots(ability), toName);
      var missing := (n: string) => n !in namesOfSlotStatusOnAbility;
      var toId := (n: string) => SlotId(focusedAbility, n);
      FilterMembers(names, missing);
      MapMembers(Filter(names, missing), toId);
      Map(Filter(names, missing), toId)
  }

  /**
   * The candidate slots of an ability: the missing ones, then the unfilled enabled ones,
   * each resolved to the first declared slot of that name (unresolvable ids dropped).
   */
  function GetUnfilledSlots(flow: Flow, status: seq<SlotStatus>, focusedAbility: string): (r: seq<Slot>)
    ensures FindAbility(flow.abilities, focusedAbility).None? ==> r == []
    ensures forall slot :: slot in r ==> slot in AbilitySlots(FindAbility(flow.abilities, focusedAbility).value)
  {
    match FindAbility(flow.abilities, focusedAbility)
    case None => []
    case Some(ability) =>
      var abilitySlots := AbilitySlots(ability);
      var allUnfilledSlotIds := GetMissingSlotsOnSlotStatus(flow, status, focusedAbility) + GetUnfilledEnabledSlots(status, focusedAbility);
      var resolve := (id: SlotId) => Find(abilitySlots, (slot: Slot) => slot.name == id.slotName);
      var resolved := Map(allUnfilledSlotIds, resolve);
      assert forall slot :: slot in Somes(resolved) ==> slot in abilitySlots by {
        SomesMembers(resolved);
        MapMembers(allUnfilledSlotIds, resolve);
        forall slot | slot in Somes(resolved) ensures slot in abilitySlots {
          var id :| id in allUnfilledSlotIds && Some(slot) == resolve(id);
        }
      }
      Somes(resolved)
  }

  /** The next slot to prompt: the focused ability's first candidate, or null. */
  function FindNextSlotToPrompt(flow: Flow, s: WolfState): (r: Option<SlotId>)
    ensures !Named(s.focusedAbility) ==> r.None?
    ensures r.Some? ==> Named(s.focusedAbility) && r.value.abilityName == s.focusedAbility.value
    ensures r.Some? ==> FindAbility(flow.abilities, s.focusedAbility.value).Some?
    ensures r.Some? ==> exists slot :: slot in AbilitySlots(FindAbility(flow.abilities, s.focusedAbility.value).value) && slot.name == r.value.slotName
  {
    if !Named(s.focusedAbility) then None
    else
      var unfilledSlots := GetUnfilledSlots(flow, s.slotStatus, s.focusedAbility.value);
      if |unfilledSlots| == 0 then None
      else Some(SlotId(s.focusedAbility.value, unfilledSlots[0].name))
  }

  // ---------------------------------------------------------------------------
  // Trace inference

  /** runTraceGetValue: the trace's `getValue` result, or null when it has none. */
  function RunTraceGetValue(cb: Callbacks, storage: Storage, records: seq<SlotRecord>, trace: Trace): (r: Value)
    ensures trace.getValue.None? ==> r == Null
    ensures trace.getValue.Some? ==> r == cb.runGetValue(trace.getValue.value, records, storage)
  {
    if trace.getValue.None? then Null else cb.runGetValue(trace.getValue.value, records, storage)
  }

  /**
   * What runTraceLogic decides for a slot: the lookup error, the inferred value (the
   * trace has `getValue` and its result is truthy), or no value.
   */
  function InferredValue(flow: Flow, cb: Callbacks, storage: Storage, s: WolfState, slot: SlotId): (r: Result<Option<Value>, TraceLookupError>)
    ensures GetTraceBySlotId(flow.abilities, slot).Failure? <==> r.Failure?
    ensures r.Failure? ==> r.error == GetTraceBySlotId(flow.abilities, slot).error
    ensures r.Success? && r.value.Some? <==>
      && GetTraceBySlotId(flow.abilities, slot).Success?
      && GetTraceBySlotId(flow.abilities, slot).value.getValue.Some?
      && Truthy(cb.runGetValue(GetTraceBySlotId(flow.abilities, slot).value.getValue.value, s.slotData, storage))
    ensures r.Success? && r.value.Some? ==>
      r.value.value == cb.runGetValue(GetTraceBySlotId(flow.abilities, slot).value.getValue.value, s.slotData, storage)
  {
    match GetTraceBySlotId(flow.abilities, slot)
    case Failure(e) => Failure(e)
    case Success(trace) =>
      if trace.getValue.Some? then
        var getValueResult := RunTraceGetValue(cb, storage, s.slotData, trace);
        if Truthy(getValueResult) then Success(Some(getValueResult)) else Success(None)
      else Success(None)
  }

  // ---------------------------------------------------------------------------
  // Termination of the re-evaluation after inference

  /** The number of candidate slots over all abilities of the flow. */
  function PendingIn(flow: Flow, status: seq<SlotStatus>, abilities: seq<Ability>): nat
  {
    if |abilities| == 0 then 0
    else |GetUnfilledSlots(flow, status, abilities[0].name)| + PendingIn(flow, status, abilities[1..])
  }

  function Pending(flow: Flow, s: WolfState): nat
  {
    PendingIn(flow, s.slotStatus, flow.abilities)
  }

  /**
   * Hypothesis on the unshown `fulfillSlot` and slot reducer: dispatching the actions
   * that fill the next slot to prompt leaves fewer candidate slots than before.
   */
  ghost predicate FillConsumesCandidate(reduceSlot: (WolfState, SlotCommand) -> WolfState, flow: Flow, cb: Callbacks, storage: Storage)
  {
    forall s: WolfState, slot: SlotId, v: Value ::
      FindNextSlotToPrompt(flow, s) == Some(slot) ==>
        Pending(flow, ReduceAll(reduceSlot, s, cb.fulfillSlot(storage, v, slot, s))) < Pending(flow, s)
  }

  // ---------------------------------------------------------------------------
  // The stage as a function

  /** The actions one run of the stage dispatches, and the error it throws, if any. */
  datatype Step = Step(actions: seq<StoreAction>, thrown: Option<TraceLookupError>)

  function Prepend(acts: seq<StoreAction>, o: Step): Step
  {
    Step(acts + o.actions, o.thrown)
  }

  /** One `abilityCompleted` action per name, in order. */
  function CompletionMarks(names: seq<string>): (r: seq<StoreAction>)
    ensures |r| == |names| && forall i :: 0 <= i < |names| ==> r[i] == AbilityCompleted(names[i])
  {
    seq(|names|, i requires 0 <= i < |names| => AbilityCompleted(names[i]))
  }

  /** The message queued when chaining: the `message` of the next-ability result, when non-empty. */
  function QueuedMessage(message: Option<string>): (r: seq<StoreAction>)
    ensures |r| <= 1
    ensures |r| == 1 <==> message.Some? && message.value != ""
    ensures |r| == 1 ==> r[0] == AddMessage(OutputMessage(message.value, NextAbilityMessage))
  {
    if Named(message) then [AddMessage(OutputMessage(message.value, NextAbilityMessage))] else []
  }

  /** The ability that chaining from a completed ability moves to: named and not yet completed. */
  function ChainTarget(next: Option<NextAbilityResult>, s: WolfState): (r: Option<string>)
    ensures r.Some? <==>
      && next.Some? && next.value.abilityName.Some? && next.value.abilityName.value != ""
      && !exists a :: a in s.abilityStatus && a.abilityName == next.value.abilityName.value && a.isCompleted
    ensures r.Some? ==> r == next.value.abilityName
  {
    if next.Some? && Named(next.value.abilityName) && !IsAbilityCompleted(next.value.abilityName.value, s.abilityStatus)
    then next.value.abilityName else None
  }

  /** The candidate count reads only the slot status list. */
  lemma PendingReadsStatus(flow: Flow, s: WolfState, t: WolfState)
    requires s.slotStatus == t.slotStatus
    ensures Pending(flow, s) == Pending(flow, t)
  {
  }

  /** The completed abilities read only the filled slots and the slot status list. */
  lemma CompletedReadsFillsAndStatus(flow: Flow, s: WolfState, t: WolfState)
    requires s.filledSlotsOnCurrentTurn == t.filledSlotsOnCurrentTurn && s.slotStatus == t.slotStatus
    ensures GetAbilitiesCompleted(flow, s) == GetAbilitiesCompleted(flow, t)
  {
  }

  /** The next slot reads only the focus and the slot status list. */
  lemma NextSlotReadsFocusAndStatus(flow: Flow, s: WolfState, t: WolfState)
    requires s.slotStatus == t.slotStatus && s.focusedAbility == t.focusedAbility
    ensures FindNextSlotToPrompt(flow, s) == FindNextSlotToPrompt(flow, t)
  {
  }

  /** Marking abilities complete appends them to the abilities complete on this turn and changes nothing else. */
  lemma {:induction false} MarksKeepSlots(reduceSlot: (WolfState, SlotCommand) -> WolfState, s: WolfState, names: seq<string>)
    ensures ReduceAll(reduceSlot, s, CompletionMarks(names)) == s.(abilitiesCompleteOnCurrentTurn := s.abilitiesCompleteOnCurrentTurn + names)
    decreases |names|
  {
    if |names| == 0 {
      assert s.abilitiesCompleteOnCurrentTurn + names == s.abilitiesCompleteOnCurrentTurn;
    } else {
      var init := names[..|names| - 1];
      assert CompletionMarks(names)[..|names| - 1] == CompletionMarks(init);
      MarksKeepSlots(reduceSlot, s, init);
      assert s.abilitiesCompleteOnCurrentTurn + init + [names[|names| - 1]] == s.abilitiesCompleteOnCurrentTurn + names;
    }
  }

  /** The errors the stage throws itself: a trace lookup that fails for some slot. */
  ghost predicate LookupFailure(flow: Flow, e: TraceLookupError)
  {
    exists slot: SlotId :: GetTraceBySlotId(flow.abilities, slot) == Failure(e)
  }

  /**
   * Evaluate, from the state before it runs. Whatever it throws is a failed trace
   * lookup, and chaining from an ability already complete on this turn throws nothing.
   */
  function Evaluation(reduceSlot: (WolfState, SlotCommand) -> WolfState, flow: Flow, cb: Callbacks, storage: Storage, s: WolfState): (r: Step)
    requires FillConsumesCandidate(reduceSlot, flow, cb, storage)
    ensures r.thrown.Some? ==> LookupFailure(flow, r.thrown.value)
    ensures |s.abilitiesCompleteOnCurrentTurn| > 0 ==> r.thrown.None?
    decreases Pending(flow, s), 3
  {
    if |s.abilitiesCompleteOnCurrentTurn| > 0 then
      ChainFrom(reduceSlot, flow, cb, storage, s, s.abilitiesCompleteOnCurrentTurn[0], false)
    else
      var abilityList := if |s.filledSlotsOnCurrentTurn| > 0 then Dedup(GetAbilitiesCompleted(flow, s)) else [];
      if |abilityList| > 0 then
        var marks := CompletionMarks(abilityList);
        MarksKeepSlots(reduceSlot, s, abilityList);
        PendingReadsStatus(flow, s, ReduceAll(reduceSlot, s, marks));
        Prepend(marks, ChainFrom(reduceSlot, flow, cb, storage, ReduceAll(reduceSlot, s, marks), abilityList[0], true))
      else if |s.promptedSlotStack| > 0 then Step([], None)
      else if !Named(s.focusedAbility) && !Named(s.defaultAbility) then Step([], None)
      else
        var focus := if Named(s.focusedAbility) then [] else [SetFocusedAbility(s.defaultAbility)];
        var s1 := if Named(s.focusedAbility) then s else Reduce(reduceSlot, s, focus[0]);
        PendingReadsStatus(flow, s, s1);
        match FindNextSlotToPrompt(flow, s1)
        case None => Step(focus, None)
        case Some(nextSlot) => Prepend(focus, InferOrPrompt(reduceSlot, flow, cb, storage, s1, nextSlot))
  }

  /**
   * Chaining from a completed ability: focus the ability its `nextAbility` names, or
   * clear the focus. The first action sets the focus to the chain target; only
   * inference can throw, and only a failed trace lookup.
   */
  function ChainFrom(reduceSlot: (WolfState, SlotCommand) -> WolfState, flow: Flow, cb: Callbacks, storage: Storage,
                     s: WolfState, completed: string, inferFirst: bool): (r: Step)
    requires FillConsumesCandidate(reduceSlot, flow, cb, storage)
    ensures |r.actions| > 0 && r.actions[0] == SetFocusedAbility(ChainTarget(GetNextAbility(flow, cb, completed, storage, s), s))
    ensures r.thrown.Some? ==> inferFirst && LookupFailure(flow, r.thrown.value)
    decreases Pending(flow, s), 2
  {
    var next := GetNextAbility(flow, cb, completed, storage, s);
    match ChainTarget(next, s)
    case None => Step([SetFocusedAbility(None)], None)
    case Some(nextAbilityName) => FocusNext(reduceSlot, flow, cb, storage, s, nextAbilityName, next.value.message, inferFirst)
  }

  /**
   * Focus the chained ability and prompt its next slot after queueing the message; with
   * `inferFirst` the slot is offered to trace inference first. Without a slot to prompt,
   * the focus is cleared again. The first action focuses the ability; only inference
   * can throw, and only a failed trace lookup.
   */
  function FocusNext(reduceSlot: (WolfState, SlotCommand) -> WolfState, flow: Flow, cb: Callbacks, storage: Storage,
                     s: WolfState, nextAbilityName: string, message: Option<string>, inferFirst: bool): (r: Step)
    requires FillConsumesCandidate(reduceSlot, flow, cb, storage)
    ensures |r.actions| > 0 && r.actions[0] == SetFocusedAbility(Some(nextAbilityName))
    ensures r.thrown.Some? ==> inferFirst && LookupFailure(flow, r.thrown.value)
    decreases Pending(flow, s), 1
  {
    var focus := SetFocusedAbility(Some(nextAbilityName));
    var s1 := Reduce(reduceSlot, s, focus);
    match FindNextSlotToPrompt(flow, s1)
    case None => Step([focus, SetFocusedAbility(None)], None)
    case Some(nextSlot) =>
      var queued := QueuedMessage(message);
      var s2 := if queued == [] then s1 else Reduce(reduceSlot, s1, queued[0]);
      NextSlotReadsFocusAndStatus(flow, s1, s2);
      PendingReadsStatus(flow, s, s2);
      if inferFirst then Prepend([focus] + queued, InferOrPrompt(reduceSlot, flow, cb, storage, s2, nextSlot))
      else Step([focus] + queued + [Prompt(nextSlot)], None)
  }

  /**
   * Trace inference on the next slot: fill it and evaluate again, or prompt it. A
   * failed lookup of the slot's own trace is thrown before anything is dispatched.
   */
  function InferOrPrompt(reduceSlot: (WolfState, SlotCommand) -> WolfState, flow: Flow, cb: Callbacks, storage: Storage,
                         s: WolfState, nextSlot: SlotId): (r: Step)
    requires FillConsumesCandidate(reduceSlot, flow, cb, storage)
    requires FindNextSlotToPrompt(flow, s) == Some(nextSlot)
    ensures r.thrown.Some? ==> LookupFailure(flow, r.thrown.value)
    ensures GetTraceBySlotId(flow.abilities, nextSlot).Failure? ==> r == Step([], Some(GetTraceBySlotId(flow.abilities, nextSlot).error))
    decreases Pending(flow, s), 0
  {
    match InferredValue(flow, cb, storage, s, nextSlot)
    case Failure(e) => Step([], Some(e))
    case Success(None) => Step([Prompt(nextSlot)], None)
    case Success(Some(v)) =>
      var fills := cb.fulfillSlot(storage, v, nextSlot, s);
      Prepend(fills, Evaluation(reduceSlot, flow, cb, storage, ReduceAll(reduceSlot, s, fills)))
  }

  /** When inference yields a value, the stage dispatches its fill actions and then evaluates again. */
  lemma InferOrPromptFilled(reduceSlot: (WolfState, SlotCommand) -> WolfState, flow: Flow, cb: Callbacks, storage: Storage,
                            s: WolfState, nextSlot: SlotId, v: Value)
    requires FillConsumesCandidate(reduceSlot, flow, cb, storage)
    requires FindNextSlotToPrompt(flow, s) == Some(nextSlot)
    requires InferredValue(flow, cb, storage, s, nextSlot) == Success(Some(v))
    ensures var fills := cb.fulfillSlot(storage, v, nextSlot, s);
      InferOrPrompt(reduceSlot, flow, cb, storage, s, nextSlot) == Prepend(fills, Evaluation(reduceSlot, flow, cb, storage, ReduceAll(reduceSlot, s, fills)))
  {
  }
}
