/**
 * The evaluate stage of the engine as a store-driven procedure: it reads the store's
 * current state before each decision and dispatches one action at a time. Each method is proved to
 * dispatch exactly the actions, and to throw exactly the error, that the functional
 * reference `EvaluateLogic.Evaluation` determines from the state the stage started in.
 */
module EvaluateStage {
  import opened Wrappers
  import Seqs
  import opened WolfTypes
  import opened Helpers
  import opened SlotActions
  import opened Store
  import opened EvaluateLogic

  /**
   * runTraceLogic: when the next slot's trace has `getValue` and its result is truthy,
   * dispatch the actions that fill the slot with it and answer true; otherwise dispatch
   * nothing and answer false. A failed trace lookup is thrown as the stage's error.
   */
  method RunTraceLogic(store: WolfStore, flow: Flow, cb: Callbacks, storage: Storage, nextSlot: SlotId)
    returns (r: Result<bool, TraceLookupError>)
    requires store.Valid()
    modifies store
    ensures store.Valid()
    ensures var inferred := InferredValue(flow, cb, storage, old(store.state), nextSlot);
      match inferred
      case Failure(e) => r == Failure(e) && store.dispatched == old(store.dispatched) && store.state == old(store.state)
      case Success(None) => r == Success(false) && store.dispatched == old(store.dispatched) && store.state == old(store.state)
      case Success(Some(v)) =>
        var fills := cb.fulfillSlot(storage, v, nextSlot, old(store.state));
        && r == Success(true)
        && store.dispatched == old(store.dispatched) + fills
        && store.state == ReduceAll(store.reduceSlot, old(store.state), fills)
  {
    var trace := GetTraceBySlotId(flow.abilities, nextSlot);
    if trace.Failure? {
      return Failure(trace.error);
    }
    if trace.value.getValue.Some? {
      var getValueResult := RunTraceGetValue(cb, storage, store.state.slotData, trace.value);
      if Truthy(getValueResult) {
        var actions := cb.fulfillSlot(storage, getValueResult, nextSlot, store.state);
        store.DispatchAll(actions);
        return Success(true);
      }
    }
    return Success(false);
  }

  /**
   * evaluate: the next move of the turn, dispatched on the store. The store ends in the
   * state it started in with those actions applied.
   */
  method Evaluate(store: WolfStore, flow: Flow, cb: Callbacks, storage: Storage) returns (thrown: Option<TraceLookupError>)
    requires store.Valid()
    requires FillConsumesCandidate(store.reduceSlot, flow, cb, storage)
    modifies store
    decreases Pending(flow, store.state), 4
    ensures store.Valid()
    ensures var step := Evaluation(store.reduceSlot, flow, cb, storage, old(store.state));
      && store.dispatched == old(store.dispatched) + step.actions && thrown == step.thrown
      && store.state == ReduceAll(store.reduceSlot, old(store.state), step.actions)
  {
    ghost var s0 := store.state;
    ghost var d0 := store.dispatched;
    thrown := EvaluateSteps(store, flow, cb, storage);
    StateAfter(store, s0, d0, Evaluation(store.reduceSlot, flow, cb, storage, s0).actions);
  }

  /** The decisions of evaluate, in the order the stage takes them; a successful inference runs evaluate again. */
  method EvaluateSteps(store: WolfStore, flow: Flow, cb: Callbacks, storage: Storage) returns (thrown: Option<TraceLookupError>)
    requires store.Valid()
    requires FillConsumesCandidate(store.reduceSlot, flow, cb, storage)
    modifies store
    decreases Pending(flow, store.state), 3
    ensures store.Valid()
    ensures var step := Evaluation(store.reduceSlot, flow, cb, storage, old(store.state));
      store.dispatched == old(store.dispatched) + step.actions && thrown == step.thrown
  {
    ghost var s0 := store.state;
    ghost var d0 := store.dispatched;
    var abilityCompleteResult := store.state.abilitiesCompleteOnCurrentTurn;
    if |abilityCompleteResult| > 0 {
      thrown := ChainToNextAbility(store, flow, cb, storage, abilityCompleteResult[0], false);
      return;
    }
    var filledSlotsResult := store.state.filledSlotsOnCurrentTurn;
    if |filledSlotsResult| > 0 {
      var abilityList := Seqs.Dedup(GetAbilitiesCompleted(flow, store.state));
      if |abilityList| > 0 {
        ghost var marks := CompletionMarks(abilityList);
        MarkAbilitiesCompleted(store, abilityList);
        PendingReadsStatus(flow, s0, store.state);
        ghost var s1 := store.state;
        ghost var chained := ChainFrom(store.reduceSlot, flow, cb, storage, s1, abilityList[0], true);
        assert Evaluation(store.reduceSlot, flow, cb, storage, s0) == Prepend(marks, chained);
        thrown := ChainToNextAbility(store, flow, cb, storage, abilityList[0], true);
        Seqs.AppendAssoc(d0, marks, chained.actions);
        return;
      }
    }
    if |store.state.promptedSlotStack| > 0 {
      return None;
    }
    var focusedAbility := store.state.focusedAbility;
    ghost var focus: seq<StoreAction> := [];
    if !Named(focusedAbility) {
      var defaultAbility := store.state.defaultAbility;
      if !Named(defaultAbility) {
        return None;
      }
      focusedAbility := defaultAbility;
      store.Dispatch(SetFocusedAbility(defaultAbility));
      focus := [SetFocusedAbility(defaultAbility)];
    }
    assert store.dispatched == d0 + focus;
    PendingReadsStatus(flow, s0, store.state);
    var nextSlot := FindNextSlotToPrompt(flow, store.state);
    if nextSlot.None? {
      return None;
    }
    ghost var inferred := InferOrPrompt(store.reduceSlot, flow, cb, storage, store.state, nextSlot.value);
    assert Evaluation(store.reduceSlot, flow, cb, storage, s0) == Prepend(focus, inferred);
    thrown := InferOrPromptSlot(store, flow, cb, storage, nextSlot.value);
    Seqs.AppendAssoc(d0, focus, inferred.actions);
  }

  /** `abilityList.forEach(_ => dispatch(abilityCompleted(_)))`. */
  method MarkAbilitiesCompleted(store: WolfStore, abilityList: seq<string>)
    requires store.Valid()
    modifies store
    ensures store.Valid()
    ensures store.dispatched == old(store.dispatched) + CompletionMarks(abilityList)
    ensures store.state == old(store.state).(abilitiesCompleteOnCurrentTurn := old(store.state).abilitiesCompleteOnCurrentTurn + abilityList)
    ensures store.state == ReduceAll(store.reduceSlot, old(store.state), CompletionMarks(abilityList))
  {
    ghost var s0 := store.state;
    ghost var d0 := store.dispatched;
    ghost var marks := CompletionMarks(abilityList);
    for i := 0 to |abilityList|
      invariant store.Valid()
      invariant store.dispatched == d0 + marks[..i]
      invariant store.state == s0.(abilitiesCompleteOnCurrentTurn := s0.abilitiesCompleteOnCurrentTurn + abilityList[..i])
    {
      store.Dispatch(AbilityCompleted(abilityList[i]));
      assert marks[..i + 1] == marks[..i] + [AbilityCompleted(abilityList[i])];
      Seqs.AppendAssoc(d0, marks[..i], [AbilityCompleted(abilityList[i])]);
      assert abilityList[..i + 1] == abilityList[..i] + [abilityList[i]];
    }
    assert abilityList[..|abilityList|] == abilityList;
    assert marks[..|abilityList|] == marks;
    MarksKeepSlots(store.reduceSlot, s0, abilityList);
  }

  /**
   * The chaining step of evaluate: the ability the completed ability's `nextAbility`
   * names, when it is not completed yet, becomes the focus; otherwise the focus is cleared.
   */
  method ChainToNextAbility(store: WolfStore, flow: Flow, cb: Callbacks, storage: Storage, completed: string, inferFirst: bool)
    returns (thrown: Option<TraceLookupError>)
    requires store.Valid()
    requires FillConsumesCandidate(store.reduceSlot, flow, cb, storage)
    modifies store
    decreases Pending(flow, store.state), 2
    ensures store.Valid()
    ensures var step := ChainFrom(store.reduceSlot, flow, cb, storage, old(store.state), completed, inferFirst);
      store.dispatched == old(store.dispatched) + step.actions && thrown == step.thrown
  {
    var nextAbilityResult := GetNextAbility(flow, cb, completed, storage, store.state);
    if nextAbilityResult.Some? && Named(nextAbilityResult.value.abilityName) {
      var nextAbilityName := nextAbilityResult.value.abilityName.value;
      if !IsAbilityCompleted(nextAbilityName, store.state.abilityStatus) {
        thrown := FocusNextAbility(store, flow, cb, storage, nextAbilityName, nextAbilityResult.value.message, inferFirst);
        return;
      }
    }
    store.Dispatch(SetFocusedAbility(None));
    thrown := None;
  }

  /**
   * Focus the chained ability; prompt its next slot after queueing the message (with
   * `inferFirst`, after offering the slot to trace inference), or clear the focus when
   * it has no slot to prompt.
   */
  method FocusNextAbility(store: WolfStore, flow: Flow, cb: Callbacks, storage: Storage,
                          nextAbilityName: string, message: Option<string>, inferFirst: bool)
    returns (thrown: Option<TraceLookupError>)
    requires store.Valid()
    requires FillConsumesCandidate(store.reduceSlot, flow, cb, storage)
    modifies store
    decreases Pending(flow, store.state), 1
    ensures store.Valid()
    ensures var step := FocusNext(store.reduceSlot, flow, cb, storage, old(store.state), nextAbilityName, message, inferFirst);
      store.dispatched == old(store.dispatched) + step.actions && thrown == step.thrown
  {
    ghost var s0 := store.state;
    ghost var d0 := store.dispatched;
    store.Dispatch(SetFocusedAbility(Some(nextAbilityName)));
    var nextSlot := FindNextSlotToPrompt(flow, store.state);
    if nextSlot.None? {
      store.Dispatch(SetFocusedAbility(None));
      return None;
    }
    ghost var s1 := store.state;
    if Named(message) {
      store.Dispatch(AddMessage(OutputMessage(message.value, NextAbilityMessage)));
    }
    ghost var pre := [SetFocusedAbility(Some(nextAbilityName))] + QueuedMessage(message);
    Seqs.AppendAssoc(d0, [SetFocusedAbility(Some(nextAbilityName))], QueuedMessage(message));
    assert store.dispatched == d0 + pre;
    NextSlotReadsFocusAndStatus(flow, s1, store.state);
    PendingReadsStatus(flow, s0, store.state);
    if inferFirst {
      ghost var inferred := InferOrPrompt(store.reduceSlot, flow, cb, storage, store.state, nextSlot.value);
      assert FocusNext(store.reduceSlot, flow, cb, storage, s0, nextAbilityName, message, inferFirst) == Prepend(pre, inferred);
      thrown := InferOrPromptSlot(store, flow, cb, storage, nextSlot.value);
      Seqs.AppendAssoc(d0, pre, inferred.actions);
    } else {
      store.Dispatch(Prompt(nextSlot.value));
      Seqs.AppendAssoc(d0, pre, [Prompt(nextSlot.value)]);
      thrown := None;
    }
  }

  /**
   * The tail shared by the chaining step and the default path: run trace logic on the
   * next slot; when it filled the slot evaluate again, otherwise prompt the slot.
   */
  method InferOrPromptSlot(store: WolfStore, flow: Flow, cb: Callbacks, storage: Storage, nextSlot: SlotId)
    returns (thrown: Option<TraceLookupError>)
    requires store.Valid()
    requires FillConsumesCandidate(store.reduceSlot, flow, cb, storage)
    requires FindNextSlotToPrompt(flow, store.state) == Some(nextSlot)
    modifies store
    decreases Pending(flow, store.state), 0
    ensures store.Valid()
    ensures var step := InferOrPrompt(store.reduceSlot, flow, cb, storage, old(store.state), nextSlot);
      store.dispatched == old(store.dispatched) + step.actions && thrown == step.thrown
  {
    ghost var s0 := store.state;
    ghost var d0 := store.dispatched;
    var wasNextSlotFilled := RunTraceLogic(store, flow, cb, storage, nextSlot);
    if wasNextSlotFilled.Failure? {
      return Some(wasNextSlotFilled.error);
    }
    if wasNextSlotFilled.value {
      ghost var v := InferredValue(flow, cb, storage, s0, nextSlot).value.value;
      ghost var fills := cb.fulfillSlot(storage, v, nextSlot, s0);
      ghost var again := Evaluation(store.reduceSlot, flow, cb, storage, store.state);
      InferOrPromptFilled(store.reduceSlot, flow, cb, storage, s0, nextSlot, v);
      assert store.dispatched == d0 + fills;
      thrown := Evaluate(store, flow, cb, storage);
      Seqs.AppendAssoc(d0, fills, again.actions);
      return;
    }
    store.Dispatch(Prompt(nextSlot));
    return None;
  }
}
