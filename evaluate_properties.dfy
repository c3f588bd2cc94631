/**
 * What one run of the evaluate stage does, branch by branch, stated on the functional
 * reference `Evaluation` (which the stage's methods are proved to follow): which
 * branch wins, which actions are dispatched in which order, and what the state is after.
 */
module EvaluateProperties {
  import opened Wrappers
  import opened WolfTypes
  import opened Seqs
  import opened Helpers
  import opened SlotActions
  import opened Store
  import opened EvaluateLogic

  /** No action of the sequence is an `abilityCompleted`. */
  predicate NoCompletionMarks(acts: seq<StoreAction>)
  {
    forall a :: a in acts ==> !a.AbilityCompleted?
  }

  /** No action of the sequence pushes a slot onto the prompted stack. */
  predicate NoPrompt(acts: seq<StoreAction>)
  {
    forall a :: a in acts ==> !(a.SlotAction? && a.command.AddSlotToPromptedStack?)
  }

  /** No action of the sequence queues an output message. */
  predicate NoMessage(acts: seq<StoreAction>)
  {
    forall a :: a in acts ==> !a.AddMessage?
  }

  // ---------------------------------------------------------------------------
  // Chaining from a completed ability

  /**
   * Chaining clears the focus, and does nothing else, exactly when the next-ability
   * result is null, names no ability, or names an ability already marked completed.
   */
  lemma ChainCleared(reduceSlot: (WolfState, SlotCommand) -> WolfState, flow: Flow, cb: Callbacks, storage: Storage,
                     s: WolfState, completed: string, inferFirst: bool)
    requires FillConsumesCandidate(reduceSlot, flow, cb, storage)
    ensures var next := GetNextAbility(flow, cb, completed, storage, s);
      ChainTarget(next, s).None? <==>
        || next.None?
        || !Named(next.value.abilityName)
        || exists a :: a in s.abilityStatus && a.abilityName == next.value.abilityName.value && a.isCompleted
    ensures var next := GetNextAbility(flow, cb, completed, storage, s);
      var step := ChainFrom(reduceSlot, flow, cb, storage, s, completed, inferFirst);
      ChainTarget(next, s).None? ==>
        && step == Step([SetFocusedAbility(None)], None)
        && NoPrompt(step.actions)
        && ReduceAll(reduceSlot, s, step.actions) == s.(focusedAbility := None)
  {
    var step := ChainFrom(reduceSlot, flow, cb, storage, s, completed, inferFirst);
    if ChainTarget(GetNextAbility(flow, cb, completed, storage, s), s).None? {
      assert step.actions[..0] == [];
    }
  }

  /**
   * When the ability chained to has no slot to prompt, its focus is set and then
   * cleared, no message is queued and nothing is pushed.
   */
  lemma ChainWithoutSlot(reduceSlot: (WolfState, SlotCommand) -> WolfState, flow: Flow, cb: Callbacks, storage: Storage,
                         s: WolfState, completed: string, inferFirst: bool)
    requires FillConsumesCandidate(reduceSlot, flow, cb, storage)
    requires ChainTarget(GetNextAbility(flow, cb, completed, storage, s), s).Some?
    requires var n := ChainTarget(GetNextAbility(flow, cb, completed, storage, s), s).value;
      FindNextSlotToPrompt(flow, s.(focusedAbility := Some(n))).None?
    ensures var n := ChainTarget(GetNextAbility(flow, cb, completed, storage, s), s).value;
      var step := ChainFrom(reduceSlot, flow, cb, storage, s, completed, inferFirst);
      && step == Step([SetFocusedAbility(Some(n)), SetFocusedAbility(None)], None)
      && NoMessage(step.actions) && NoPrompt(step.actions)
      && ReduceAll(reduceSlot, s, step.actions) == s.(focusedAbility := None)
  {
    var n := ChainTarget(GetNextAbility(flow, cb, completed, storage, s), s).value;
    var acts := [SetFocusedAbility(Some(n)), SetFocusedAbility(None)];
    assert acts[..1][..0] == [] && acts[..|acts| - 1] == acts[..1];
    assert ReduceAll(reduceSlot, s, acts[..1]) == s.(focusedAbility := Some(n));
    assert ReduceAll(reduceSlot, s, acts) == Reduce(reduceSlot, s.(focusedAbility := Some(n)), acts[1]);
  }

  /**
   * Chaining, without inference, to an ability that has a slot to prompt: focus it,
   * queue the message if there is one, push its slot with reason query, in this order.
   */
  lemma ChainPrompts(reduceSlot: (WolfState, SlotCommand) -> WolfState, flow: Flow, cb: Callbacks, storage: Storage,
                     s: WolfState, completed: string)
    requires FillConsumesCandidate(reduceSlot, flow, cb, storage)
    requires ChainTarget(GetNextAbility(flow, cb, completed, storage, s), s).Some?
    requires var n := ChainTarget(GetNextAbility(flow, cb, completed, storage, s), s).value;
      FindNextSlotToPrompt(flow, s.(focusedAbility := Some(n))).Some?
    ensures var next := GetNextAbility(flow, cb, completed, storage, s);
      var n := ChainTarget(next, s).value;
      var slot := FindNextSlotToPrompt(flow, s.(focusedAbility := Some(n))).value;
      var step := ChainFrom(reduceSlot, flow, cb, storage, s, completed, false);
      && step == Step([SetFocusedAbility(Some(n))] + QueuedMessage(next.value.message) + [SlotAction(AddSlotToPromptedStack(slot, Query))], None)
      && slot.abilityName == n
      && (Named(next.value.message) ==> step.actions[1] == AddMessage(OutputMessage(next.value.message.value, NextAbilityMessage)))
  {
  }

  /**
   * Chaining with inference (after completions of this turn): focus the ability, queue
   * the message, then offer its next slot to trace inference.
   */
  lemma ChainInfers(reduceSlot: (WolfState, SlotCommand) -> WolfState, flow: Flow, cb: Callbacks, storage: Storage,
                    s: WolfState, completed: string)
    requires FillConsumesCandidate(reduceSlot, flow, cb, storage)
    requires ChainTarget(GetNextAbility(flow, cb, completed, storage, s), s).Some?
    requires var n := ChainTarget(GetNextAbility(flow, cb, completed, storage, s), s).value;
      FindNextSlotToPrompt(flow, s.(focusedAbility := Some(n))).Some?
    ensures var next := GetNextAbility(flow, cb, completed, storage, s);
      var n := ChainTarget(next, s).value;
      var slot := FindNextSlotToPrompt(flow, s.(focusedAbility := Some(n))).value;
      var pre := [SetFocusedAbility(Some(n))] + QueuedMessage(next.value.message);
      var s2 := ReduceAll(reduceSlot, s, pre);
      && FindNextSlotToPrompt(flow, s2) == Some(slot)
      && ChainFrom(reduceSlot, flow, cb, storage, s, completed, true) == Prepend(pre, InferOrPrompt(reduceSlot, flow, cb, storage, s2, slot))
  {
    var next := GetNextAbility(flow, cb, completed, storage, s);
    var n := ChainTarget(next, s).value;
    var pre := [SetFocusedAbility(Some(n))] + QueuedMessage(next.value.message);
    var s1 := s.(focusedAbility := Some(n));
    assert ReduceAll(reduceSlot, s, pre[..1]) == s1 by {
      assert pre[..1][..0] == [];
    }
    if Named(next.value.message) {
      assert pre[..|pre| - 1] == pre[..1];
    } else {
      assert pre == pre[..1];
    }
    NextSlotReadsFocusAndStatus(flow, s1, ReduceAll(reduceSlot, s, pre));
  }

  // ---------------------------------------------------------------------------
  // The branches of evaluate

  /**
   * Chaining without inference throws nothing, marks nothing complete, and first sets
   * the focus to the chain target.
   */
  lemma ChainWithoutInference(reduceSlot: (WolfState, SlotCommand) -> WolfState, flow: Flow, cb: Callbacks, storage: Storage,
                              s: WolfState, completed: string)
    requires FillConsumesCandidate(reduceSlot, flow, cb, storage)
    ensures var step := ChainFrom(reduceSlot, flow, cb, storage, s, completed, false);
      && step.thrown.None?
      && NoCompletionMarks(step.actions)
      && |step.actions| > 0
      && step.actions[0] == SetFocusedAbility(ChainTarget(GetNextAbility(flow, cb, completed, storage, s), s))
  {
    var next := GetNextAbility(flow, cb, completed, storage, s);
    var step := ChainFrom(reduceSlot, flow, cb, storage, s, completed, false);
    if ChainTarget(next, s).None? {
      ChainCleared(reduceSlot, flow, cb, storage, s, completed, false);
    } else {
      var n := ChainTarget(next, s).value;
      if FindNextSlotToPrompt(flow, s.(focusedAbility := Some(n))).Some? {
        ChainPrompts(reduceSlot, flow, cb, storage, s, completed);
        var slot := FindNextSlotToPrompt(flow, s.(focusedAbility := Some(n))).value;
        var queued := QueuedMessage(next.value.message);
        assert NoCompletionMarks(queued);
        assert step.actions == [SetFocusedAbility(Some(n))] + queued + [Prompt(slot)];
      } else {
        ChainWithoutSlot(reduceSlot, flow, cb, storage, s, completed, false);
      }
    }
  }

  /**
   * An ability already marked complete on this turn wins: the stage chains from the
   * first of them, without inference, throws nothing, marks nothing complete, and its
   * first action sets the focus to the chain target.
   */
  lemma CompletedAbilityWins(reduceSlot: (WolfState, SlotCommand) -> WolfState, flow: Flow, cb: Callbacks, storage: Storage, s: WolfState)
    requires FillConsumesCandidate(reduceSlot, flow, cb, storage)
    requires |s.abilitiesCompleteOnCurrentTurn| > 0
    ensures var step := Evaluation(reduceSlot, flow, cb, storage, s);
      var completed := s.abilitiesCompleteOnCurrentTurn[0];
      && step == ChainFrom(reduceSlot, flow, cb, storage, s, completed, false)
      && step.thrown.None?
      && NoCompletionMarks(step.actions)
      && |step.actions| > 0
      && step.actions[0] == SetFocusedAbility(ChainTarget(GetNextAbility(flow, cb, completed, storage, s), s))
  {
    ChainWithoutInference(reduceSlot, flow, cb, storage, s, s.abilitiesCompleteOnCurrentTurn[0]);
  }

  /**
   * Abilities completed by this turn's fills: each is marked complete once, in the
   * order `Dedup` keeps (see `CompletionOrder`), and the stage then chains, with
   * inference, from the first.
   */
  lemma FilledSlotsCompleteAbilities(reduceSlot: (WolfState, SlotCommand) -> WolfState, flow: Flow, cb: Callbacks, storage: Storage, s: WolfState)
    requires FillConsumesCandidate(reduceSlot, flow, cb, storage)
    requires |s.abilitiesCompleteOnCurrentTurn| == 0
    requires |GetAbilitiesCompleted(flow, s)| > 0
    ensures var done := Dedup(GetAbilitiesCompleted(flow, s));
      var step := Evaluation(reduceSlot, flow, cb, storage, s);
      && |done| > 0 && NoDuplicates(done)
      && (forall n :: n in done <==>
            (exists f :: f in s.filledSlotsOnCurrentTurn && f.abilityName == n)
            && IsAbilityCompletedByFilledSlotsOnCurrentTurn(flow, s.slotStatus, n))
      && done[0] == GetAbilitiesCompleted(flow, s)[0]
      && |step.actions| >= |done|
      && step.actions[..|done|] == CompletionMarks(done)
      && step == Prepend(CompletionMarks(done),
                         ChainFrom(reduceSlot, flow, cb, storage, s.(abilitiesCompleteOnCurrentTurn := done), done[0], true))
  {
    var done := Dedup(GetAbilitiesCompleted(flow, s));
    var marks := CompletionMarks(done);
    assert |s.filledSlotsOnCurrentTurn| > 0;
    assert ReduceAll(reduceSlot, s, marks) == s.(abilitiesCompleteOnCurrentTurn := done) by {
      MarksKeepSlots(reduceSlot, s, done);
      assert s.abilitiesCompleteOnCurrentTurn + done == done;
    }
    var chained := ChainFrom(reduceSlot, flow, cb, storage, s.(abilitiesCompleteOnCurrentTurn := done), done[0], true);
    assert Evaluation(reduceSlot, flow, cb, storage, s) == Prepend(marks, chained);
    assert (marks + chained.actions)[..|done|] == marks;
  }

  /**
   * The ability chained to after marking completions is that of the earliest filled
   * slot whose ability is complete.
   */
  lemma ChainsFromEarliestCompletedFill(reduceSlot: (WolfState, SlotCommand) -> WolfState, flow: Flow, cb: Callbacks, storage: Storage,
                                        s: WolfState, k: nat)
    requires FillConsumesCandidate(reduceSlot, flow, cb, storage)
    requires |s.abilitiesCompleteOnCurrentTurn| == 0
    requires k < |s.filledSlotsOnCurrentTurn|
    requires IsAbilityCompletedByFilledSlotsOnCurrentTurn(flow, s.slotStatus, s.filledSlotsOnCurrentTurn[k].abilityName)
    requires forall j :: 0 <= j < k ==> !IsAbilityCompletedByFilledSlotsOnCurrentTurn(flow, s.slotStatus, s.filledSlotsOnCurrentTurn[j].abilityName)
    ensures var done := Dedup(GetAbilitiesCompleted(flow, s));
      && |done| > 0 && done[0] == s.filledSlotsOnCurrentTurn[k].abilityName
      && Evaluation(reduceSlot, flow, cb, storage, s) ==
         Prepend(CompletionMarks(done),
                 ChainFrom(reduceSlot, flow, cb, storage, s.(abilitiesCompleteOnCurrentTurn := done),
                           s.filledSlotsOnCurrentTurn[k].abilityName, true))
  {
    FirstCompletedFill(flow, s, k);
    FilledSlotsCompleteAbilities(reduceSlot, flow, cb, storage, s);
  }

  /**
   * With no completion to act on and a prompt pending, the stage dispatches nothing and
   * throws nothing, so the state is unchanged and running it again does the same.
   */
  lemma PendingPromptStandsStill(reduceSlot: (WolfState, SlotCommand) -> WolfState, flow: Flow, cb: Callbacks, storage: Storage, s: WolfState)
    requires FillConsumesCandidate(reduceSlot, flow, cb, storage)
    requires |s.abilitiesCompleteOnCurrentTurn| == 0
    requires |s.filledSlotsOnCurrentTurn| == 0 || GetAbilitiesCompleted(flow, s) == []
    requires |s.promptedSlotStack| > 0
    ensures Evaluation(reduceSlot, flow, cb, storage, s) == Step([], None)
    ensures var after := ReduceAll(reduceSlot, s, Evaluation(reduceSlot, flow, cb, storage, s).actions);
      after == s && Evaluation(reduceSlot, flow, cb, storage, after) == Step([], None)
  {
  }

  /** With nothing to act on, no focus and no default ability, the stage does nothing. */
  lemma NoFocusNoDefault(reduceSlot: (WolfState, SlotCommand) -> WolfState, flow: Flow, cb: Callbacks, storage: Storage, s: WolfState)
    requires FillConsumesCandidate(reduceSlot, flow, cb, storage)
    requires |s.abilitiesCompleteOnCurrentTurn| == 0
    requires |s.filledSlotsOnCurrentTurn| == 0 || GetAbilitiesCompleted(flow, s) == []
    requires |s.promptedSlotStack| == 0
    requires !Named(s.focusedAbility) && !Named(s.defaultAbility)
    ensures Evaluation(reduceSlot, flow, cb, storage, s) == Step([], None)
  {
  }

  /**
   * With nothing to act on and no focus, the default ability becomes the focus first, and
   * the rest of the run is that of the stage on the state focused on it.
   */
  lemma DefaultAbilityFocused(reduceSlot: (WolfState, SlotCommand) -> WolfState, flow: Flow, cb: Callbacks, storage: Storage, s: WolfState)
    requires FillConsumesCandidate(reduceSlot, flow, cb, storage)
    requires |s.abilitiesCompleteOnCurrentTurn| == 0
    requires |s.filledSlotsOnCurrentTurn| == 0 || GetAbilitiesCompleted(flow, s) == []
    requires |s.promptedSlotStack| == 0
    requires !Named(s.focusedAbility) && Named(s.defaultAbility)
    ensures var step := Evaluation(reduceSlot, flow, cb, storage, s);
      && step == Prepend([SetFocusedAbility(s.defaultAbility)], Evaluation(reduceSlot, flow, cb, storage, s.(focusedAbility := s.defaultAbility)))
      && step.actions[0] == SetFocusedAbility(s.defaultAbility)
  {
    var s1 := s.(focusedAbility := s.defaultAbility);
    CompletedReadsFillsAndStatus(flow, s, s1);
    PendingReadsStatus(flow, s, s1);
    var rest := match FindNextSlotToPrompt(flow, s1)
      case None => Step([], None)
      case Some(nextSlot) => InferOrPrompt(reduceSlot, flow, cb, storage, s1, nextSlot);
    assert [] + rest.actions == rest.actions;
    assert Evaluation(reduceSlot, flow, cb, storage, s1) == rest;
  }

  /**
   * With nothing to act on and a focused ability, the stage offers the ability's next
   * slot to trace inference, or does nothing when it has none.
   */
  lemma FocusedAbilityNextSlot(reduceSlot: (WolfState, SlotCommand) -> WolfState, flow: Flow, cb: Callbacks, storage: Storage, s: WolfState)
    requires FillConsumesCandidate(reduceSlot, flow, cb, storage)
    requires |s.abilitiesCompleteOnCurrentTurn| == 0
    requires |s.filledSlotsOnCurrentTurn| == 0 || GetAbilitiesCompleted(flow, s) == []
    requires |s.promptedSlotStack| == 0
    requires Named(s.focusedAbility)
    ensures FindNextSlotToPrompt(flow, s).None? ==> Evaluation(reduceSlot, flow, cb, storage, s) == Step([], None)
    ensures FindNextSlotToPrompt(flow, s).Some? ==>
      Evaluation(reduceSlot, flow, cb, storage, s) == InferOrPrompt(reduceSlot, flow, cb, storage, s, FindNextSlotToPrompt(flow, s).value)
  {
    var step := Evaluation(reduceSlot, flow, cb, storage, s);
    if FindNextSlotToPrompt(flow, s).Some? {
      var inferred := InferOrPrompt(reduceSlot, flow, cb, storage, s, FindNextSlotToPrompt(flow, s).value);
      assert [] + inferred.actions == inferred.actions;
    }
  }

  // ---------------------------------------------------------------------------
  // Trace inference on the next slot

  /** A next slot with no trace in the flow makes the stage throw the lookup error, having dispatched nothing. */
  lemma InferenceLookupFails(reduceSlot: (WolfState, SlotCommand) -> WolfState, flow: Flow, cb: Callbacks, storage: Storage,
                             s: WolfState, nextSlot: SlotId)
    requires FillConsumesCandidate(reduceSlot, flow, cb, storage)
    requires FindNextSlotToPrompt(flow, s) == Some(nextSlot)
    requires GetTraceBySlotId(flow.abilities, nextSlot).Failure?
    ensures InferOrPrompt(reduceSlot, flow, cb, storage, s, nextSlot) == Step([], Some(GetTraceBySlotId(flow.abilities, nextSlot).error))
  {
  }

  /**
   * A trace without `getValue`, or whose `getValue` result is falsy, leaves the slot to
   * the user: it is pushed with reason query and nothing else is dispatched.
   */
  lemma InferenceDeclined(reduceSlot: (WolfState, SlotCommand) -> WolfState, flow: Flow, cb: Callbacks, storage: Storage,
                          s: WolfState, nextSlot: SlotId)
    requires FillConsumesCandidate(reduceSlot, flow, cb, storage)
    requires FindNextSlotToPrompt(flow, s) == Some(nextSlot)
    requires GetTraceBySlotId(flow.abilities, nextSlot).Success?
    requires var trace := GetTraceBySlotId(flow.abilities, nextSlot).value;
      trace.getValue.None? || !Truthy(cb.runGetValue(trace.getValue.value, s.slotData, storage))
    ensures InferOrPrompt(reduceSlot, flow, cb, storage, s, nextSlot) == Step([SlotAction(AddSlotToPromptedStack(nextSlot, Query))], None)
  {
  }

  /**
   * A truthy `getValue` result fills the slot with it (the actions of `fulfillSlot`),
   * then the stage runs again on the resulting state, which has fewer candidate slots.
   */
  lemma InferenceFills(reduceSlot: (WolfState, SlotCommand) -> WolfState, flow: Flow, cb: Callbacks, storage: Storage,
                       s: WolfState, nextSlot: SlotId)
    requires FillConsumesCandidate(reduceSlot, flow, cb, storage)
    requires FindNextSlotToPrompt(flow, s) == Some(nextSlot)
    requires GetTraceBySlotId(flow.abilities, nextSlot).Success?
    requires var trace := GetTraceBySlotId(flow.abilities, nextSlot).value;
      trace.getValue.Some? && Truthy(cb.runGetValue(trace.getValue.value, s.slotData, storage))
    ensures var trace := GetTraceBySlotId(flow.abilities, nextSlot).value;
      var v := cb.runGetValue(trace.getValue.value, s.slotData, storage);
      var fills := cb.fulfillSlot(storage, v, nextSlot, s);
      var after := ReduceAll(reduceSlot, s, fills);
      && InferOrPrompt(reduceSlot, flow, cb, storage, s, nextSlot) == Prepend(fills, Evaluation(reduceSlot, flow, cb, storage, after))
      && Pending(flow, after) < Pending(flow, s)
  {
    var trace := GetTraceBySlotId(flow.abilities, nextSlot).value;
    var v := cb.runGetValue(trace.getValue.value, s.slotData, storage);
    InferOrPromptFilled(reduceSlot, flow, cb, storage, s, nextSlot, v);
  }
}
