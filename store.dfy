/**
 * The state store: one state value and the log of actions dispatched to it. The
 * reducers are not part of this model. The three actions the evaluate stage
 * dispatches besides slot actions have the minimal effects stated in `Reduce`; every
 * slot action goes to a reducer function the store is created with.
 */
module Store {
  import opened Wrappers
  import opened WolfTypes
  import opened SlotActions

  datatype StoreAction =
    | SetFocusedAbility(focus: Option<string>)
    | AbilityCompleted(completedAbility: string)
    | AddMessage(message: OutputMessage)
    | SlotAction(command: SlotCommand)

  /** The `addSlotToPromptedStack(slot, query)` action. */
  function Prompt(slot: SlotId): StoreAction
  {
    SlotAction(AddSlotToPromptedStack(slot, Query))
  }

  /**
   * The parts of the state that only slot actions write: all of it but the focus, the
   * abilities complete on this turn and the output queue.
   */
  predicate SameSlotState(s: WolfState, t: WolfState)
  {
    && t.messageData == s.messageData
    && t.slotStatus == s.slotStatus
    && t.slotData == s.slotData
    && t.abilityStatus == s.abilityStatus
    && t.promptedSlotStack == s.promptedSlotStack
    && t.filledSlotsOnCurrentTurn == s.filledSlotsOnCurrentTurn
    && t.defaultAbility == s.defaultAbility
    && t.runOnFillStack == s.runOnFillStack
  }

  /** None of the actions is a slot action. */
  predicate NoSlotActions(acts: seq<StoreAction>)
  {
    forall a :: a in acts ==> !a.SlotAction?
  }

  /**
   * One transition. Assumed effects: setting the focus replaces it, marking an ability
   * complete appends it to the abilities complete on this turn, adding a message
   * appends it to the output queue; nothing else changes. Slot actions are the
   * (unshown) slot reducer's.
   */
  function Reduce(reduceSlot: (WolfState, SlotCommand) -> WolfState, s: WolfState, a: StoreAction): (r: WolfState)
    ensures a.SlotAction? ==> r == reduceSlot(s, a.command)
    ensures !a.SlotAction? ==> SameSlotState(s, r)
    ensures a.SetFocusedAbility? ==>
      r.focusedAbility == a.focus && r.abilitiesCompleteOnCurrentTurn == s.abilitiesCompleteOnCurrentTurn && r.outputMessageQueue == s.outputMessageQueue
    ensures a.AbilityCompleted? ==>
      r.focusedAbility == s.focusedAbility && r.abilitiesCompleteOnCurrentTurn == s.abilitiesCompleteOnCurrentTurn + [a.completedAbility] && r.outputMessageQueue == s.outputMessageQueue
    ensures a.AddMessage? ==>
      r.focusedAbility == s.focusedAbility && r.abilitiesCompleteOnCurrentTurn == s.abilitiesCompleteOnCurrentTurn && r.outputMessageQueue == s.outputMessageQueue + [a.message]
  {
    match a
    case SetFocusedAbility(focus) => s.(focusedAbility := focus)
    case AbilityCompleted(name) => s.(abilitiesCompleteOnCurrentTurn := s.abilitiesCompleteOnCurrentTurn + [name])
    case AddMessage(m) => s.(outputMessageQueue := s.outputMessageQueue + [m])
    case SlotAction(c) => reduceSlot(s, c)
  }

  /**
   * The state after dispatching a sequence of actions in order; actions other than slot
   * actions leave the slot state as it was.
   */
  function ReduceAll(reduceSlot: (WolfState, SlotCommand) -> WolfState, s: WolfState, acts: seq<StoreAction>): (r: WolfState)
    ensures |acts| == 0 ==> r == s
    ensures NoSlotActions(acts) ==> SameSlotState(s, r)
  {
    if |acts| == 0 then s
    else
      assert forall a :: a in acts[..|acts| - 1] ==> a in acts;
      Reduce(reduceSlot, ReduceAll(reduceSlot, s, acts[..|acts| - 1]), acts[|acts| - 1])
  }

  /** Dispatching a + b is dispatching a, then b. */
  lemma {:induction false} ReduceAllAppend(reduceSlot: (WolfState, SlotCommand) -> WolfState, s: WolfState, a: seq<StoreAction>, b: seq<StoreAction>)
    ensures ReduceAll(reduceSlot, s, a + b) == ReduceAll(reduceSlot, ReduceAll(reduceSlot, s, a), b)
    decreases |b|
  {
    if |b| == 0 {
      assert a + b == a;
    } else {
      assert (a + b)[..|a + b| - 1] == a + b[..|b| - 1];
      ReduceAllAppend(reduceSlot, s, a, b[..|b| - 1]);
    }
  }

  /** The state a valid store reaches after further actions is the old state with those actions applied. */
  lemma StateAfter(store: WolfStore, s0: WolfState, d0: seq<StoreAction>, acts: seq<StoreAction>)
    requires store.Valid()
    requires s0 == ReduceAll(store.reduceSlot, store.initial, d0)
    requires store.dispatched == d0 + acts
    ensures store.state == ReduceAll(store.reduceSlot, s0, acts)
  {
    ReduceAllAppend(store.reduceSlot, store.initial, d0, acts);
  }

  class WolfStore {
    const reduceSlot: (WolfState, SlotCommand) -> WolfState
    ghost const initial: WolfState
    var state: WolfState
    var dispatched: seq<StoreAction>

    /** The state is always the initial state with every dispatched action applied in order. */
    ghost predicate Valid()
      reads this
    {
      state == ReduceAll(reduceSlot, initial, dispatched)
    }

    constructor (initial: WolfState, reduceSlot: (WolfState, SlotCommand) -> WolfState)
      ensures Valid()
      ensures this.initial == initial && this.reduceSlot == reduceSlot
      ensures state == initial && dispatched == []
    {
      this.reduceSlot := reduceSlot;
      this.initial := initial;
      state := initial;
      dispatched := [];
    }

    method Dispatch(a: StoreAction)
      requires Valid()
      modifies this
      ensures Valid()
      ensures state == Reduce(reduceSlot, old(state), a)
      ensures dispatched == old(dispatched) + [a]
    {
      assert (dispatched + [a])[..|dispatched|] == dispatched;
      state := Reduce(reduceSlot, state, a);
      dispatched := dispatched + [a];
    }

    /** `actions.forEach(dispatch)`: dispatch each action in order. */
    method DispatchAll(acts: seq<StoreAction>)
      requires Valid()
      modifies this
      ensures Valid()
      ensures state == ReduceAll(reduceSlot, old(state), acts)
      ensures dispatched == old(dispatched) + acts
    {
      for i := 0 to |acts|
        invariant Valid()
        invariant state == ReduceAll(reduceSlot, old(state), acts[..i])
        invariant dispatched == old(dispatched) + acts[..i]
      {
        assert acts[..i + 1][..i] == acts[..i];
        Dispatch(acts[i]);
        assert old(dispatched) + acts[..i + 1] == old(dispatched) + acts[..i] + [acts[i]];
      }
      assert acts[..|acts|] == acts;
    }
  }
}
