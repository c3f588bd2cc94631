/**
 * The slot action creators. A creator call is modelled as a `SlotCommand` value; `Create`
 * builds the `{ type, payload }` object the creator returns, and `Parse` reads such an
 * object back, as a reducer does.
 */
module SlotActions {
  import opened Wrappers
  import opened WolfTypes

  const FILL_SLOT := "FILL_SLOT"
  const ADD_SLOT_TO_PROMPTED_STACK := "ADD_SLOT_TO_PROMPTED_STACK"
  const SET_SLOT_PROMPTED := "SET_SLOT_PROMPTED"
  const REMOVE_SLOT_FROM_PROMPTED_STACK := "REMOVE_SLOT_FROM_PROMPTED_STACK"
  const ENABLE_SLOT := "ENABLE_SLOT"
  const DISABLE_SLOT := "DISABLE_SLOT"
  const REQ_CONFIRM_SLOT := "REQ_CONFIRM_SLOT"
  const ACCEPT_SLOT := "ACCEPT_SLOT"
  const DENY_SLOT := "DENY_SLOT"
  const RESET_SLOT_STATUS_BY_ABILITY_NAME := "RESET_SLOT_STATUS_BY_ABILITY_NAME"
  const INCREMENT_TURN_COUNT_BY_ID := "INCREMENT_TURN_COUNT_BY_ID"
  const SET_SLOT_DONE := "SET_SLOT_DONE"
  const ADD_SLOT_TO_ON_FILL_STACK := "ADD_SLOT_TO_ON_FILL_STACK"
  const REMOVE_SLOT_FROM_ON_FILL_STACK := "REMOVE_SLOT_FROM_ON_FILL_STACK"

  /** One creator call with its arguments. */
  datatype SlotCommand =
    | FillSlot(slotName: string, abilityName: Option<string>, value: Value)
    | AddSlotToPromptedStack(promptedSlot: SlotId, reason: PromptSlotReason)
    | SetSlotPrompted(slotId: SlotId, prompted: bool)
    | RemoveSlotFromPromptedStack(slotId: SlotId)
    | EnableSlot(slotId: SlotId)
    | DisableSlot(slotId: SlotId)
    | ReqConfirmSlot(originSlotId: SlotId, confirmationSlotId: SlotId)
    | AcceptSlot(originSlotId: SlotId)
    | DenySlot(originSlotId: SlotId)
    | ResetSlotStatusByAbilityName(resetAbility: string)
    | IncrementTurnCountBySlotId(slotId: SlotId)
    | SetSlotDone(slotId: SlotId, isDone: bool)
    | AddSlotToOnFillStack(slotId: SlotId, value: Value)
    | RemoveSlotFromOnFillStack(slotId: SlotId)

  /** The payload shapes the creators build. */
  datatype Payload =
    | FillSlotPayload(fillSlotName: string, fillAbilityName: Option<string>, fillValue: Value)
    | PromptedSlotPayload(promptedSlotId: SlotId, promptReason: PromptSlotReason)
    | PromptedFlagPayload(flagSlotId: SlotId, prompted: bool)
    | SlotIdPayload(slotId: SlotId)
    | ConfirmPayload(originSlotId: SlotId, confirmationSlotId: SlotId)
    | AbilityNamePayload(abilityName: string)
    | DoneFlagPayload(doneSlotId: SlotId, isDone: bool)
    | OnFillPayload(onFillSlotName: string, onFillAbilityName: string, onFillValue: Value)

  /** The `{ type, payload }` object a creator returns. */
  datatype Action = Action(tag: string, payload: Payload)

  /** The type constant of each creator. */
  function Tag(c: SlotCommand): string
  {
    match c
    case FillSlot(_, _, _) => FILL_SLOT
    case AddSlotToPromptedStack(_, _) => ADD_SLOT_TO_PROMPTED_STACK
    case SetSlotPrompted(_, _) => SET_SLOT_PROMPTED
    case RemoveSlotFromPromptedStack(_) => REMOVE_SLOT_FROM_PROMPTED_STACK
    case EnableSlot(_) => ENABLE_SLOT
    case DisableSlot(_) => DISABLE_SLOT
    case ReqConfirmSlot(_, _) => REQ_CONFIRM_SLOT
    case AcceptSlot(_) => ACCEPT_SLOT
    case DenySlot(_) => DENY_SLOT
    case ResetSlotStatusByAbilityName(_) => RESET_SLOT_STATUS_BY_ABILITY_NAME
    case IncrementTurnCountBySlotId(_) => INCREMENT_TURN_COUNT_BY_ID
    case SetSlotDone(_, _) => SET_SLOT_DONE
    case AddSlotToOnFillStack(_, _) => ADD_SLOT_TO_ON_FILL_STACK
    case RemoveSlotFromOnFillStack(_) => REMOVE_SLOT_FROM_ON_FILL_STACK
  }

  /** What each creator returns: an object typed with the creator's own constant. */
  function Create(c: SlotCommand): (r: Action)
    ensures r.tag == Tag(c)
  {
    match c
    case FillSlot(slotName, abilityName, value) => Action(FILL_SLOT, FillSlotPayload(slotName, abilityName, value))
    case AddSlotToPromptedStack(slotId, reason) => Action(ADD_SLOT_TO_PROMPTED_STACK, PromptedSlotPayload(slotId, reason))
    case SetSlotPrompted(slotId, prompted) => Action(SET_SLOT_PROMPTED, PromptedFlagPayload(slotId, prompted))
    case RemoveSlotFromPromptedStack(slotId) => Action(REMOVE_SLOT_FROM_PROMPTED_STACK, SlotIdPayload(slotId))
    case EnableSlot(slotId) => Action(ENABLE_SLOT, SlotIdPayload(slotId))
    case DisableSlot(slotId) => Action(DISABLE_SLOT, SlotIdPayload(slotId))
    case ReqConfirmSlot(origin, confirmation) => Action(REQ_CONFIRM_SLOT, ConfirmPayload(origin, confirmation))
    case AcceptSlot(origin) => Action(ACCEPT_SLOT, SlotIdPayload(origin))
    case DenySlot(origin) => Action(DENY_SLOT, SlotIdPayload(origin))
    case ResetSlotStatusByAbilityName(name) => Action(RESET_SLOT_STATUS_BY_ABILITY_NAME, AbilityNamePayload(name))
    case IncrementTurnCountBySlotId(slotId) => Action(INCREMENT_TURN_COUNT_BY_ID, SlotIdPayload(slotId))
    case SetSlotDone(slotId, isDone) => Action(SET_SLOT_DONE, DoneFlagPayload(slotId, isDone))
    case AddSlotToOnFillStack(slotId, value) =>
      Action(ADD_SLOT_TO_ON_FILL_STACK, OnFillPayload(slotId.slotName, slotId.abilityName, value))
    case RemoveSlotFromOnFillStack(slotId) => Action(REMOVE_SLOT_FROM_ON_FILL_STACK, SlotIdPayload(slotId))
  }

  /**
   * Reads an action object back into the creator call it came from, if any; a call is
   * read only from an object carrying that creator's type constant.
   */
  function Parse(a: Action): (r: Option<SlotCommand>)
    ensures r.Some? ==> Tag(r.value) == a.tag
  {
    match a.payload
    case FillSlotPayload(slotName, abilityName, value) =>
      if a.tag == FILL_SLOT then Some(FillSlot(slotName, abilityName, value)) else None
    case PromptedSlotPayload(slotId, reason) =>
      if a.tag == ADD_SLOT_TO_PROMPTED_STACK then Some(AddSlotToPromptedStack(slotId, reason)) else None
    case PromptedFlagPayload(slotId, prompted) =>
      if a.tag == SET_SLOT_PROMPTED then Some(SetSlotPrompted(slotId, prompted)) else None
    case SlotIdPayload(slotId) =>
      if a.tag == REMOVE_SLOT_FROM_PROMPTED_STACK then Some(RemoveSlotFromPromptedStack(slotId))
      else if a.tag == ENABLE_SLOT then Some(EnableSlot(slotId))
      else if a.tag == DISABLE_SLOT then Some(DisableSlot(slotId))
      else if a.tag == ACCEPT_SLOT then Some(AcceptSlot(slotId))
      else if a.tag == DENY_SLOT then Some(DenySlot(slotId))
      else if a.tag == INCREMENT_TURN_COUNT_BY_ID then Some(IncrementTurnCountBySlotId(slotId))
      else if a.tag == REMOVE_SLOT_FROM_ON_FILL_STACK then Some(RemoveSlotFromOnFillStack(slotId))
      else None
    case ConfirmPayload(origin, confirmation) =>
      if a.tag == REQ_CONFIRM_SLOT then Some(ReqConfirmSlot(origin, confirmation)) else None
    case AbilityNamePayload(name) =>
      if a.tag == RESET_SLOT_STATUS_BY_ABILITY_NAME then Some(ResetSlotStatusByAbilityName(name)) else None
    case DoneFlagPayload(slotId, isDone) =>
      if a.tag == SET_SLOT_DONE then Some(SetSlotDone(slotId, isDone)) else None
    case OnFillPayload(slotName, abilityName, value) =>
      if a.tag == ADD_SLOT_TO_ON_FILL_STACK then Some(AddSlotToOnFillStack(SlotId(abilityName, slotName), value)) else None
  }

  /**
   * Every creator's object carries its arguments unchanged and a type tag of its own:
   * reading the object back gives the very call that built it. The seven creators whose
   * payload is a bare SlotId are told apart by the tag alone, and the flattened on-fill
   * payload projects back to the original SlotId.
   */
  lemma ParseCreate(c: SlotCommand)
    ensures Parse(Create(c)) == Some(c)
  {
    match c
    case RemoveSlotFromPromptedStack(_) =>
    case EnableSlot(_) =>
      assert ENABLE_SLOT[0] != REMOVE_SLOT_FROM_PROMPTED_STACK[0];
    case DisableSlot(_) =>
      assert DISABLE_SLOT[0] != REMOVE_SLOT_FROM_PROMPTED_STACK[0] && DISABLE_SLOT[0] != ENABLE_SLOT[0];
    case AcceptSlot(_) =>
      assert ACCEPT_SLOT[0] != REMOVE_SLOT_FROM_PROMPTED_STACK[0] && ACCEPT_SLOT[0] != ENABLE_SLOT[0] && ACCEPT_SLOT[0] != DISABLE_SLOT[0];
    case DenySlot(_) =>
      assert DENY_SLOT[0] != REMOVE_SLOT_FROM_PROMPTED_STACK[0] && DENY_SLOT[0] != ENABLE_SLOT[0];
      assert DENY_SLOT[1] != DISABLE_SLOT[1] && DENY_SLOT[0] != ACCEPT_SLOT[0];
    case IncrementTurnCountBySlotId(_) =>
      assert INCREMENT_TURN_COUNT_BY_ID[0] != REMOVE_SLOT_FROM_PROMPTED_STACK[0] && INCREMENT_TURN_COUNT_BY_ID[0] != ENABLE_SLOT[0];
      assert INCREMENT_TURN_COUNT_BY_ID[0] != DISABLE_SLOT[0] && INCREMENT_TURN_COUNT_BY_ID[0] != ACCEPT_SLOT[0] && INCREMENT_TURN_COUNT_BY_ID[0] != DENY_SLOT[0];
    case RemoveSlotFromOnFillStack(_) =>
      assert REMOVE_SLOT_FROM_ON_FILL_STACK[17] != REMOVE_SLOT_FROM_PROMPTED_STACK[17];
      assert REMOVE_SLOT_FROM_ON_FILL_STACK[0] != ENABLE_SLOT[0] && REMOVE_SLOT_FROM_ON_FILL_STACK[0] != DISABLE_SLOT[0];
      assert REMOVE_SLOT_FROM_ON_FILL_STACK[0] != ACCEPT_SLOT[0] && REMOVE_SLOT_FROM_ON_FILL_STACK[0] != DENY_SLOT[0];
      assert REMOVE_SLOT_FROM_ON_FILL_STACK[0] != INCREMENT_TURN_COUNT_BY_ID[0];
    case _ =>
  }

  /** Parse accepts only objects a creator can build: it is the exact inverse of Create. */
  lemma CreateParse(a: Action, c: SlotCommand)
    requires Parse(a) == Some(c)
    ensures Create(c) == a
  {
  }

  /** Distinct creator calls build distinct objects. */
  lemma CreateInjective(c1: SlotCommand, c2: SlotCommand)
    requires Create(c1) == Create(c2)
    ensures c1 == c2
  {
    ParseCreate(c1);
    ParseCreate(c2);
  }
}
