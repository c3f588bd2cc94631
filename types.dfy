/**
 * The records the evaluate stage works on: slot identifiers, the per-conversation
 * state blob, and the integrator's ability configuration.
 */
module WolfTypes {
  import opened Wrappers

  /** A conversation-storage handle given to user callbacks; its contents are the integrator's. */
  type Storage(!new)

  /** The parsed user turn; the evaluate stage only carries it. */
  type MessageData(==, !new)

  /** One entry of the slot fill history read by trace inference. */
  type SlotRecord(==, !new)

  /** A slot value as JavaScript sees it (`any`). Floating point and NaN are not modelled. */
  datatype Value = Undefined | Null | Bool(b: bool) | Number(n: int) | Str(s: string) | Object(ref: nat)

  /** JavaScript truthiness of a value: every value but the falsy ones listed here is truthy. */
  function Truthy(v: Value): (r: bool)
    ensures !r <==> v == Undefined || v == Null || v == Bool(false) || v == Number(0) || v == Str("")
  {
    match v
    case Undefined => false
    case Null => false
    case Bool(b) => b
    case Number(n) => n != 0
    case Str(s) => s != ""
    case Object(_) => true
  }

  /** JavaScript truthiness of a `string | null`: null and the empty string are falsy. */
  function Named(o: Option<string>): (r: bool)
    ensures !r <==> o == None || o == Some("")
  {
    o.Some? && o.value != ""
  }

  datatype SlotId = SlotId(abilityName: string, slotName: string)

  datatype PromptSlotReason = Query | Confirmation

  /** An entry of the prompted-slot stack; element 0 is the top. */
  datatype PromptSlot = PromptSlot(slotName: string, abilityName: string, turnCount: nat, prompted: bool, reason: PromptSlotReason)
  {
    function Id(): SlotId { SlotId(abilityName, slotName) }
  }

  datatype SlotStatus = SlotStatus(slotName: string, abilityName: string, isEnabled: bool, isDone: bool, requestingSlot: Option<string>)

  datatype AbilityStatus = AbilityStatus(abilityName: string, isCompleted: bool)

  datatype OutputMessageType = NextAbilityMessage | OtherMessage(kind: string)

  datatype OutputMessage = OutputMessage(message: string, messageType: OutputMessageType)

  datatype OnFillStackItem = OnFillStackItem(slotName: string, abilityName: string, value: Value)

  datatype WolfState = WolfState(
    messageData: Option<MessageData>,
    slotStatus: seq<SlotStatus>,
    slotData: seq<SlotRecord>,
    abilityStatus: seq<AbilityStatus>,
    promptedSlotStack: seq<PromptSlot>,
    focusedAbility: Option<string>,
    outputMessageQueue: seq<OutputMessage>,
    filledSlotsOnCurrentTurn: seq<SlotId>,
    abilitiesCompleteOnCurrentTurn: seq<string>,
    defaultAbility: Option<string>,
    runOnFillStack: seq<OnFillStackItem>)

  /**
   * A declared slot. The `query`, `validate`, `retry` and `onFill` callbacks are not
   * used by the evaluate stage and are left out.
   */
  datatype Slot = Slot(name: string, defaultIsEnabled: Option<bool>, order: Option<int>)

  /** A declared trace; `getValue`, when present, is a handle into the user's functions. */
  datatype Trace = Trace(slotName: string, getValue: Option<nat>)

  /** A declared ability; `nextAbility`, when present, is a handle into the user's functions. */
  datatype Ability = Ability(name: string, slots: seq<Slot>, traces: seq<Trace>, nextAbility: Option<nat>)

  datatype Flow = Flow(abilities: seq<Ability>)

  /** What a `nextAbility` callback returns (when it does not return null). */
  datatype NextAbilityResult = NextAbilityResult(abilityName: Option<string>, message: Option<string>)
}
