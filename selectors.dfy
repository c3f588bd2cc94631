/** Read-only projections over the state used by the fill and evaluate stages. */
module FillSlotSelectors {
  import opened Wrappers
  import opened WolfTypes
  import opened Helpers
  import Seqs

  /** The top of the prompted-slot stack (element 0); undefined on an empty stack. */
  function GetPromptedSlotId(s: WolfState): (r: Option<SlotId>)
    ensures r.None? <==> |s.promptedSlotStack| == 0
    ensures r.Some? ==> r.value == SlotId(s.promptedSlotStack[0].abilityName, s.promptedSlotStack[0].slotName)
  {
    if |s.promptedSlotStack| == 0 then None else Some(s.promptedSlotStack[0].Id())
  }

  /** Whether the slot on top of the stack has already been prompted; false on an empty stack. */
  function IsPromptStatus(s: WolfState): (r: bool)
    ensures r <==> |s.promptedSlotStack| > 0 && s.promptedSlotStack[0].prompted
  {
    if |s.promptedSlotStack| > 0 then s.promptedSlotStack[0].prompted else false
  }

  /** The focused ability, as returned by isFocusedAbilitySet. */
  function IsFocusedAbilitySet(s: WolfState): (r: Option<string>)
    ensures r == s.focusedAbility
  {
    s.focusedAbility
  }

  /** The turn count of the first stack entry for the slot, or 0 when none matches. */
  function GetSlotTurnCount(s: WolfState, slotId: SlotId): (r: nat)
    ensures (forall p :: p in s.promptedSlotStack ==> p.Id() != slotId) ==> r == 0
    ensures forall i :: 0 <= i < |s.promptedSlotStack| && s.promptedSlotStack[i].Id() == slotId
                        && (forall j :: 0 <= j < i ==> s.promptedSlotStack[j].Id() != slotId)
                        ==> r == s.promptedSlotStack[i].turnCount
  {
    match Seqs.Find(s.promptedSlotStack, (p: PromptSlot) => p.Id() == slotId)
    case None =>
      assert forall i :: 0 <= i < |s.promptedSlotStack| ==> s.promptedSlotStack[i] in s.promptedSlotStack;
      0
    case Some(p) => p.turnCount
  }

  datatype SelectorError =
    | NoStatusEntry(slotId: SlotId)        // the status lookup found nothing: reading a field of undefined
    | NoRequestingSlot(slotId: SlotId)     // "You did not request any slot to use this slot to confirm"

  /**
   * The slot that asked for confirmation by the given slot: same ability as the given
   * slot's status entry, slot name taken from its `requestingSlot` back-reference.
   */
  function GetRequestingSlotIdFromCurrentSlotId(s: WolfState, slotId: SlotId): (r: Result<SlotId, SelectorError>)
    ensures !HasStatusEntry(s.slotStatus, slotId.abilityName, slotId.slotName) ==> r == Failure(NoStatusEntry(slotId))
    ensures forall i :: IsFirstEntry(s.slotStatus, slotId, i) ==> r == (if Named(s.slotStatus[i].requestingSlot)
                                  then Success(SlotId(slotId.abilityName, s.slotStatus[i].requestingSlot.value))
                                  else Failure(NoRequestingSlot(slotId)))
  {
    var index := FindIndexOfSlotId(s.slotStatus, slotId);
    assert forall i :: IsFirstEntry(s.slotStatus, slotId, i) ==> i == index by {
      forall i | IsFirstEntry(s.slotStatus, slotId, i) ensures i == index {
        assert index != -1;
        FirstEntryUnique(s.slotStatus, slotId, i, index);
      }
    }
    if index == -1 then Failure(NoStatusEntry(slotId))
    else
      var entry := s.slotStatus[index];
      if !Named(entry.requestingSlot) then Failure(NoRequestingSlot(slotId))
      else Success(SlotId(entry.abilityName, entry.requestingSlot.value))
  }

  function GetMessageData(s: WolfState): (r: Option<MessageData>)
    ensures r == s.messageData
  {
    s.messageData
  }

  function GetRunOnFillStack(s: WolfState): (r: seq<OnFillStackItem>)
    ensures r == s.runOnFillStack
  {
    s.runOnFillStack
  }
}
