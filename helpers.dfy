/**
 * Lookups over the ability configuration and the slot status list that the
 * evaluate stage and the selectors rely on.
 */
module Helpers {
  import opened Wrappers
  import opened WolfTypes
  import opened Seqs

  /** The ability with a given name: the first one declared with it. */
  function FindAbility(abilities: seq<Ability>, name: string): (r: Option<Ability>)
    ensures r.Some? ==> r.value in abilities && r.value.name == name
    ensures r.None? <==> forall a :: a in abilities ==> a.name != name
  {
    Find(abilities, (a: Ability) => a.name == name)
  }

  /**
   * getAbilitySlots (not shown; assumed): an ability's declared slots, in declaration
   * order, read from the ability record itself.
   */
  function AbilitySlots(ability: Ability): (r: seq<Slot>)
    ensures r == ability.slots
  {
    ability.slots
  }

  /** Does the status list hold an entry for the given slot of the given ability? */
  predicate HasStatusEntry(status: seq<SlotStatus>, abilityName: string, slotName: string)
  {
    exists e :: e in status && e.abilityName == abilityName && e.slotName == slotName
  }

  /** The status entry at index i is the first one for the slot id. */
  predicate IsFirstEntry(status: seq<SlotStatus>, slotId: SlotId, i: int)
  {
    && 0 <= i < |status|
    && status[i].abilityName == slotId.abilityName && status[i].slotName == slotId.slotName
    && forall j :: 0 <= j < i ==> !(status[j].abilityName == slotId.abilityName && status[j].slotName == slotId.slotName)
  }

  /** The index of the first status entry for a slot id, or -1 when there is none. */
  function FindIndexOfSlotId(status: seq<SlotStatus>, slotId: SlotId): (r: int)
    ensures r == -1 <==> !HasStatusEntry(status, slotId.abilityName, slotId.slotName)
    ensures r != -1 ==> IsFirstEntry(status, slotId, r)
  {
    if |status| == 0 then -1
    else if status[0].abilityName == slotId.abilityName && status[0].slotName == slotId.slotName then 0
    else
      var r := FindIndexOfSlotId(status[1..], slotId);
      assert HasStatusEntry(status, slotId.abilityName, slotId.slotName) <==> HasStatusEntry(status[1..], slotId.abilityName, slotId.slotName) by {
        assert status == [status[0]] + status[1..];
      }
      if r == -1 then -1 else r + 1
  }

  /** Unfolding helper: there is at most one first entry. */
  lemma FirstEntryUnique(status: seq<SlotStatus>, slotId: SlotId, i: int, k: int)
    requires IsFirstEntry(status, slotId, i) && IsFirstEntry(status, slotId, k)
    ensures i == k
  {
  }

  datatype TraceLookupError = NoSuchAbility(abilityName: string) | NoSuchTrace(slotId: SlotId)

  /**
   * The trace of a slot: the ability is chosen by name first, then the trace by slot
   * name inside that ability only. Either miss is an error.
   */
  function GetTraceBySlotId(abilities: seq<Ability>, slotId: SlotId): (r: Result<Trace, TraceLookupError>)
    ensures FindAbility(abilities, slotId.abilityName).None? ==> r == Failure(NoSuchAbility(slotId.abilityName))
    ensures FindAbility(abilities, slotId.abilityName).Some? ==>
      var traces := FindAbility(abilities, slotId.abilityName).value.traces;
      && (r.Success? <==> exists t :: t in traces && t.slotName == slotId.slotName)
      && (r.Failure? ==> r.error == NoSuchTrace(slotId))
      && (r.Success? ==> r.value in traces && r.value.slotName == slotId.slotName)
  {
    match FindAbility(abilities, slotId.abilityName)
    case None => Failure(NoSuchAbility(slotId.abilityName))
    case Some(ability) =>
      match Find(ability.traces, (t: Trace) => t.slotName == slotId.slotName)
      case None => Failure(NoSuchTrace(slotId))
      case Some(trace) => Success(trace)
  }

  /**
   * When the first ability with the requested name is at index i and the first of its
   * traces for the requested slot is at index k, the lookup returns exactly that entry.
   */
  lemma TraceLookupReturnsThatEntry(abilities: seq<Ability>, slotId: SlotId, i: nat, k: nat)
    requires i < |abilities| && abilities[i].name == slotId.abilityName
    requires forall j :: 0 <= j < i ==> abilities[j].name != slotId.abilityName
    requires k < |abilities[i].traces| && abilities[i].traces[k].slotName == slotId.slotName
    requires forall j :: 0 <= j < k ==> abilities[i].traces[j].slotName != slotId.slotName
    ensures GetTraceBySlotId(abilities, slotId) == Success(abilities[i].traces[k])
  {
    FindFirst(abilities, (a: Ability) => a.name == slotId.abilityName, i);
    FindFirst(abilities[i].traces, (t: Trace) => t.slotName == slotId.slotName, k);
  }

  /**
   * No fall-through: a missing trace in the named ability is an error even when other
   * abilities declare a trace for a slot of that name.
   */
  lemma {:induction false} TraceLookupDoesNotFallThrough(abilities: seq<Ability>, slotId: SlotId, i: nat)
    requires i < |abilities| && abilities[i].name == slotId.abilityName
    requires forall j :: 0 <= j < i ==> abilities[j].name != slotId.abilityName
    requires forall t :: t in abilities[i].traces ==> t.slotName != slotId.slotName
    ensures GetTraceBySlotId(abilities, slotId) == Failure(NoSuchTrace(slotId))
  {
    FindFirst(abilities, (a: Ability) => a.name == slotId.abilityName, i);
  }

  // The three cases of the unit test for the trace lookup, on its own data.

  function TestAbility(name: string, traceSlots: seq<string>): Ability
  {
    Ability(name, [], Map(traceSlots, (n: string) => Trace(n, None)), None)
  }

  lemma TraceLookupUnknownAbilityCase()
    ensures GetTraceBySlotId([TestAbility("ability1", []), TestAbility("ability2", []), TestAbility("ability3", [])],
                             SlotId("ability4", "slot1")).Failure?
  {
    var abilities := [TestAbility("ability1", []), TestAbility("ability2", []), TestAbility("ability3", [])];
    assert forall a :: a in abilities ==> a.name != "ability4";
  }

  lemma TraceLookupMissingTraceCase()
    ensures GetTraceBySlotId([TestAbility("ability1", ["slot3"]), TestAbility("ability2", ["slot3"]), TestAbility("ability3", ["slot1", "slot2"])],
                             SlotId("ability3", "slot3")).Failure?
  {
    var abilities := [TestAbility("ability1", ["slot3"]), TestAbility("ability2", ["slot3"]), TestAbility("ability3", ["slot1", "slot2"])];
    assert abilities[2].traces == [Trace("slot1", None), Trace("slot2", None)];
    TraceLookupDoesNotFallThrough(abilities, SlotId("ability3", "slot3"), 2);
  }

  lemma TraceLookupFoundCase()
    ensures var abilities := [TestAbility("ability1", ["slot3"]), TestAbility("ability2", ["slot3"]), TestAbility("ability3", ["slot1", "slot2", "slot3"])];
            GetTraceBySlotId(abilities, SlotId("ability3", "slot3")) == Success(abilities[2].traces[2])
  {
    var abilities := [TestAbility("ability1", ["slot3"]), TestAbility("ability2", ["slot3"]), TestAbility("ability3", ["slot1", "slot2", "slot3"])];
    assert abilities[2].traces == [Trace("slot1", None), Trace("slot2", None), Trace("slot3", None)];
    TraceLookupReturnsThatEntry(abilities, SlotId("ability3", "slot3"), 2, 2);
  }
}
