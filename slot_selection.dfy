/**
 * What the next slot to prompt is: the focused ability's first declared slot that
 * has no status entry, in declaration order; when every declared slot has one, the
 * first unfilled enabled status entry, in status order, that names a declared slot.
 * There is no sorting, and the slot always carries the focused ability's name.
 */
module SlotSelection {
  import opened Wrappers
  import opened WolfTypes
  import opened Seqs
  import opened Helpers
  import opened EvaluateLogic

  /** A status entry of the ability that is enabled and not done. */
  predicate UnfilledEnabled(e: SlotStatus, abilityName: string)
  {
    e.abilityName == abilityName && e.isEnabled && !e.isDone
  }

  /** Some declared slot has the name. */
  predicate Declared(slots: seq<Slot>, slotName: string)
  {
    exists slot :: slot in slots && slot.name == slotName
  }

  /** The slot names of the ability's status entries are the slots with a status entry. */
  lemma StatusNames(status: seq<SlotStatus>, abilityName: string, n: string)
    ensures n in Map(Filter(status, (e: SlotStatus) => e.abilityName == abilityName), (e: SlotStatus) => e.slotName)
        <==> HasStatusEntry(status, abilityName, n)
  {
    var ofAbility := (e: SlotStatus) => e.abilityName == abilityName;
    var toSlotName := (e: SlotStatus) => e.slotName;
    FilterMembers(status, ofAbility);
    MapMembers(Filter(status, ofAbility), toSlotName);
  }

  /** The first missing slot id is that of the first declared slot with no status entry. */
  lemma FirstMissing(flow: Flow, status: seq<SlotStatus>, abilityName: string, k: nat)
    requires FindAbility(flow.abilities, abilityName).Some?
    requires k < |AbilitySlots(FindAbility(flow.abilities, abilityName).value)|
    requires !HasStatusEntry(status, abilityName, AbilitySlots(FindAbility(flow.abilities, abilityName).value)[k].name)
    requires forall j :: 0 <= j < k ==> HasStatusEntry(status, abilityName, AbilitySlots(FindAbility(flow.abilities, abilityName).value)[j].name)
    ensures |GetMissingSlotsOnSlotStatus(flow, status, abilityName)| > 0
    ensures GetMissingSlotsOnSlotStatus(flow, status, abilityName)[0] == SlotId(abilityName, AbilitySlots(FindAbility(flow.abilities, abilityName).value)[k].name)
  {
    var slots := AbilitySlots(FindAbility(flow.abilities, abilityName).value);
    var namesOfStatus := Map(Filter(status, (e: SlotStatus) => e.abilityName == abilityName), (e: SlotStatus) => e.slotName);
    var names := Map(slots, (slot: Slot) => slot.name);
    forall j | 0 <= j <= k ensures (names[j] in namesOfStatus) == HasStatusEntry(status, abilityName, slots[j].name) {
      StatusNames(status, abilityName, names[j]);
    }
    FilterFirst(names, (n: string) => n !in namesOfStatus, k);
  }

  /** A focused ability whose declared slot k is the first without a status entry prompts slot k next. */
  lemma NextSlotIsFirstMissing(flow: Flow, s: WolfState, k: nat)
    requires Named(s.focusedAbility)
    requires FindAbility(flow.abilities, s.focusedAbility.value).Some?
    requires k < |AbilitySlots(FindAbility(flow.abilities, s.focusedAbility.value).value)|
    requires !HasStatusEntry(s.slotStatus, s.focusedAbility.value, AbilitySlots(FindAbility(flow.abilities, s.focusedAbility.value).value)[k].name)
    requires forall j :: 0 <= j < k ==>
      HasStatusEntry(s.slotStatus, s.focusedAbility.value, AbilitySlots(FindAbility(flow.abilities, s.focusedAbility.value).value)[j].name)
    ensures FindNextSlotToPrompt(flow, s) == Some(SlotId(s.focusedAbility.value, AbilitySlots(FindAbility(flow.abilities, s.focusedAbility.value).value)[k].name))
  {
    var name := s.focusedAbility.value;
    var slots := AbilitySlots(FindAbility(flow.abilities, name).value);
    FirstMissing(flow, s.slotStatus, name, k);
    var all := GetMissingSlotsOnSlotStatus(flow, s.slotStatus, name) + GetUnfilledEnabledSlots(s.slotStatus, name);
    var resolve := (id: SlotId) => Find(slots, (slot: Slot) => slot.name == id.slotName);
    assert all[0] == SlotId(name, slots[k].name);
    var resolved := Map(all, resolve);
    assert resolved[0].Some? && resolved[0].value.name == slots[k].name by {
      assert slots[k] in slots;
    }
    SomesFirst(resolved, 0);
  }

  /** With no missing slot, the candidates are the resolvable unfilled enabled entries. */
  lemma {:induction false} FirstUnfilledEnabled(status: seq<SlotStatus>, abilityName: string, slots: seq<Slot>, k: nat)
    requires k < |status| && UnfilledEnabled(status[k], abilityName) && Declared(slots, status[k].slotName)
    requires forall j :: 0 <= j < k && UnfilledEnabled(status[j], abilityName) ==> !Declared(slots, status[j].slotName)
    ensures var resolved := Somes(Map(GetUnfilledEnabledSlots(status, abilityName), (id: SlotId) => Find(slots, (slot: Slot) => slot.name == id.slotName)));
      |resolved| > 0 && resolved[0].name == status[k].slotName
  {
    var resolve := (id: SlotId) => Find(slots, (slot: Slot) => slot.name == id.slotName);
    var q := (e: SlotStatus) => e.abilityName == abilityName && e.isEnabled && !e.isDone;
    var toId := (e: SlotStatus) => SlotId(e.abilityName, e.slotName);
    var tail := Map(GetUnfilledEnabledSlots(status[1..], abilityName), resolve);
    if q(status[0]) {
      assert GetUnfilledEnabledSlots(status, abilityName) == [toId(status[0])] + GetUnfilledEnabledSlots(status[1..], abilityName) by {
        assert Filter(status, q) == [status[0]] + Filter(status[1..], q);
        assert ([status[0]] + Filter(status[1..], q))[1..] == Filter(status[1..], q);
      }
      assert Map(GetUnfilledEnabledSlots(status, abilityName), resolve) == [resolve(toId(status[0]))] + tail by {
        assert ([toId(status[0])] + GetUnfilledEnabledSlots(status[1..], abilityName))[1..] == GetUnfilledEnabledSlots(status[1..], abilityName);
      }
      assert ([resolve(toId(status[0]))] + tail)[1..] == tail;
      if k > 0 {
        assert resolve(toId(status[0])).None?;
        FirstUnfilledEnabled(status[1..], abilityName, slots, k - 1);
      } else {
        assert resolve(toId(status[0])).Some?;
      }
    } else {
      assert Filter(status, q) == Filter(status[1..], q);
      FirstUnfilledEnabled(status[1..], abilityName, slots, k - 1);
    }
  }

  /** With a status entry for every declared slot, no slot is missing. */
  lemma NoneMissing(flow: Flow, status: seq<SlotStatus>, abilityName: string)
    requires FindAbility(flow.abilities, abilityName).Some?
    requires forall slot :: slot in AbilitySlots(FindAbility(flow.abilities, abilityName).value) ==>
      HasStatusEntry(status, abilityName, slot.name)
    ensures GetMissingSlotsOnSlotStatus(flow, status, abilityName) == []
  {
  }

  /** Unfolding helper: the candidates of an ability in the flow, resolved against its declared slots. */
  lemma UnfilledSlotsAre(flow: Flow, status: seq<SlotStatus>, abilityName: string)
    requires FindAbility(flow.abilities, abilityName).Some?
    ensures var slots := AbilitySlots(FindAbility(flow.abilities, abilityName).value);
      GetUnfilledSlots(flow, status, abilityName) ==
      Somes(Map(GetMissingSlotsOnSlotStatus(flow, status, abilityName) + GetUnfilledEnabledSlots(status, abilityName),
                (id: SlotId) => Find(slots, (slot: Slot) => slot.name == id.slotName)))
  {
  }

  /**
   * When every declared slot of the focused ability has a status entry, the next slot
   * is the one named by the first unfilled enabled entry that names a declared slot.
   */
  lemma NextSlotIsFirstUnfilledEnabled(flow: Flow, s: WolfState, k: nat)
    requires Named(s.focusedAbility)
    requires FindAbility(flow.abilities, s.focusedAbility.value).Some?
    requires forall slot :: slot in AbilitySlots(FindAbility(flow.abilities, s.focusedAbility.value).value) ==>
      HasStatusEntry(s.slotStatus, s.focusedAbility.value, slot.name)
    requires k < |s.slotStatus| && UnfilledEnabled(s.slotStatus[k], s.focusedAbility.value)
    requires Declared(AbilitySlots(FindAbility(flow.abilities, s.focusedAbility.value).value), s.slotStatus[k].slotName)
    requires forall j :: 0 <= j < k && UnfilledEnabled(s.slotStatus[j], s.focusedAbility.value) ==>
      !Declared(AbilitySlots(FindAbility(flow.abilities, s.focusedAbility.value).value), s.slotStatus[j].slotName)
    ensures FindNextSlotToPrompt(flow, s) == Some(SlotId(s.focusedAbility.value, s.slotStatus[k].slotName))
  {
    var name := s.focusedAbility.value;
    var slots := AbilitySlots(FindAbility(flow.abilities, name).value);
    NoneMissing(flow, s.slotStatus, name);
    UnfilledSlotsAre(flow, s.slotStatus, name);
    var enabled := GetUnfilledEnabledSlots(s.slotStatus, name);
    assert [] + enabled == enabled;
    FirstUnfilledEnabled(s.slotStatus, name, slots, k);
  }

  /** A declared slot without a status entry is a candidate. */
  lemma MissingIsCandidate(flow: Flow, status: seq<SlotStatus>, abilityName: string, slot: Slot)
    requires FindAbility(flow.abilities, abilityName).Some?
    requires slot in AbilitySlots(FindAbility(flow.abilities, abilityName).value)
    requires !HasStatusEntry(status, abilityName, slot.name)
    ensures |GetUnfilledSlots(flow, status, abilityName)| > 0
  {
    var slots := AbilitySlots(FindAbility(flow.abilities, abilityName).value);
    var all := GetMissingSlotsOnSlotStatus(flow, status, abilityName) + GetUnfilledEnabledSlots(status, abilityName);
    var resolve := (id: SlotId) => Find(slots, (slot: Slot) => slot.name == id.slotName);
    UnfilledSlotsAre(flow, status, abilityName);
    var id := SlotId(abilityName, slot.name);
    assert id in all;
    MapMembers(all, resolve);
    SomesMembers(Map(all, resolve));
    assert resolve(id).value in Somes(Map(all, resolve));
  }

  /** An unfilled enabled entry that names a declared slot is a candidate. */
  lemma EnabledIsCandidate(flow: Flow, status: seq<SlotStatus>, abilityName: string, e: SlotStatus)
    requires FindAbility(flow.abilities, abilityName).Some?
    requires e in status && UnfilledEnabled(e, abilityName)
    requires Declared(AbilitySlots(FindAbility(flow.abilities, abilityName).value), e.slotName)
    ensures |GetUnfilledSlots(flow, status, abilityName)| > 0
  {
    var slots := AbilitySlots(FindAbility(flow.abilities, abilityName).value);
    var all := GetMissingSlotsOnSlotStatus(flow, status, abilityName) + GetUnfilledEnabledSlots(status, abilityName);
    var resolve := (id: SlotId) => Find(slots, (slot: Slot) => slot.name == id.slotName);
    UnfilledSlotsAre(flow, status, abilityName);
    var id := SlotId(abilityName, e.slotName);
    assert id in GetUnfilledEnabledSlots(status, abilityName);
    assert id in all;
    MapMembers(all, resolve);
    SomesMembers(Map(all, resolve));
    assert resolve(id).value in Somes(Map(all, resolve));
  }

  /** With every declared slot reported and no unfilled enabled entry declared, there is no candidate. */
  lemma NoCandidate(flow: Flow, status: seq<SlotStatus>, abilityName: string)
    requires FindAbility(flow.abilities, abilityName).Some?
    requires forall slot :: slot in AbilitySlots(FindAbility(flow.abilities, abilityName).value) ==>
      HasStatusEntry(status, abilityName, slot.name)
    requires forall e :: e in status && UnfilledEnabled(e, abilityName) ==>
      !Declared(AbilitySlots(FindAbility(flow.abilities, abilityName).value), e.slotName)
    ensures GetUnfilledSlots(flow, status, abilityName) == []
  {
    var slots := AbilitySlots(FindAbility(flow.abilities, abilityName).value);
    var enabled := GetUnfilledEnabledSlots(status, abilityName);
    var resolve := (id: SlotId) => Find(slots, (slot: Slot) => slot.name == id.slotName);
    NoneMissing(flow, status, abilityName);
    UnfilledSlotsAre(flow, status, abilityName);
    assert [] + enabled == enabled;
    var resolved := Map(enabled, resolve);
    forall i | 0 <= i < |resolved| ensures resolved[i].None? {
      assert enabled[i] in enabled;
    }
    SomesOfNones(resolved);
  }

  /**
   * There is no next slot exactly when nothing is focused, the focused ability is not
   * in the flow, or every declared slot has a status entry and no unfilled enabled entry
   * of the ability names a declared slot.
   */
  lemma NextSlotAbsent(flow: Flow, s: WolfState)
    ensures FindNextSlotToPrompt(flow, s).None? <==>
      || !Named(s.focusedAbility)
      || FindAbility(flow.abilities, s.focusedAbility.value).None?
      || (&& (forall slot :: slot in AbilitySlots(FindAbility(flow.abilities, s.focusedAbility.value).value) ==>
                HasStatusEntry(s.slotStatus, s.focusedAbility.value, slot.name))
          && (forall e :: e in s.slotStatus && UnfilledEnabled(e, s.focusedAbility.value) ==>
                !Declared(AbilitySlots(FindAbility(flow.abilities, s.focusedAbility.value).value), e.slotName)))
  {
    if Named(s.focusedAbility) && FindAbility(flow.abilities, s.focusedAbility.value).Some? {
      var name := s.focusedAbility.value;
      var slots := AbilitySlots(FindAbility(flow.abilities, name).value);
      if exists slot :: slot in slots && !HasStatusEntry(s.slotStatus, name, slot.name) {
        var slot :| slot in slots && !HasStatusEntry(s.slotStatus, name, slot.name);
        MissingIsCandidate(flow, s.slotStatus, name, slot);
      } else if exists e :: e in s.slotStatus && UnfilledEnabled(e, name) && Declared(slots, e.slotName) {
        var e :| e in s.slotStatus && UnfilledEnabled(e, name) && Declared(slots, e.slotName);
        EnabledIsCandidate(flow, s.slotStatus, name, e);
      } else {
        NoCandidate(flow, s.slotStatus, name);
      }
    }
  }
}
