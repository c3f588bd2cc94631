# The evaluate stage of a slot-filling dialogue engine, in Dafny

The engine runs a conversation turn through five stages: intake, fill, evaluate, execute
and outtake. After the fill stage has
stored the user's values, the **evaluate stage** picks the single next move of the turn:

1. If an ability is already marked complete on this turn, it chains from the first such
   ability through that ability's `nextAbility`. It either focuses the next ability and
   pushes that ability's first candidate slot, or it clears the focus.
2. Otherwise it finds the abilities that this turn's fills completed, removes duplicates,
   marks each one complete and chains from the first. This time the chosen slot is offered
   to trace inference before it is pushed.
3. Otherwise it stands still when a prompt is pending.
4. Otherwise it falls back to the default ability when nothing is focused.
5. It picks the focused ability's next slot. If that slot's trace `getValue` infers a
   truthy value, it fills the slot and runs again. Otherwise it pushes the slot with
   reason `query`.

The model has two layers:

- `EvaluateLogic.Evaluation`, together with `ChainFrom`, `FocusNext` and `InferOrPrompt`,
  is the stage as a function of the state before it runs. It returns the actions the
  stage dispatches and the trace-lookup error it throws, if any.
- `EvaluateStage.Evaluate` is the stage's `evaluate` procedure: a method on a store that
  reads the current state before each decision and dispatches one action at a time.

The store (`Store.WolfStore`) keeps its state and the log of dispatched actions. Its
invariant says that the state is the initial state with the log applied. Each method of
the stage is proved to append exactly the function's actions to the log and to throw
exactly its error. The properties of the stage are then proved about the function:

- which branch wins;
- the order of the actions;
- which slot is chosen;
- what inference does.

Other parts of the model:

- The helpers of the stage are pure functions, each with its meaning as a contract.
- The slot selectors are pure functions.
- The trace lookup is specified by its three unit-test cases.
- The slot action creators are one `SlotCommand` datatype with `Create`, the object a
  creator returns, and `Parse`, its exact inverse.

User callbacks (`nextAbility`, `getValue`) are synchronous oracle functions in a
`Callbacks` value, and so is the unshown `fulfillSlot`. Conversation storage and
slot-history records are abstract types passed through.

Files:

| file | modules and contents |
|---|---|
| `wrappers.dfy` | `Option`, `Result` |
| `types.dfy` | `WolfTypes`: the state record, the configuration records and JavaScript truthiness |
| `seqs.dfy` | `Seqs`: `filter`, `map`, `every`, `some`, `find` and `[...new Set(s)]` |
| `helpers.dfy` | `Helpers`: ability and status lookups, and the trace lookup with its test cases |
| `actions.dfy` | `SlotActions` |
| `selectors.dfy` | `FillSlotSelectors` |
| `store.dfy` | `Store` |
| `evaluate.dfy` | `EvaluateLogic` |
| `stage.dfy` | `EvaluateStage` |
| `slot_selection.dfy` | `SlotSelection`: which slot is prompted next |
| `evaluate_properties.dfy` | `EvaluateProperties`: the stage branch by branch |

## Model

| member | source | states |
|---|---|---|
| WolfTypes.Truthy | src/stages/evaluate.ts:278 | a value is falsy exactly when it is `undefined`, `null`, `false`, `0` or the empty string |
| WolfTypes.Named | src/stages/evaluate.ts:52 | a string-or-null value is falsy exactly when it is null or the empty string |
| Seqs.Filter | src/stages/evaluate.ts:360 | `filter` keeps at most the input's elements |
| Seqs.FilterMembers | src/stages/evaluate.ts:360 | an element is kept exactly when it is in the input and passes |
| Seqs.FilterFirst | src/stages/evaluate.ts:395-397 | the first kept element is the input's first passing element |
| Seqs.Map | src/stages/evaluate.ts:338 | `map` keeps the length, and element i is f of input element i |
| Seqs.MapMembers | src/stages/evaluate.ts:393 | every image is in the result, and every result element is an image of an input element |
| Seqs.All | src/stages/evaluate.ts:361-362 | `every` holds exactly when all elements pass |
| Seqs.Any | src/stages/evaluate.ts:450 | `some` holds exactly when some element passes |
| Seqs.Find | src/stages/evaluate.ts:356 | `find` is undefined exactly when nothing passes, and otherwise returns the element at the first passing index |
| Seqs.FindFirst | src/stages/evaluate.ts:428 | `find` returns the element at the first passing index |
| Seqs.Somes | src/stages/evaluate.ts:429 | dropping the undefined entries does not lengthen the list |
| Seqs.SomesMembers | src/stages/evaluate.ts:429 | the entries kept are exactly the defined ones |
| Seqs.SomesFirst | src/stages/evaluate.ts:429 | the first entry kept is the first defined one |
| Seqs.SomesOfNones | src/stages/evaluate.ts:429 | a list of only undefined entries keeps nothing |
| Seqs.FilterKeepsOrder | src/stages/evaluate.ts:339-340 | `filter` keeps the order in which elements first occur |
| Seqs.Dedup | src/stages/evaluate.ts:103 | the result has the same elements, no duplicates and no more entries, the same first element, and lists the elements in the order of their first occurrence |
| Helpers.AbilitySlots | src/stages/evaluate.ts:361 | `getAbilitySlots`, assumed: the ability's own declared slots, in declaration order |
| Helpers.FindAbility | src/stages/evaluate.ts:356 | the ability found is in the list and has that name, and nothing is found exactly when no ability has that name |
| Helpers.FindIndexOfSlotId | src/selectors/fillSlotSelectors.ts:26 | -1 exactly when no status entry matches the slot id, and otherwise the index of the first entry that does |
| Helpers.FirstEntryUnique | src/selectors/fillSlotSelectors.ts:26-27 | the first matching status entry is unique |
| Helpers.GetTraceBySlotId | src/tests/unit/helpers/trace.test.ts:10-79 | an unknown ability is an error; otherwise the lookup succeeds exactly when that ability has a trace for the slot, returns one of that ability's own traces with that slot name, and fails as a missing trace otherwise |
| Helpers.TraceLookupReturnsThatEntry | src/tests/unit/helpers/trace.test.ts:57-79 | the ability is chosen by name first, then the trace by slot name within it: the first such trace of the first such ability is returned |
| Helpers.TraceLookupDoesNotFallThrough | src/tests/unit/helpers/trace.test.ts:34-55 | a missing trace in the named ability is an error, even when other abilities have a trace for that slot name |
| Helpers.TraceLookupUnknownAbilityCase | src/tests/unit/helpers/trace.test.ts:11-32 | the first test case: no ability of that name, and every trace list empty, is an error |
| Helpers.TraceLookupMissingTraceCase | src/tests/unit/helpers/trace.test.ts:34-55 | the second test case: `ability3` has no `slot3` trace, so the lookup fails although other abilities have one |
| Helpers.TraceLookupFoundCase | src/tests/unit/helpers/trace.test.ts:57-79 | the third test case: the lookup returns exactly `abilities[2].traces[2]` |
| SlotActions.Create | src/actions/slots.ts:1-94 | each creator's object carries that creator's own type constant (`Tag`) |
| SlotActions.Parse | src/actions/slots.ts:1-94 | a creator call is read back only from an object carrying that creator's type constant |
| SlotActions.ParseCreate | src/actions/slots.ts:1-94 | every creator's object carries its arguments unchanged, under a type tag of its own: reading it back gives the call that built it; this covers the seven bare-SlotId creators and the flattened on-fill payload |
| SlotActions.CreateParse | src/actions/slots.ts:1-94 | an object that reads back as a creator call is exactly the object that call builds |
| SlotActions.CreateInjective | src/actions/slots.ts:1-94 | distinct creator calls build distinct objects |
| FillSlotSelectors.GetPromptedSlotId | src/selectors/fillSlotSelectors.ts:7 | the stack top (element 0) as a slot id, and nothing exactly when the stack is empty |
| FillSlotSelectors.IsPromptStatus | src/selectors/fillSlotSelectors.ts:9-11 | true exactly when the stack is non-empty and its top entry has been prompted |
| FillSlotSelectors.IsFocusedAbilitySet | src/selectors/fillSlotSelectors.ts:13 | the focused ability field, unchanged |
| FillSlotSelectors.GetSlotTurnCount | src/selectors/fillSlotSelectors.ts:15-23 | the turn count of the first stack entry matching both names, and 0 when none matches |
| FillSlotSelectors.GetRequestingSlotIdFromCurrentSlotId | src/selectors/fillSlotSelectors.ts:25-35 | an error when the slot id has no status entry or its first entry has no `requestingSlot`; otherwise that entry's ability with `requestingSlot` as the slot name |
| FillSlotSelectors.GetMessageData | src/selectors/fillSlotSelectors.ts:37 | the message data field, unchanged |
| FillSlotSelectors.GetRunOnFillStack | src/selectors/fillSlotSelectors.ts:39 | the on-fill stack field, unchanged |
| Store.Reduce | src/stages/evaluate.ts:58-111 | assumed effects: a slot action is the slot reducer's; setting the focus, marking an ability complete and adding a message change only the focus, the completed list (by appending the name) and the output queue (by appending the message) respectively |
| Store.ReduceAll | src/stages/evaluate.ts:283 | dispatching nothing keeps the state; dispatching no slot action leaves every part of the state but the focus, the completed list and the output queue unchanged |
| Store.ReduceAllAppend | src/stages/evaluate.ts:283 | dispatching a and then b reaches the state that dispatching a + b reaches |
| Store.StateAfter | src/stages/evaluate.ts:34 | a valid store that logged further actions is in its earlier state with those actions applied |
| Store.WolfStore.constructor | src/middlewares/wolfMiddleware.ts:46-47 | `createStore(rootReducer, state, …)`: a store starts in the given state, whichever it is, with an empty log |
| Store.WolfStore.Dispatch | src/stages/evaluate.ts:34 | `dispatch` applies the action to the state and appends it to the log |
| Store.WolfStore.DispatchAll | src/stages/evaluate.ts:283 | `actions.forEach(dispatch)` applies the actions in order and appends them to the log |
| EvaluateLogic.IsAbilityCompletedByFilledSlotsOnCurrentTurn | src/stages/evaluate.ts:348-378 | complete exactly when the ability exists, every declared slot has a status entry for that ability, and every enabled entry of that ability is done |
| EvaluateLogic.GetAbilitiesCompleted | src/stages/evaluate.ts:328-342 | a name is listed exactly when some slot filled this turn belongs to it and it is complete; the list has at most one entry per filled slot (its order is stated by `FirstCompletedFill` and `CompletionOrder`) |
| EvaluateLogic.FirstCompletedFill | src/stages/evaluate.ts:338-341 | when filled slot k is the first whose ability is complete, the first completed ability is that slot's ability |
| EvaluateLogic.FilledAbilityNames | src/stages/evaluate.ts:338 | the ability names of this turn's filled slots, one per slot, in fill order |
| EvaluateLogic.CompletionOrder | src/stages/evaluate.ts:101-111 | `abilityCompleted` goes out in the order in which the completed abilities first occur among the filled slots |
| EvaluateLogic.IsAbilityCompleted | src/stages/evaluate.ts:447-451 | true exactly when some ability status entry of that name has `isCompleted` |
| EvaluateLogic.GetNextAbility | src/stages/evaluate.ts:432-445 | null when the ability is unknown or has no `nextAbility`; otherwise the result of its `nextAbility` on the storage and the current state |
| EvaluateLogic.GetUnfilledEnabledSlots | src/stages/evaluate.ts:423 | the ids of the ability's enabled, not-done status entries |
| EvaluateLogic.GetMissingSlotsOnSlotStatus | src/stages/evaluate.ts:380-402 | empty for an unknown ability; otherwise an id is listed exactly when it names the ability and a declared slot that has no status entry |
| EvaluateLogic.GetUnfilledSlots | src/stages/evaluate.ts:407-430 | empty for an unknown ability; otherwise only declared slots of the ability |
| EvaluateLogic.FindNextSlotToPrompt | src/stages/evaluate.ts:294-323 | null without a focus; a slot found always carries the focused ability's name and names a declared slot of that ability |
| EvaluateLogic.RunTraceGetValue | src/stages/evaluate.ts:461-470 | null without `getValue`, and otherwise that callback's result on the slot records |
| EvaluateLogic.InferredValue | src/stages/evaluate.ts:272-288 | fails exactly when the trace lookup fails, with its error; yields a value exactly when the trace has `getValue` and its result is truthy, and the value is that result |
| EvaluateLogic.QueuedMessage | src/stages/evaluate.ts:71-75 | at most one action: an output message of type `nextAbilityMessage` carrying the message, queued exactly when the message is non-empty |
| EvaluateLogic.ChainTarget | src/stages/evaluate.ts:52-56 | an ability is chained to exactly when the result is not null, names an ability, and that ability has no completed status entry; it is the named one |
| EvaluateLogic.Evaluation | src/stages/evaluate.ts:36-251 | the stage as a function of the state it starts in (each branch pinned down in `EvaluateProperties`): what it throws is always a failed trace lookup, and with an ability already complete on this turn it throws nothing |
| EvaluateLogic.ChainFrom | src/stages/evaluate.ts:50-90 | the first action sets the focus to the chain target; only chaining with inference can throw, and only a failed trace lookup |
| EvaluateLogic.FocusNext | src/stages/evaluate.ts:117-173 | the first action focuses the chained ability; only inference can throw, and only a failed trace lookup |
| EvaluateLogic.InferOrPrompt | src/stages/evaluate.ts:232-250 | a next slot whose trace lookup fails throws that error with nothing dispatched; whatever is thrown is a failed trace lookup |
| EvaluateLogic.CompletionMarks | src/stages/evaluate.ts:108-111 | one `abilityCompleted` per name, in order |
| EvaluateLogic.PendingReadsStatus | src/stages/evaluate.ts:407-430 | the candidate count depends on the slot status list only |
| EvaluateLogic.CompletedReadsFillsAndStatus | src/stages/evaluate.ts:328-342 | the completed abilities depend on the filled slots and the slot status list only |
| EvaluateLogic.NextSlotReadsFocusAndStatus | src/stages/evaluate.ts:294-323 | the next slot depends on the focus and the slot status list only |
| EvaluateLogic.MarksKeepSlots | src/stages/evaluate.ts:108-111 | marking abilities complete appends them to `abilitiesCompleteOnCurrentTurn` and changes nothing else |
| EvaluateLogic.InferOrPromptFilled | src/stages/evaluate.ts:232-242 | a yielded value makes the stage dispatch the fill actions and then run again on the resulting state |
| EvaluateStage.RunTraceLogic | src/stages/evaluate.ts:264-289 | true only when the trace has `getValue` and its result is truthy, and then `fulfillSlot`'s actions are dispatched; otherwise false with nothing dispatched; a failed lookup is the error thrown |
| EvaluateStage.Evaluate | src/stages/evaluate.ts:29-251 | dispatches exactly the actions of `Evaluation` on the state it started in, throws exactly its error, and leaves the store in that state with those actions applied |
| EvaluateStage.EvaluateSteps | src/stages/evaluate.ts:36-251 | the decisions, in source order, dispatch exactly the actions of `Evaluation` and throw its error |
| EvaluateStage.MarkAbilitiesCompleted | src/stages/evaluate.ts:108-111 | dispatches one `abilityCompleted` per name in order; the state gains exactly those names |
| EvaluateStage.ChainToNextAbility | src/stages/evaluate.ts:50-90 | dispatches exactly the actions of `ChainFrom` and throws its error |
| EvaluateStage.FocusNextAbility | src/stages/evaluate.ts:117-173 | dispatches exactly the actions of `FocusNext` and throws its error |
| EvaluateStage.InferOrPromptSlot | src/stages/evaluate.ts:232-250 | dispatches exactly the actions of `InferOrPrompt` and throws its error |
| SlotSelection.StatusNames | src/stages/evaluate.ts:391-393 | a name is among the slot names of the ability's status entries exactly when that slot has a status entry |
| SlotSelection.FirstMissing | src/stages/evaluate.ts:380-402 | the first missing id is that of the first declared slot, in declaration order, with no status entry |
| SlotSelection.NextSlotIsFirstMissing | src/stages/evaluate.ts:294-323 | when declared slot k is the first without a status entry, the next slot is slot k of the focused ability |
| SlotSelection.FirstUnfilledEnabled | src/stages/evaluate.ts:423-429 | the first resolved unfilled-enabled candidate is the first such status entry, in status order, that names a declared slot |
| SlotSelection.NoneMissing | src/stages/evaluate.ts:380-402 | with a status entry for every declared slot, nothing is missing |
| SlotSelection.NextSlotIsFirstUnfilledEnabled | src/stages/evaluate.ts:294-323 | when no declared slot is missing, the next slot is named by the first unfilled enabled status entry that names a declared slot |
| SlotSelection.MissingIsCandidate | src/stages/evaluate.ts:407-430 | a declared slot without a status entry makes the candidate list non-empty |
| SlotSelection.EnabledIsCandidate | src/stages/evaluate.ts:407-430 | an unfilled enabled entry naming a declared slot makes the candidate list non-empty |
| SlotSelection.NoCandidate | src/stages/evaluate.ts:407-430 | with every declared slot reported and no declared unfilled enabled entry, there is no candidate |
| SlotSelection.NextSlotAbsent | src/stages/evaluate.ts:294-323 | the next slot is null exactly when there is no focus, the focused ability is unknown, or it has no missing slot and no declared unfilled enabled entry |
| EvaluateProperties.ChainCleared | src/stages/evaluate.ts:52-90 | the chain target is absent exactly when the result is null, has no ability name, or names an ability marked completed; then the only action clears the focus, nothing is pushed, and the state differs only in its focus |
| EvaluateProperties.ChainWithoutSlot | src/stages/evaluate.ts:62-69 | a chained ability without a candidate slot is focused and then unfocused; no message is queued, nothing is pushed, and only the focus changes, to null |
| EvaluateProperties.ChainPrompts | src/stages/evaluate.ts:56-81 | chaining to an ability with a candidate slot dispatches, in order, the focus, the message if there is one, and the slot with reason `query`; the slot belongs to that ability |
| EvaluateProperties.ChainInfers | src/stages/evaluate.ts:123-164 | after this turn's completions, chaining focuses the ability, queues the message, and offers the same next slot to inference |
| EvaluateProperties.ChainWithoutInference | src/stages/evaluate.ts:50-90 | chaining without inference throws nothing, marks nothing complete, and first sets the focus to the chain target |
| EvaluateProperties.CompletedAbilityWins | src/stages/evaluate.ts:43-91 | with an ability marked complete on this turn, the stage chains from the first one without inference, throws nothing, marks nothing, and first sets the focus to the chain target |
| EvaluateProperties.FilledSlotsCompleteAbilities | src/stages/evaluate.ts:93-117 | the abilities completed by this turn's fills are marked once each, with no duplicates and exactly the completed names, and chaining runs from the first completed ability with inference |
| EvaluateProperties.ChainsFromEarliestCompletedFill | src/stages/evaluate.ts:93-117 | after marking the completions, the stage chains, with inference, from the ability of the earliest filled slot whose ability is complete |
| EvaluateProperties.PendingPromptStandsStill | src/stages/evaluate.ts:180-192 | with nothing completed and a prompt pending, nothing is dispatched or thrown, the state is unchanged, and a re-run does the same |
| EvaluateProperties.NoFocusNoDefault | src/stages/evaluate.ts:199-211 | with no focus and no default ability, nothing is dispatched |
| EvaluateProperties.DefaultAbilityFocused | src/stages/evaluate.ts:199-217 | with no focus, the default ability is focused first, and the rest of the run is the run on the state focused on it |
| EvaluateProperties.FocusedAbilityNextSlot | src/stages/evaluate.ts:219-232 | with a focus, the stage stops when there is no next slot, and otherwise offers that slot to inference |
| EvaluateProperties.InferenceLookupFails | src/stages/evaluate.ts:272 | a next slot without a trace makes the stage throw the lookup error, dispatching nothing |
| EvaluateProperties.InferenceDeclined | src/stages/evaluate.ts:245-248 | without `getValue`, or with a falsy result, the slot is pushed with reason `query` and nothing else is dispatched |
| EvaluateProperties.InferenceFills | src/stages/evaluate.ts:232-242 | a truthy result fills the slot with it, then the stage runs again on a state with fewer candidate slots |

## Left out

- Reducers: the reducers are not part of this model. `setFocusedAbility` replaces the
  focus, `abilityCompleted` appends the name to `abilitiesCompleteOnCurrentTurn`, and
  `addMessage` appends to `outputMessageQueue`; these effects are assumptions
  (`Store.Reduce`). Every slot action goes to a reducer function that the store is
  created with and that is left unspecified.
- `fulfillSlot` is not part of this model. It is an oracle that returns the fill actions.
- `getUnfilledEnabledSlots` is not part of this model. It is assumed to give the
  ability's enabled, not-done status entries, in status order, as slot ids.
- `getAbilitySlots` is not part of this model. The stage reads `{ abilities, slots } = flow`
  and calls `getAbilitySlots(slots, ability)`; the model has no flow-level `slots` and
  assumes the result is the ability's own `slots` array, in declaration order
  (`Helpers.AbilitySlots`).
- `findIndexOfSlotIdsBySlotId` is not part of this model. `Helpers.FindIndexOfSlotId`
  assumes it returns the index of the first status entry matching both the ability name
  and the slot name, and -1 when none does.
- `getAbilityByName` is assumed to give the first ability with the name, as `find` does.
- Termination after inference: the source has no argument for it. The model assumes
  `FillConsumesCandidate`, which says that the fill actions for the next slot leave fewer
  candidate slots across the flow. Without it, the recursion might not end.
- EvaluateLogic.GetNextAbility: the `nextAbility` callback is an uninterpreted oracle, so
  its result is not constrained.
- EvaluateLogic.GetUnfilledSlots: its order and first element are stated in
  `SlotSelection`, not in its own contract.
- Exceptions from user callbacks: `nextAbility`, `getValue` and `fulfillSlot` (with the
  `validate` and `onFill` it runs) are total functions in the model. In the program an
  exception from any of them aborts the turn after the actions already dispatched; in the
  model the only error the stage throws is a failed trace lookup (`Step.thrown`).
- Promises and `async`/`await`: every callback is a synchronous function, so interleaving
  is not modelled.
- The debug logging is left out.
- The middleware's wiring is left out. Its default state literal is not modelled: a store
  is created with any given state (`Store.WolfStore.constructor`).
- The middleware calls `evaluate` without awaiting it and passes `abilities` where a
  flow is expected. Neither is modelled.
- The acceptance test is left out. It depends on timers and on stages whose sources are
  not part of this model.
- JavaScript numbers are modelled as integers. Floating point and `NaN` truthiness are
  left out.
- Slot callbacks (`query`, `validate`, `retry`, `onFill`) and the storage layer's
  `read`/`save` are left out or kept as abstract types.
