# Popcorn initiative: turn selection

A model of the turn-selection core of the "Just Popcorn Initiative" module.
In popcorn initiative the combatant who has just acted chooses who acts next.
The model covers four parts of the module.

- **The gate.** `shouldCloseSelectionWindow` decides what happens when a player ends their turn. Either a selection window is offered, or it is refused with a reason, or the turn simply passes because only the last or second-to-last combatant is left.
- **The two lists.** The selection window shows two lists, built by the store updater:
  - the *selectable* combatants: those still to act, sorted characters first and then by name;
  - the *previous* combatants: those who have acted, most recent first.

  On the last turn of a round the selectable scan starts again from the top. The setting `canLastActorSelectThemselves` then decides whether the last combatant is selectable or previous.
- **Token interaction.**
  - A click while the token picker runs selects the first combatant backed by the targeted token.
  - Hovering a token highlights the entries it backs in both lists.
- **The session.** `ModuleAPI` holds the open window. It opens, refreshes and closes the window, and it acts on the GM's reply to a pass-turn request.

## How the model is built

Host lookups become parameters:
- `game.actors` is a map from actor id to `Actor`.
- `game.users` is a map from user id to `User`.
- The canvas tokens are a sequence of `Token`.
- `game.combat` is passed in as a `Combat`.

The svelte stores become the fields of one `Stores.ModuleStore` object. The store updater's functions are methods that write those fields.

Each list-building method is proved against a specification function:
- `UpdateSelectableCombatants` against `SelectableList`;
- `UpdatePreviousCombatants` against `PreviousList`.

The lemmas of module `Partition` then say what those functions contain.

JavaScript semantics the model keeps:
- `null` counts as 0 in arithmetic (`Domain.JsNumber`).
- String `<` compares character by character, and a proper prefix comes first (`CandidateOrder.NameLess`). The characters are Dafny `char`s, not UTF-16 code units (see "## Left out").
- `list.sort` is stable. It is modelled as a stable insertion sort with the source's comparator (`CandidateOrder.SortCandidates`).
- `find` and the scan loops with `break` return the first match (`Arrays.FirstIndex`).

Where the source would throw, the model has a precondition:
- The gate would read `turns[null]` when the turn is null, a combatant is current and combatants exist.
- `OnGlobalClick` would read `turns[null]` when the turn is null and at least two combatants exist. With exactly one combatant, `null + 1 === 1` makes the scan start at 0.
- The owner lookup and the sort read an actor or user that might be missing (`StoreUpdater.AllResolvable`, `ModuleUtils.OwnersResolvable`). `AllResolvable` asks this of every combatant of the turn order, not only of the scanned span (see "## Left out"). The session methods ask it only where the lists are rebuilt: when a window is held, or when the gate allows one.

Files:
- `domain.dfy`: the host records.
- `arrays.dfy`: `find`, `reverse`, `map`.
- `module_utils.dfy`: reason codes, notification keys, lookups, `retrieveOwnersInfo`, the gate.
- `module_store.dfy`: the stores and the list item shapes.
- `candidate_order.dfy`: the comparator and the sort.
- `store_updater.dfy`: the list builders, the token pick, highlight and toolbox.
- `partition.dfy`: what the two lists hold and how they split the turn order.
- `selection_session.dfy`: the `ModuleAPI` class and the selection window.

Behaviour of the code worth noting:
- **The previous list on the last turn.** The code leaves it empty when `canLastActorSelectThemselves` is set. Otherwise it holds just the current combatant (src/StoreUpdater.js:200-210).
- **The token pick does not wrap around.** It scans from the current turn to the end of the turn order, or from 0 on the last turn. It includes the current combatant itself (src/StoreUpdater.js:134-135).
- **Highlighting is not exclusive.** Every entry the hovered token backs is highlighted, not at most one (src/StoreUpdater.js:65-85).

## Model

| member | source | states |
|---|---|---|
| ModuleUtils.Code | src/ModuleUtils.js:1-12 | Each reason has the numeric value the source gives it, from -1 to 8; only `None` is -1 |
| ModuleUtils.CodesDistinct | src/ModuleUtils.js:1-12 | Distinct reasons have distinct numeric values |
| ModuleUtils.NotifyKey | src/ModuleUtils.js:16-48 | `notify` emits a message key for every reason except `None`, which the switch has no case for |
| ModuleUtils.NotifyKeysDistinct | src/ModuleUtils.js:16-48 | Distinct reasons are announced with distinct message keys |
| ModuleUtils.GetCombatantById | src/ModuleUtils.js:73-76 | The result is the first combatant of the turn order with that id; there is none exactly when no combatant has it |
| ModuleUtils.FindToken | src/ModuleUtils.js:96 | The token found is on the canvas and has the combatant's token id; none is found exactly when no canvas token has that id |
| ModuleUtils.TryGetToken | src/ModuleUtils.js:83-105 | `result` holds exactly when the reason is `None`. An unknown combatant gives `TryGetTokenInvalidCombatantId` and no token. A known combatant gives its canvas token, and `TryGetTokenInvalidId` exactly when that token is missing |
| ModuleUtils.OwnerColorsExactly | src/ModuleUtils.js:107-124 | A color is reported exactly when some non-"default" ownership entry of level 3 names a non-GM user of that color |
| ModuleUtils.RetrieveOwnersInfo | src/ModuleUtils.js:107-124 | The loop returns the colors of the player owners in key-iteration order (`OwnerColors`) |
| ModuleUtils.CurrentActorId | src/ModuleUtils.js:145 | The gate looks up the current turn's actor, or the placeholder "0" when the turn is past the end |
| ModuleUtils.ShouldCloseSelectionWindow | src/ModuleUtils.js:131-162 | `shouldClose` holds exactly when the reason is not `None`; the reason is one of the six the gate can give |
| ModuleUtils.GateReasonExactly | src/ModuleUtils.js:131-162 | Each reason wins exactly when every earlier check passes and its own fails: no combat, no combatant playing, unknown actor, actor not owned, last two turns, else `None` |
| ModuleUtils.LastOrSecondLastMeansLastTwo | src/ModuleUtils.js:155 | The test `t+1 >= n or t+2 >= n` is the test `t >= n-2` |
| ModuleUtils.GateAllowsBeforeLastTwo | src/ModuleUtils.js:144-161 | A playing combatant with an owned actor, before the last two turns, is always offered a window |
| ModuleUtils.GateUsesPlaceholderPastEnd | src/ModuleUtils.js:145-158 | Past the end of the turn order the gate's answer depends only on the actor "0" |
| CandidateOrder.KindRank | src/StoreUpdater.js:183-184 | The rank is 0 exactly for an actor of type "character", otherwise 1 |
| CandidateOrder.NameLessIrreflexive | src/StoreUpdater.js:186 | No name sorts before itself |
| CandidateOrder.NameLessTransitive | src/StoreUpdater.js:186 | String `<` is transitive |
| CandidateOrder.NameLessTotal | src/StoreUpdater.js:186 | Of two different names one sorts before the other |
| CandidateOrder.CompareMeansInOrder | src/StoreUpdater.js:181-187 | The comparator is at most 0 exactly when the first entry may stand before the second; swapping the arguments swaps the sign |
| CandidateOrder.InOrderTransitive | src/StoreUpdater.js:181-187 | The comparator's order is transitive |
| CandidateOrder.InsertPermutes | src/StoreUpdater.js:181 | Inserting an entry adds exactly that entry |
| CandidateOrder.InsertKeepsSorted | src/StoreUpdater.js:181-187 | Inserting into a sorted list leaves it sorted |
| CandidateOrder.SortPermutes | src/StoreUpdater.js:181-187 | The sorted list is a permutation of the scanned entries |
| CandidateOrder.SortOrders | src/StoreUpdater.js:181-187 | The sorted list puts characters first and names ascending within each kind |
| StoreUpdater.UpdateSelectableCombatants | src/StoreUpdater.js:149-190 | The stored selectable list is `SelectableList` of the combat, the selected id and the setting |
| StoreUpdater.UpdatePreviousCombatants | src/StoreUpdater.js:192-225 | The stored previous list is `PreviousList` of the combat and the setting |
| StoreUpdater.UpdateCombatants | src/StoreUpdater.js:18-29 | Both lists are rebuilt: selectable first, then previous |
| StoreUpdater.OnGlobalClick | src/StoreUpdater.js:125-147 | While the picker runs with a target token, the first combatant from the start index backed by that token becomes selected and the picker stops. Otherwise the selection and the picker are unchanged |
| StoreUpdater.HighlightCombatantItem | src/StoreUpdater.js:65-85 | In both lists an entry is highlighted exactly when the token backs it and the pointer is over the token; lengths and all other fields are unchanged |
| StoreUpdater.GetToolboxActions | src/StoreUpdater.js:87-123 | The picker action always comes first. Zoom is present exactly when a combatant is selected, and configuration exactly for a GM. Configuration comes last when present. Nothing else is present, and nothing twice |
| StoreUpdater.ToolboxButtonsDistinct | src/StoreUpdater.js:87-123 | The buttons offered together have pairwise different icons and pairwise different tooltips |
| StoreUpdater.RunToolboxAction | src/StoreUpdater.js:92-95 | The picker action starts the token picker; the others leave it as it was |
| Partition.NoTurnNoLists | src/StoreUpdater.js:149-224 | With no current turn both lists are empty |
| Partition.SelectableSpanExactly | src/StoreUpdater.js:155-166 | The selectable indices are those after the current turn. On the last turn they are all earlier ones, plus the last one when the last actor may select themselves |
| Partition.PreviousSpanExactly | src/StoreUpdater.js:198-212 | The previous indices are those up to the current turn. On the last turn there is only the current one, or none when the last actor may select themselves |
| Partition.SpansPartitionTurnOrder | src/StoreUpdater.js:155-212 | Every index of the turn order is in exactly one of the two spans, and neither span leaves the turn order |
| Partition.ScanSelectableAt | src/StoreUpdater.js:166-180 | The k-th entry pushed by the selectable loop is built from the combatant at the span's start plus k |
| Partition.ScanSelectableFrom | src/StoreUpdater.js:166-180 | Every pushed entry is built from a combatant of the span; it is selected exactly when its id is the selected id, and not highlighted |
| Partition.ScanSelectableIds | src/StoreUpdater.js:166-180 | The pushed entries carry the ids of the span's combatants, in order |
| Partition.ScanPreviousAt | src/StoreUpdater.js:212-221 | The k-th entry pushed by the previous loop is built from the combatant at the span's start plus k |
| Partition.SelectableListContents | src/StoreUpdater.js:166-187 | The selectable list is a permutation of the scanned entries, one per span index. It is sorted, and each entry comes from a span combatant, is selected exactly when its id is the selected id, and is not highlighted |
| Partition.SelectableIdsOfSpan | src/StoreUpdater.js:155-187 | The selectable list names exactly the combatants of its span, each as often as the turn order does |
| Partition.PreviousListContents | src/StoreUpdater.js:212-224 | The previous list holds the span's combatants, most recent first |
| Partition.PreviousBeforeLastTurn | src/StoreUpdater.js:198-224 | Before the last turn the previous list runs from the current combatant back to the first |
| Partition.PreviousOnLastTurn | src/StoreUpdater.js:200-224 | On the last turn the previous list is empty when the last actor may select themselves, otherwise just the current combatant |
| Partition.PreviousIdsOfSpan | src/StoreUpdater.js:198-224 | The previous list names exactly the combatants of its span |
| Partition.ListsCoverTurnOrder | src/StoreUpdater.js:149-224 | The two lists together name every combatant of the turn order exactly as often as the turn order does |
| Partition.TokenPickScansForward | src/StoreUpdater.js:134-144 | The pick is the first combatant at or after the start index backed by the token; the start is 0 on the last turn and the current turn otherwise. No earlier index is visited |
| Partition.PickedIsSelectableOrCurrent | src/StoreUpdater.js:134-166 | A picked combatant is selectable or is the current combatant itself |
| SelectionSession.SelectionWindow.constructor | src/ModuleAPI.js:84 | A new window is rendered once and open |
| SelectionSession.SelectionWindow.Render | src/ModuleAPI.js:80 | Rendering counts one more render |
| SelectionSession.SelectionWindow.Close | src/ModuleAPI.js:55 | Closing leaves the window closed |
| SelectionSession.ModuleAPI.constructor | src/ModuleAPI.js:20-22 | A new API object holds no window |
| SelectionSession.ModuleAPI.CloseSelectionWindow | src/ModuleAPI.js:53-60 | Whatever the state before: any open window is closed and forgotten, the picker is stopped, the hover flag is cleared, and the selection is "-1" |
| SelectionSession.ModuleAPI.UpdateCombatantsData | src/ModuleAPI.js:89-102 | With no window nothing changes. With a window both lists are rebuilt, and the window is closed exactly when the gate now says close; that includes the last two turns, with no turn passed |
| SelectionSession.ModuleAPI.ShowSelectionWindowOrPassTurn | src/ModuleAPI.js:62-87 | On the last two turns the turn passes, with no notice and no other change. On another refusal that reason's notice is given and nothing changes. Otherwise an open window is rendered again, not replaced, or a fresh one is opened; the lists are rebuilt and the window stays open |
| SelectionSession.ModuleAPI.OnHoverToken | src/ModuleAPI.js:104-113 | Highlights change as `highlightCombatantItem` says only while a window is open and not hovered; otherwise the stores are unchanged |
| SelectionSession.ModuleAPI.ExecutePassTurnTo | src/ModuleAPI.js:41-51 | The request names the chosen combatant and the current combat. On success the session is closed; on failure the cause is reported and nothing changes |

## Left out

- The 100 ms `setTimeout` and the promise in `updateCombatants` are not modelled. `UpdateCombatants` rebuilds both lists synchronously. The lists are therefore never seen half-built, and no other event can interleave with the rebuild.
- `ExecutePassTurnTo` does not model the socket (`moduleSocket.executeAsGM`). The GM's reply is an input, `RelayOutcome`. The source has no guard against a second request or a late reply, and neither does the model.
- The svelte stores are plain fields. Subscriptions and re-rendering on change are not modelled.
- Hook, DOM click listener and `ModuleAPI.instance` registration are not modelled. The `createCombatant` and `deleteCombatant` hooks pass a combatant where `_updateCombatantsData` expects a combat. The model only takes a combat. In the source that combatant has no `turn`, so both lists are set to empty (src/StoreUpdater.js:153, 196). It has no `current`, so the gate answers `EndTurnNoCombat` and the window closes (src/ModuleAPI.js:95-98).
- `_onRenderCombatTracker` is not modelled: it is UI wiring that rewrites the end-turn button.
- Notification output and localization are not modelled (`warning`, `error`, `locSystem` and the rest). Only the message key chosen for each reason is kept (`NotifyKey`).
- `updateSettings` and the toolbox commands `panToCombatantToken` and `showConfig` are not modelled; they are calls into the settings UI and the canvas. `getCombatById` is not modelled either.
- `canSelectWhenRoundIsOver` has no behaviour: it is imported but never read by the list builders.
- src/ModuleStore.js is not part of this model. `Stores.ModuleStore.constructor` assumes that the stores start with no target token, the picker stopped, no hover, selection "-1" and both lists empty.
- The selection window's own rendering (`SelectionWindowApplication`) is not modelled. Only its render count and whether it is closed are kept.
- StoreUpdater.UpdateSelectableCombatants requires `AllResolvable` over the whole turn order. The source reads only the actors and users of the scanned span (src/StoreUpdater.js:166-187). So the model excludes a missing user behind a combatant outside the span, although the source would not throw there.
- CandidateOrder.SortCandidates: the model proves a permutation that is sorted, not that equal entries keep their scan order, although the insertion sort does keep it.
- CandidateOrder.NameLess compares `char`s. JavaScript compares UTF-16 code units. The two agree when each character is one code unit.
- ModuleUtils.ShouldCloseSelectionWindow requires `GateEvaluable`. Where the source throws because it reads `turns[null]`, the model has no value.
- StoreUpdater.OnGlobalClick requires a current turn, or fewer than two combatants. The source throws on `turns[null].tokenId` otherwise.
- StoreUpdater.OnGlobalClick and SelectionSession.ModuleAPI.ExecutePassTurnTo take a `Combat`, never an absent one. The source reads `game.combat.turn` (src/StoreUpdater.js:132-134) and `game.combat.id` (src/ModuleAPI.js:43-44) and throws when there is no combat. That can happen when a combat is deleted while the picker runs, because no hook closes the window on combat deletion (src/ModuleAPI.js:23-26). The model does not capture that throw.
- SelectionSession.ModuleAPI.ShowSelectionWindowOrPassTurn assumes a held window is closed only through `closeSelectionWindow` (the invariant `ModuleAPI.Valid`). The source clears `this.selectionWindow` only at src/ModuleAPI.js:56. A window closed by its own close control, which is part of `SelectionWindowApplication` and not modelled, would stay referenced and be re-rendered with a plain `render()` (src/ModuleAPI.js:80). The promise that the window is open afterwards covers only windows closed through the API.
