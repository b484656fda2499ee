/**
 * The module's API object: it owns the selection window, opens it or
 * passes the turn when the player ends a turn, refreshes the lists while
 * the window is open, closes it, and relays token hovers to the lists.
 */
module SelectionSession {
  import opened Domain
  import opened ModuleUtils
  import opened Stores
  import opened StoreUpdater

  /**
   * The selection window application. Only what the API does to it is
   * kept: how often it has been rendered and whether it has been closed.
   */
  class SelectionWindow {
    var renderCount: nat
    var closed: bool

    /** `new SelectionWindowApplication().render(true, ...)`: a window rendered once. */
    constructor ()
      ensures renderCount == 1 && !closed
    {
      renderCount := 1;
      closed := false;
    }

    method Render()
      modifies this`renderCount
      ensures renderCount == old(renderCount) + 1
    {
      renderCount := renderCount + 1;
    }

    method Close()
      modifies this`closed
      ensures closed
    {
      closed := true;
    }
  }

  /** How the request relayed to the GM ended: resolved, or rejected with a cause. */
  datatype RelayOutcome = RelaySuccess | RelayFailure(cause: string)

  /** The `passTurnTo` request sent to the GM: the chosen combatant and the combat. */
  datatype PassTurnRequest = PassTurnRequest(combatantId: Id, combatId: Id)

  class ModuleAPI {
    var selectionWindow: SelectionWindow?
    const store: ModuleStore

    /** The window the API holds, if any, is one that has not been closed. */
    predicate Valid()
      reads this, selectionWindow
    {
      selectionWindow != null ==> !selectionWindow.closed
    }

    /** A new API object has no window open (hook registration is not modelled). */
    constructor (store: ModuleStore)
      ensures Valid()
      ensures selectionWindow == null && this.store == store
    {
      selectionWindow := null;
      this.store := store;
    }

    /**
     * `closeSelectionWindow`: close the open window, if any, forget it, stop
     * the token picker, clear the hover flag and the selection.
     */
    method CloseSelectionWindow()
      modifies this`selectionWindow, selectionWindow
      modifies store`isTokenPickerRunning, store`isSelectionWindowHovered, store`selectedCombatantId
      ensures Valid()
      ensures selectionWindow == null
      ensures old(selectionWindow) != null ==> old(selectionWindow).closed
      ensures !store.isTokenPickerRunning && !store.isSelectionWindowHovered
      ensures store.selectedCombatantId == NoSelection
    {
      if selectionWindow != null {
        selectionWindow.Close();
      }
      selectionWindow := null;
      store.isTokenPickerRunning := false;
      store.isSelectionWindowHovered := false;
      store.selectedCombatantId := NoSelection;
    }

    /**
     * `_updateCombatantsData`: with a window open, rebuild both lists, then
     * ask the gate again and close the window if it now says so. With no
     * window open nothing happens.
     */
    method UpdateCombatantsData(combat: Combat, actors: map<Id, Actor>, users: map<Id, User>)
      requires selectionWindow != null ==> AllResolvable(combat.turns, actors, users)
      requires selectionWindow != null ==> GateEvaluable(Some(combat))
      requires Valid()
      modifies this`selectionWindow, selectionWindow
      modifies store`selectableCombatants, store`previousCombatants
      modifies store`isTokenPickerRunning, store`isSelectionWindowHovered, store`selectedCombatantId
      ensures Valid()
      ensures old(selectionWindow) == null ==>
                selectionWindow == null && unchanged(store)
      ensures old(selectionWindow) != null ==>
                var canLast := store.canLastActorSelectThemselves;
                && store.selectableCombatants
                     == SelectableList(combat, old(store.selectedCombatantId), canLast, actors, users)
                && store.previousCombatants == PreviousList(combat, canLast)
                && if ShouldCloseSelectionWindow(Some(combat), actors).shouldClose then
                     && selectionWindow == null && old(selectionWindow).closed
                     && !store.isTokenPickerRunning && !store.isSelectionWindowHovered
                     && store.selectedCombatantId == NoSelection
                   else
                     && selectionWindow == old(selectionWindow) && unchanged(selectionWindow)
                     && store.isTokenPickerRunning == old(store.isTokenPickerRunning)
                     && store.isSelectionWindowHovered == old(store.isSelectionWindowHovered)
                     && store.selectedCombatantId == old(store.selectedCombatantId)
    {
      if selectionWindow != null {
        UpdateCombatants(store, combat, actors, users);
        var decision := ShouldCloseSelectionWindow(Some(combat), actors);
        if decision.shouldClose {
          CloseSelectionWindow();
        }
      }
    }

    /**
     * `showSelectionWindowOrPassTurn`, run when the current player ends
     * their turn. On the last or second-to-last turn the turn passes on
     * (`passTurn`) and nothing else happens; when the gate refuses for any
     * other reason the player gets that reason's notice and nothing else
     * happens; otherwise the open window is rendered again, or a new one
     * is opened, and the lists are rebuilt.
     */
    method ShowSelectionWindowOrPassTurn(combat: Option<Combat>, actors: map<Id, Actor>, users: map<Id, User>)
      returns (passTurn: bool, notice: Option<string>)
      requires GateEvaluable(combat)
      requires combat.Some? && !ShouldCloseSelectionWindow(combat, actors).shouldClose ==>
                 AllResolvable(combat.value.turns, actors, users)
      requires Valid()
      modifies this`selectionWindow, selectionWindow
      modifies store`selectableCombatants, store`previousCombatants
      modifies store`isTokenPickerRunning, store`isSelectionWindowHovered, store`selectedCombatantId
      ensures Valid()
      ensures var d := ShouldCloseSelectionWindow(combat, actors);
              && (passTurn <==> d.reason == EndTurnLastOrSecondLast)
              && notice == (if passTurn then None else NotifyKey(d.reason))
              && (d.shouldClose ==>
                    && selectionWindow == old(selectionWindow)
                    && (selectionWindow != null ==> unchanged(selectionWindow))
                    && unchanged(store))
              && (!d.shouldClose ==>
                    && selectionWindow != null && !selectionWindow.closed
                    && (if old(selectionWindow) == null then fresh(selectionWindow) && selectionWindow.renderCount == 1
                        else selectionWindow == old(selectionWindow)
                             && selectionWindow.renderCount == old(selectionWindow.renderCount) + 1)
                    && store.selectableCombatants
                         == SelectableList(combat.value, old(store.selectedCombatantId),
                                           store.canLastActorSelectThemselves, actors, users)
                    && store.previousCombatants == PreviousList(combat.value, store.canLastActorSelectThemselves)
                    && store.selectedCombatantId == old(store.selectedCombatantId)
                    && store.isTokenPickerRunning == old(store.isTokenPickerRunning)
                    && store.isSelectionWindowHovered == old(store.isSelectionWindowHovered))
    {
      var decision := ShouldCloseSelectionWindow(combat, actors);
      if decision.reason == EndTurnLastOrSecondLast {
        return true, None;
      }
      if decision.shouldClose {
        return false, NotifyKey(decision.reason);
      }
      if selectionWindow != null {
        selectionWindow.Render();
      } else {
        selectionWindow := new SelectionWindow();
      }
      UpdateCombatantsData(combat.value, actors, users);
      passTurn, notice := false, None;
    }

    /**
     * `_onHoverToken`: while a window is open and the pointer is not over
     * it, highlight in both lists the entries the hovered token backs.
     */
    method OnHoverToken(token: Token, isHover: bool)
      modifies store`selectableCombatants, store`previousCombatants
      ensures if selectionWindow != null && !store.isSelectionWindowHovered then
                && |store.selectableCombatants| == |old(store.selectableCombatants)|
                && (forall k :: 0 <= k < |store.selectableCombatants| ==>
                      store.selectableCombatants[k] == old(store.selectableCombatants[k]).(
                        isHighlighted := old(store.selectableCombatants[k]).tokenId == Some(token.id) && isHover))
                && |store.previousCombatants| == |old(store.previousCombatants)|
                && (forall k :: 0 <= k < |store.previousCombatants| ==>
                      store.previousCombatants[k] == old(store.previousCombatants[k]).(
                        isHighlighted := old(store.previousCombatants[k]).tokenId == Some(token.id) && isHover))
              else unchanged(store)
    {
      if selectionWindow != null {
        if !store.isSelectionWindowHovered {
          HighlightCombatantItem(store, token, isHover);
        }
      }
    }

    /**
     * `executePassTurnTo`: ask the GM to pass the turn to `combatantId` in
     * the current combat. The reply is a parameter: on success the window
     * is closed, on failure the cause is reported and nothing changes.
     */
    method ExecutePassTurnTo(combat: Combat, combatantId: Id, outcome: RelayOutcome)
      returns (request: PassTurnRequest, error: Option<string>)
      requires Valid()
      modifies this`selectionWindow, selectionWindow
      modifies store`isTokenPickerRunning, store`isSelectionWindowHovered, store`selectedCombatantId
      ensures Valid()
      ensures request == PassTurnRequest(combatantId, combat.id)
      ensures outcome.RelaySuccess? ==>
                && error.None? && selectionWindow == null
                && (old(selectionWindow) != null ==> old(selectionWindow).closed)
                && !store.isTokenPickerRunning && !store.isSelectionWindowHovered
                && store.selectedCombatantId == NoSelection
      ensures outcome.RelayFailure? ==>
                && error == Some(outcome.cause)
                && selectionWindow == old(selectionWindow)
                && (selectionWindow != null ==> unchanged(selectionWindow))
                && unchanged(store)
    {
      request := PassTurnRequest(combatantId, combat.id);
      match outcome
      case RelaySuccess =>
        CloseSelectionWindow();
        error := None;
      case RelayFailure(cause) =>
        error := Some(cause);
    }
  }
}
