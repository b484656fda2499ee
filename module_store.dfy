/**
 * The module's shared stores, held as plain fields of one object, and the
 * shapes of the list items the selection window displays.
 */
module Stores {
  import opened Domain

  /** An entry of `selectableCombatants`. */
  datatype SelectableItem = SelectableItem(
    icon: string,
    name: string,
    id: Id,
    isSelected: bool,
    tokenId: Option<Id>,
    actorId: Id,
    isHighlighted: bool,
    owners: seq<Color>)

  /**
   * An entry of `previousCombatants`. The source's object has no
   * `isHighlighted` until the first highlight sets it; unset reads as false.
   */
  datatype PreviousItem = PreviousItem(
    icon: string,
    name: string,
    id: Id,
    tokenId: Option<Id>,
    isHighlighted: bool)

  /** The value `selectedCombatantId` holds when nothing is selected. */
  const NoSelection: Id := "-1"

  /**
   * The stores read and written by the selection logic. The setting
   * `canLastActorSelectThemselves` is only read here; `canSelectWhenRoundIsOver`
   * is imported by the list builders but never read, so it is not a field.
   */
  class ModuleStore {
    var canLastActorSelectThemselves: bool
    var currentTokenPickerTarget: Option<Token>
    var isTokenPickerRunning: bool
    var isSelectionWindowHovered: bool
    var selectedCombatantId: Id
    var selectableCombatants: seq<SelectableItem>
    var previousCombatants: seq<PreviousItem>

    /** Stores as they stand before any window has been shown. */
    constructor (canLastActorSelectThemselves: bool)
      ensures this.canLastActorSelectThemselves == canLastActorSelectThemselves
      ensures currentTokenPickerTarget.None? && !isTokenPickerRunning && !isSelectionWindowHovered
      ensures selectedCombatantId == NoSelection
      ensures selectableCombatants == [] && previousCombatants == []
    {
      this.canLastActorSelectThemselves := canLastActorSelectThemselves;
      currentTokenPickerTarget := None;
      isTokenPickerRunning := false;
      isSelectionWindowHovered := false;
      selectedCombatantId := NoSelection;
      selectableCombatants := [];
      previousCombatants := [];
    }
  }
}
