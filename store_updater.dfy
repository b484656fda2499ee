/**
 * The list builders behind the selection window (selectable and previous
 * combatants), the token picker's click handler, hover highlighting and the
 * toolbox actions. Each writes the stores of a `ModuleStore`.
 */
module StoreUpdater {
  import opened Domain
  import opened Arrays
  import opened ModuleUtils
  import opened Stores
  import opened CandidateOrder

  /** Every combatant's actor resolves, and so do the users its ownership names. */
  predicate AllResolvable(turns: seq<Combatant>, actors: map<Id, Actor>, users: map<Id, User>)
  {
    forall i :: 0 <= i < |turns| ==>
      turns[i].actorId in actors && OwnersResolvable(actors[turns[i].actorId].ownership, users)
  }

  /** The indices `lo, lo + 1, ..., hi - 1` a `for (i = lo; i < hi; i++)` loop visits; none if `lo >= hi`. */
  datatype Span = Span(lo: nat, hi: nat)

  predicate Contains(sp: Span, i: nat)
  {
    sp.lo <= i < sp.hi
  }

  /**
   * The indices `_updateSelectableCombatants` scans: those after the current
   * turn; on the last turn, every index from 0, the last one only if
   * `canLastActorSelectThemselves`.
   */
  function SelectableSpan(n: nat, turn: nat, canLast: bool): (sp: Span)
    ensures sp.hi <= n
  {
    if turn + 1 == n then Span(0, if canLast then n else n - 1)
    else Span(turn + 1, n)
  }

  /**
   * The indices `_updatePreviousCombatants` visits: from 0 up to the current
   * turn; on the last turn, none if `canLastActorSelectThemselves`, else only
   * the current one.
   */
  function PreviousSpan(n: nat, turn: nat, canLast: bool): (sp: Span)
    ensures sp.lo <= sp.hi <= n
  {
    var startIndex := if turn + 1 == n then (if canLast then n else turn) else 0;
    Span(startIndex, if turn < n then turn + 1 else n)
  }

  /** The selectable entry built for a combatant. */
  function SelectableItemOf(c: Combatant, selectedId: Id, actors: map<Id, Actor>, users: map<Id, User>): (item: SelectableItem)
    requires c.actorId in actors && OwnersResolvable(actors[c.actorId].ownership, users)
  {
    SelectableItem(c.img, c.name, c.id, selectedId == c.id, c.tokenId, c.actorId, false,
                   OwnerColors(actors[c.actorId].ownership, users))
  }

  /** The previous entry built for a combatant. */
  function PreviousItemOf(c: Combatant): (item: PreviousItem)
  {
    PreviousItem(c.img, c.name, c.id, c.tokenId, false)
  }

  /** The entries pushed by the selectable loop over `[lo, hi)`, in scan order. */
  function ScanSelectable(turns: seq<Combatant>, lo: nat, hi: nat, selectedId: Id,
                          actors: map<Id, Actor>, users: map<Id, User>): (items: seq<SelectableItem>)
    requires hi <= lo || hi <= |turns|
    requires AllResolvable(turns, actors, users)
    decreases hi
  {
    if hi <= lo then []
    else ScanSelectable(turns, lo, hi - 1, selectedId, actors, users)
         + [SelectableItemOf(turns[hi - 1], selectedId, actors, users)]
  }

  /** The entries pushed by the previous loop over `[lo, hi)`, in scan order. */
  function ScanPrevious(turns: seq<Combatant>, lo: nat, hi: nat): (items: seq<PreviousItem>)
    requires hi <= lo || hi <= |turns|
    decreases hi
  {
    if hi <= lo then []
    else ScanPrevious(turns, lo, hi - 1) + [PreviousItemOf(turns[hi - 1])]
  }

  /** What `selectableCombatants` holds after `_updateSelectableCombatants(combat)`. */
  function SelectableList(combat: Combat, selectedId: Id, canLast: bool,
                          actors: map<Id, Actor>, users: map<Id, User>): (list: seq<SelectableItem>)
    requires AllResolvable(combat.turns, actors, users)
  {
    match combat.turn
    case None => []
    case Some(t) =>
      var sp := SelectableSpan(|combat.turns|, t, canLast);
      SortCandidates(ScanSelectable(combat.turns, sp.lo, sp.hi, selectedId, actors, users), actors)
  }

  /** What `previousCombatants` holds after `_updatePreviousCombatants(combat)`. */
  function PreviousList(combat: Combat, canLast: bool): (list: seq<PreviousItem>)
  {
    match combat.turn
    case None => []
    case Some(t) =>
      var sp := PreviousSpan(|combat.turns|, t, canLast);
      Reverse(ScanPrevious(combat.turns, sp.lo, sp.hi))
  }

  /**
   * `_updateSelectableCombatants`: push an entry for every scanned combatant,
   * sort the list, and store it.
   */
  method UpdateSelectableCombatants(store: ModuleStore, combat: Combat,
                                    actors: map<Id, Actor>, users: map<Id, User>)
    requires AllResolvable(combat.turns, actors, users)
    modifies store`selectableCombatants
    ensures store.selectableCombatants ==
              SelectableList(combat, store.selectedCombatantId, store.canLastActorSelectThemselves, actors, users)
  {
    var list: seq<SelectableItem> := [];
    if combat.turn.Some? {
      var turn: int := combat.turn.value;
      var lastIndex := |combat.turns|;
      // On the last combatant every combatant is shown, starting from turn 0.
      if turn + 1 == |combat.turns| {
        turn := -1;
        if !store.canLastActorSelectThemselves {
          lastIndex := lastIndex - 1;
        }
      }
      var i := turn + 1;
      while i < lastIndex
        invariant turn + 1 <= i
        invariant i <= lastIndex || i == turn + 1
        invariant list == ScanSelectable(combat.turns, turn + 1, i, store.selectedCombatantId, actors, users)
      {
        var combatant := combat.turns[i];
        var isSelected := store.selectedCombatantId == combatant.id;
        var owners := RetrieveOwnersInfo(combatant.actorId, actors, users);
        list := list + [SelectableItem(combatant.img, combatant.name, combatant.id, isSelected,
                                       combatant.tokenId, combatant.actorId, false, owners)];
        i := i + 1;
      }
      list := SortCandidates(list, actors);
    }
    store.selectableCombatants := list;
  }

  /**
   * `_updatePreviousCombatants`: push an entry for every combatant that has
   * acted, then store the list reversed.
   */
  method UpdatePreviousCombatants(store: ModuleStore, combat: Combat)
    modifies store`previousCombatants
    ensures store.previousCombatants == PreviousList(combat, store.canLastActorSelectThemselves)
  {
    var list: seq<PreviousItem> := [];
    if combat.turn.Some? {
      var turn := combat.turn.value;
      var startIndex := 0;
      var endIndex := |combat.turns|;
      if turn + 1 == endIndex {
        if store.canLastActorSelectThemselves {
          startIndex := endIndex;
        } else {
          startIndex := turn;
        }
      }
      ghost var sp := PreviousSpan(|combat.turns|, turn, store.canLastActorSelectThemselves);
      var i := startIndex;
      while i <= turn && i < endIndex
        invariant sp.lo == startIndex <= i <= sp.hi
        invariant list == ScanPrevious(combat.turns, startIndex, i)
      {
        var combatant := combat.turns[i];
        list := list + [PreviousItem(combatant.img, combatant.name, combatant.id, combatant.tokenId, false)];
        i := i + 1;
      }
    }
    store.previousCombatants := Reverse(list);
  }

  /** `updateCombatants`: the selectable list, then the previous list (the 100 ms delay is not modelled). */
  method UpdateCombatants(store: ModuleStore, combat: Combat, actors: map<Id, Actor>, users: map<Id, User>)
    requires AllResolvable(combat.turns, actors, users)
    modifies store`selectableCombatants, store`previousCombatants
    ensures store.selectableCombatants ==
              SelectableList(combat, store.selectedCombatantId, store.canLastActorSelectThemselves, actors, users)
    ensures store.previousCombatants == PreviousList(combat, store.canLastActorSelectThemselves)
  {
    UpdateSelectableCombatants(store, combat, actors, users);
    UpdatePreviousCombatants(store, combat);
  }

  /** Where the token picker starts scanning: 0 on the last turn, else the current turn itself. */
  function PickStart(combat: Combat): (start: nat)
  {
    if JsNumber(combat.turn) + 1 == |combat.turns| then 0 else JsNumber(combat.turn)
  }

  /** The index of the combatant a click on token `tokenId` picks, if any. */
  function PickedIndex(combat: Combat, tokenId: Id): (i: Option<nat>)
  {
    FirstIndex(combat.turns, (c: Combatant) => c.tokenId == Some(tokenId), PickStart(combat))
  }

  /**
   * `onGlobalClick`: while the picker runs and a token is targeted, select
   * the first combatant from the start index on that the token backs.
   * The source reads `turns[null]` if the turn is null and two or more
   * combatants exist, hence the precondition.
   */
  method OnGlobalClick(store: ModuleStore, combat: Combat)
    requires combat.turn.Some? || |combat.turns| < 2
    modifies store`selectedCombatantId, store`isTokenPickerRunning
    ensures if old(store.isTokenPickerRunning) && store.currentTokenPickerTarget.Some?
               && PickedIndex(combat, store.currentTokenPickerTarget.value.id).Some?
            then store.selectedCombatantId ==
                   combat.turns[PickedIndex(combat, store.currentTokenPickerTarget.value.id).value].id
                 && !store.isTokenPickerRunning
            else store.selectedCombatantId == old(store.selectedCombatantId)
                 && store.isTokenPickerRunning == old(store.isTokenPickerRunning)
  {
    if store.isTokenPickerRunning {
      var currentToken := store.currentTokenPickerTarget;
      if currentToken.Some? {
        var tokenId := currentToken.value.id;
        var turn := if JsNumber(combat.turn) + 1 == |combat.turns| then 0 else JsNumber(combat.turn);
        var i := turn;
        while i < |combat.turns|
          invariant turn <= i
          invariant i <= |combat.turns| || i == turn
          invariant forall j :: turn <= j < i ==> combat.turns[j].tokenId != Some(tokenId)
        {
          var combatant := combat.turns[i];
          if combatant.tokenId == Some(tokenId) {
            store.selectedCombatantId := combatant.id;
            store.isTokenPickerRunning := false;
            break;
          }
          i := i + 1;
        }
      }
    }
  }

  /**
   * `highlightCombatantItem`: in both lists, an entry is highlighted exactly
   * when the hovered token backs it and the pointer is over the token.
   */
  method HighlightCombatantItem(store: ModuleStore, token: Token, isHover: bool)
    modifies store`selectableCombatants, store`previousCombatants
    ensures |store.selectableCombatants| == |old(store.selectableCombatants)|
    ensures forall k :: 0 <= k < |store.selectableCombatants| ==>
              store.selectableCombatants[k] == old(store.selectableCombatants[k]).(
                isHighlighted := old(store.selectableCombatants[k]).tokenId == Some(token.id) && isHover)
    ensures |store.previousCombatants| == |old(store.previousCombatants)|
    ensures forall k :: 0 <= k < |store.previousCombatants| ==>
              store.previousCombatants[k] == old(store.previousCombatants[k]).(
                isHighlighted := old(store.previousCombatants[k]).tokenId == Some(token.id) && isHover)
  {
    var tokenId := token.id;
    var selectable := store.selectableCombatants;
    var i := 0;
    while i < |selectable|
      invariant 0 <= i <= |selectable| == |old(store.selectableCombatants)|
      invariant forall k :: 0 <= k < |selectable| ==>
                  selectable[k] == if k < i then old(store.selectableCombatants[k]).(
                    isHighlighted := old(store.selectableCombatants[k]).tokenId == Some(tokenId) && isHover)
                  else old(store.selectableCombatants[k])
    {
      var x := selectable[i];
      selectable := selectable[i := x.(isHighlighted := if x.tokenId == Some(tokenId) then isHover else false)];
      i := i + 1;
    }
    store.selectableCombatants := selectable;

    var previous := store.previousCombatants;
    i := 0;
    while i < |previous|
      invariant 0 <= i <= |previous| == |old(store.previousCombatants)|
      invariant forall k :: 0 <= k < |previous| ==>
                  previous[k] == if k < i then old(store.previousCombatants[k]).(
                    isHighlighted := old(store.previousCombatants[k]).tokenId == Some(tokenId) && isHover)
                  else old(store.previousCombatants[k])
    {
      var x := previous[i];
      previous := previous[i := x.(isHighlighted := if x.tokenId == Some(tokenId) then isHover else false)];
      i := i + 1;
    }
    store.previousCombatants := previous;
  }

  /** The buttons of the selection window's toolbox. */
  datatype ToolboxAction = SelectFromToken | ZoomToCombatant(combatantId: Id) | OpenConfiguration

  function Icon(action: ToolboxAction): (icon: string)
  {
    match action
    case SelectFromToken => "fa-solid fa-eye-dropper"
    case ZoomToCombatant(_) => "fa-solid fa-bullseye"
    case OpenConfiguration => "fa-solid fa-gear"
  }

  function Tooltip(action: ToolboxAction): (tooltip: string)
  {
    match action
    case SelectFromToken => "tools.select-from-token.tooltip"
    case ZoomToCombatant(_) => "tools.zoom-combatant.tooltip"
    case OpenConfiguration => "tools.configuration.tooltip"
  }

  /**
   * `getToolboxActions`: the picker always, first; zoom to the selected
   * combatant when one is selected; configuration for a GM.
   */
  function GetToolboxActions(combatantId: Id, isGM: bool): (actions: seq<ToolboxAction>)
    ensures |actions| >= 1 && actions[0] == SelectFromToken
    ensures ZoomToCombatant(combatantId) in actions <==> combatantId != NoSelection
    ensures OpenConfiguration in actions <==> isGM
    ensures forall k :: 0 <= k < |actions| ==>
              actions[k] in {SelectFromToken, ZoomToCombatant(combatantId), OpenConfiguration}
    ensures forall j, k :: 0 <= j < k < |actions| ==> actions[j] != actions[k]
    ensures isGM ==> actions[|actions| - 1] == OpenConfiguration
  {
    [SelectFromToken]
      + (if combatantId != NoSelection then [ZoomToCombatant(combatantId)] else [])
      + (if isGM then [OpenConfiguration] else [])
  }

  /** The buttons offered together are told apart by their icons and by their tooltips. */
  lemma ToolboxButtonsDistinct(combatantId: Id, isGM: bool, a: ToolboxAction, b: ToolboxAction)
    requires a in GetToolboxActions(combatantId, isGM) && b in GetToolboxActions(combatantId, isGM)
    requires a != b
    ensures Icon(a) != Icon(b) && Tooltip(a) != Tooltip(b)
  {
  }

  /**
   * The store effect of pressing a toolbox button: the picker button starts
   * the token picker; the other two call into the canvas and the settings
   * dialog and leave the stores alone.
   */
  method RunToolboxAction(store: ModuleStore, action: ToolboxAction)
    modifies store`isTokenPickerRunning
    ensures action == SelectFromToken ==> store.isTokenPickerRunning
    ensures action != SelectFromToken ==> store.isTokenPickerRunning == old(store.isTokenPickerRunning)
  {
    if action == SelectFromToken {
      store.isTokenPickerRunning := true;
    }
  }
}
