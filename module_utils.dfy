/**
 * The reason codes, the gate that decides whether a selection window may be
 * shown, and the small lookups the rest of the module uses.
 */
module ModuleUtils {
  import opened Domain
  import opened Arrays

  /** `ReasonType`; `NoReason` is the source's `ReasonType.None` (-1). */
  datatype ReasonType =
    | NoReason
    | EndTurnNoCombat
    | EndTurnNoCombatantPlaying
    | EndTurnActorIsNotValid
    | EndTurnNotYourTurn
    | EndTurnLastOrSecondLast
    | EndTurnInvalidSelectedCombatant
    | EndTurnInvalidCombatId
    | TryGetTokenInvalidId
    | TryGetTokenInvalidCombatantId

  /** The numeric value each reason has in the source. */
  function Code(reason: ReasonType): (c: int)
    ensures -1 <= c <= 8
    ensures c == -1 <==> reason == NoReason
  {
    match reason
    case NoReason => -1
    case EndTurnNoCombat => 0
    case EndTurnNoCombatantPlaying => 1
    case EndTurnActorIsNotValid => 2
    case EndTurnNotYourTurn => 3
    case EndTurnLastOrSecondLast => 4
    case EndTurnInvalidSelectedCombatant => 5
    case EndTurnInvalidCombatId => 6
    case TryGetTokenInvalidId => 7
    case TryGetTokenInvalidCombatantId => 8
  }

  /** Distinct reasons have distinct numeric values, so a reason is known by its number. */
  lemma CodesDistinct(r1: ReasonType, r2: ReasonType)
    requires r1 != r2
    ensures Code(r1) != Code(r2)
  {
  }

  /**
   * The system-message key `NotificationUtils.notify` warns with, or nothing
   * for `NoReason` (the switch has no case for it).
   */
  function NotifyKey(reason: ReasonType): (key: Option<string>)
    ensures key.None? <==> reason == NoReason
  {
    match reason
    case NoReason => None
    case EndTurnNoCombat => Some("EndTurnNoCombat")
    case EndTurnNoCombatantPlaying => Some("EndTurnNoCombatantPlaying")
    case EndTurnActorIsNotValid => Some("EndTurnActorIsNotValid")
    case EndTurnNotYourTurn => Some("EndTurnNotYourTurn")
    case EndTurnLastOrSecondLast => Some("EndTurnLastOrSecondLast")
    case EndTurnInvalidSelectedCombatant => Some("EndTurnInvalidSelectedCombatant")
    case EndTurnInvalidCombatId => Some("EndTurnInvalidCombatId")
    case TryGetTokenInvalidId => Some("TryGetTokenInvalidId")
    case TryGetTokenInvalidCombatantId => Some("TryGetTokenInvalidCombatantId")
  }

  /** Distinct reasons are announced with distinct message keys. */
  lemma NotifyKeysDistinct(r1: ReasonType, r2: ReasonType)
    requires r1 != r2
    ensures NotifyKey(r1) != NotifyKey(r2)
  {
  }

  /** `combat.turns.find(x => x.id === combatantId)`. */
  function GetCombatantById(combat: Combat, combatantId: Id): (r: Option<Combatant>)
    ensures r.None? <==> forall j :: 0 <= j < |combat.turns| ==> combat.turns[j].id != combatantId
    ensures r.Some? ==> exists i :: 0 <= i < |combat.turns| && combat.turns[i] == r.value
                                    && r.value.id == combatantId
                                    && forall j :: 0 <= j < i ==> combat.turns[j].id != combatantId
  {
    match FirstIndex(combat.turns, (c: Combatant) => c.id == combatantId, 0)
    case None => None
    case Some(i) => Some(combat.turns[i])
  }

  /** `canvas.tokens.objects.children.find(x => x.id === tokenId)`; a null id matches nothing. */
  function FindToken(canvasTokens: seq<Token>, tokenId: Option<Id>): (r: Option<Token>)
    ensures r.Some? ==> r.value in canvasTokens && tokenId == Some(r.value.id)
    ensures r.None? <==> forall j :: 0 <= j < |canvasTokens| ==> tokenId != Some(canvasTokens[j].id)
  {
    match FirstIndex(canvasTokens, (t: Token) => tokenId == Some(t.id), 0)
    case None => None
    case Some(i) => Some(canvasTokens[i])
  }

  /**
   * `tryGetToken`: look the combatant up, then its token on the canvas; the
   * result flag, the token and the reason are set step by step.
   */
  method TryGetToken(combat: Combat, combatantId: Id, canvasTokens: seq<Token>)
    returns (result: bool, token: Option<Token>, reason: ReasonType)
    ensures result <==> reason == NoReason
    ensures reason in {NoReason, TryGetTokenInvalidId, TryGetTokenInvalidCombatantId}
    ensures GetCombatantById(combat, combatantId).None? ==>
              reason == TryGetTokenInvalidCombatantId && token.None?
    ensures GetCombatantById(combat, combatantId).Some? ==>
              token == FindToken(canvasTokens, GetCombatantById(combat, combatantId).value.tokenId)
              && (reason == TryGetTokenInvalidId <==> token.None?)
    ensures token.Some? ==> token.value in canvasTokens
  {
    result := true;
    token := None;
    reason := NoReason;
    var combatant := GetCombatantById(combat, combatantId);
    if combatant.None? {
      reason := TryGetTokenInvalidCombatantId;
      result := false;
    } else {
      token := FindToken(canvasTokens, combatant.value.tokenId);
      if token.None? {
        reason := TryGetTokenInvalidId;
        result := false;
      }
    }
  }

  /**
   * The source reads `game.users.get(key).isGM` for every non-"default" key of
   * level 3, so each such key must name a user.
   */
  predicate OwnersResolvable(ownership: seq<OwnershipEntry>, users: map<Id, User>)
  {
    forall k :: 0 <= k < |ownership| ==>
      (ownership[k].key != "default" && ownership[k].level == 3 ==> ownership[k].key in users)
  }

  /** An entry that contributes a color: a real user, full owner (level 3), not a GM. */
  predicate IsPlayerOwner(e: OwnershipEntry, users: map<Id, User>)
  {
    e.key != "default" && e.level == 3 && e.key in users && !users[e.key].isGM
  }

  /** The colors of the player owners, in key-iteration order. */
  function OwnerColors(ownership: seq<OwnershipEntry>, users: map<Id, User>): (colors: seq<Color>)
    requires OwnersResolvable(ownership, users)
    ensures |colors| <= |ownership|
  {
    if ownership == [] then []
    else
      var e := ownership[|ownership| - 1];
      OwnerColors(ownership[..|ownership| - 1], users)
        + (if IsPlayerOwner(e, users) then [users[e.key].color] else [])
  }

  /**
   * A color is reported exactly when some player owner has it: GM users,
   * the "default" entry and levels other than 3 contribute nothing.
   */
  lemma {:induction false} OwnerColorsExactly(ownership: seq<OwnershipEntry>, users: map<Id, User>, c: Color)
    requires OwnersResolvable(ownership, users)
    ensures c in OwnerColors(ownership, users) <==>
              exists k :: 0 <= k < |ownership| && IsPlayerOwner(ownership[k], users)
                          && users[ownership[k].key].color == c
  {
    if ownership != [] {
      var m := |ownership| - 1;
      var front := ownership[..m];
      assert OwnersResolvable(front, users) by {
        forall k | 0 <= k < |front| ensures front[k] == ownership[k] { }
      }
      OwnerColorsExactly(front, users, c);
      if c in OwnerColors(front, users) {
        var k :| 0 <= k < |front| && IsPlayerOwner(front[k], users) && users[front[k].key].color == c;
        assert ownership[k] == front[k];
      }
      if exists k :: 0 <= k < |ownership| && IsPlayerOwner(ownership[k], users)
                     && users[ownership[k].key].color == c {
        var k :| 0 <= k < |ownership| && IsPlayerOwner(ownership[k], users)
                 && users[ownership[k].key].color == c;
        if k < m {
          assert front[k] == ownership[k];
        }
      }
    }
  }

  /**
   * `retrieveOwnersInfo`: walk the actor's ownership entries and push the
   * color of each player owner.
   */
  method RetrieveOwnersInfo(actorId: Id, actors: map<Id, Actor>, users: map<Id, User>)
    returns (owners: seq<Color>)
    requires actorId in actors
    requires OwnersResolvable(actors[actorId].ownership, users)
    ensures owners == OwnerColors(actors[actorId].ownership, users)
  {
    owners := [];
    var ownership := actors[actorId].ownership;
    var i := 0;
    while i < |ownership|
      invariant 0 <= i <= |ownership|
      invariant OwnersResolvable(ownership[..i], users)
      invariant owners == OwnerColors(ownership[..i], users)
    {
      var e := ownership[i];
      if e.key != "default" {
        var level := e.level;
        if level == 3 && !users[e.key].isGM {
          owners := owners + [users[e.key].color];
        }
      }
      assert ownership[..i + 1][..i] == ownership[..i];
      i := i + 1;
    }
    assert ownership[..i] == ownership;
  }

  /** The result of `shouldCloseSelectionWindow`. */
  datatype CloseDecision = CloseDecision(shouldClose: bool, reason: ReasonType)

  /**
   * Rules out the one input on which the gate's actor lookup throws in the
   * source: a current combatant id with a null `combat.turn` over a non-empty turn
   * order, where `turns.length > null` holds and `turns[null]` is undefined.
   */
  predicate GateEvaluable(combat: Option<Combat>)
  {
    (combat.Some? && combat.value.current.Some? && combat.value.current.value.combatantId.Some?)
    ==> combat.value.turn.Some? || |combat.value.turns| == 0
  }

  /** The actor id the gate looks up: the current turn's, or the placeholder "0" out of range. */
  function CurrentActorId(combat: Combat): (actorId: Id)
    requires combat.turn.Some? || |combat.turns| == 0
    ensures combat.turn.Some? && combat.turn.value < |combat.turns| ==>
              actorId == combat.turns[combat.turn.value].actorId
    ensures combat.turn.None? || combat.turn.value >= |combat.turns| ==> actorId == "0"
  {
    if combat.turn.Some? && |combat.turns| > combat.turn.value then combat.turns[combat.turn.value].actorId
    else "0"
  }

  /** The gate reasons: the ones `shouldCloseSelectionWindow` can return. */
  predicate IsGateReason(reason: ReasonType)
  {
    reason in {NoReason, EndTurnNoCombat, EndTurnNoCombatantPlaying, EndTurnActorIsNotValid,
               EndTurnNotYourTurn, EndTurnLastOrSecondLast}
  }

  /**
   * `shouldCloseSelectionWindow`: a first-match-wins chain of checks on the
   * combat, the current combatant, its actor and the position in the round.
   */
  function ShouldCloseSelectionWindow(combat: Option<Combat>, actors: map<Id, Actor>): (d: CloseDecision)
    requires GateEvaluable(combat)
    ensures d.shouldClose <==> d.reason != NoReason
    ensures IsGateReason(d.reason)
  {
    var reason :=
      if combat.None? || combat.value.current.None? then EndTurnNoCombat
      else if combat.value.current.value.combatantId.None? then EndTurnNoCombatantPlaying
      else
        var c := combat.value;
        var actorId := CurrentActorId(c);
        if actorId !in actors then EndTurnActorIsNotValid
        else if !actors[actorId].isOwner then EndTurnNotYourTurn
        else if JsNumber(c.current.value.turn) + 1 >= |c.turns| || JsNumber(c.current.value.turn) + 2 >= |c.turns|
        then EndTurnLastOrSecondLast
        else NoReason;
    CloseDecision(reason != NoReason, reason)
  }

  /** The "last or second last" test is the test `t >= n - 2`. */
  lemma LastOrSecondLastMeansLastTwo(t: nat, n: nat)
    ensures (t + 1 >= n || t + 2 >= n) <==> t >= n - 2
  {
  }

  /**
   * Each reason, stated by what the inputs must be for it to win: every
   * earlier check passes and its own check fails. Reading the clauses top
   * to bottom gives the order of the checks.
   */
  lemma GateReasonExactly(combat: Option<Combat>, actors: map<Id, Actor>)
    requires GateEvaluable(combat)
    ensures var r := ShouldCloseSelectionWindow(combat, actors).reason;
      && (r == EndTurnNoCombat <==> combat.None? || combat.value.current.None?)
      && (r == EndTurnNoCombatantPlaying <==>
            combat.Some? && combat.value.current.Some? && combat.value.current.value.combatantId.None?)
      && (r == EndTurnActorIsNotValid <==>
            combat.Some? && combat.value.current.Some? && combat.value.current.value.combatantId.Some?
            && CurrentActorId(combat.value) !in actors)
      && (r == EndTurnNotYourTurn <==>
            combat.Some? && combat.value.current.Some? && combat.value.current.value.combatantId.Some?
            && CurrentActorId(combat.value) in actors && !actors[CurrentActorId(combat.value)].isOwner)
      && (r == EndTurnLastOrSecondLast <==>
            combat.Some? && combat.value.current.Some? && combat.value.current.value.combatantId.Some?
            && CurrentActorId(combat.value) in actors && actors[CurrentActorId(combat.value)].isOwner
            && JsNumber(combat.value.current.value.turn) >= |combat.value.turns| - 2)
      && (r == NoReason <==>
            combat.Some? && combat.value.current.Some? && combat.value.current.value.combatantId.Some?
            && CurrentActorId(combat.value) in actors && actors[CurrentActorId(combat.value)].isOwner
            && JsNumber(combat.value.current.value.turn) < |combat.value.turns| - 2)
  {
  }

  /**
   * Away from the last two turns, a playing combatant whose actor the user
   * owns always gets a selection window.
   */
  lemma GateAllowsBeforeLastTwo(c: Combat, actors: map<Id, Actor>, t: nat)
    requires c.current.Some? && c.current.value.combatantId.Some?
    requires c.turn == Some(t) && c.current.value.turn == Some(t)
    requires t < |c.turns| - 2
    requires c.turns[t].actorId in actors && actors[c.turns[t].actorId].isOwner
    ensures ShouldCloseSelectionWindow(Some(c), actors) == CloseDecision(false, NoReason)
  {
  }

  /** Past the end of the turn order the gate looks up the placeholder actor "0". */
  lemma GateUsesPlaceholderPastEnd(c: Combat, actors: map<Id, Actor>)
    requires c.current.Some? && c.current.value.combatantId.Some?
    requires c.turn.Some? && c.turn.value >= |c.turns| && c.current.value.turn == c.turn
    ensures ShouldCloseSelectionWindow(Some(c), actors).reason ==
              if "0" !in actors then EndTurnActorIsNotValid
              else if !actors["0"].isOwner then EndTurnNotYourTurn
              else EndTurnLastOrSecondLast
  {
  }
}
