/**
 * The host's data as the popcorn-initiative module sees it: the combat and its
 * turn order, actors with their ownership table, users and canvas tokens.
 * The host itself (the `game` object) is replaced by these values, passed in.
 */
module Domain {

  datatype Option<+T> = None | Some(value: T)

  /** Document ids, user ids and colors are strings in the host. */
  type Id = string
  type Color = string

  /** One entry of `combat.turns`. `tokenId` is null for a combatant without a token. */
  datatype Combatant = Combatant(id: Id, actorId: Id, tokenId: Option<Id>, name: string, img: string)

  /** `combat.current`: the combatant id and turn index the host reports as current. */
  datatype CurrentState = CurrentState(combatantId: Option<Id>, turn: Option<nat>)

  /** A combat: its id, its turn order, the turn pointer (null between rounds) and `current`. */
  datatype Combat = Combat(id: Id, turns: seq<Combatant>, turn: Option<nat>, current: Option<CurrentState>)

  /** One `key: level` pair of `actor.ownership`, listed in the object's key-iteration order. */
  datatype OwnershipEntry = OwnershipEntry(key: Id, level: int)

  /**
   * An actor: its `type` ("character", "npc", ...), whether the requesting user
   * owns it (`actor.isOwner`) and its ownership table.
   */
  datatype Actor = Actor(actorType: string, isOwner: bool, ownership: seq<OwnershipEntry>)

  datatype User = User(isGM: bool, color: Color)

  /** A token placed on the canvas. */
  datatype Token = Token(id: Id)

  /** JavaScript's numeric reading of a possibly-null index: `null + 1 == 1`. */
  function JsNumber(t: Option<nat>): (v: nat)
    ensures t.Some? ==> v == t.value
    ensures t.None? ==> v == 0
  {
    match t
    case None => 0
    case Some(x) => x
  }
}
