/**
 * What the selectable and previous lists contain, and how they divide the
 * turn order between them; where the token picker looks.
 */
module Partition {
  import opened Domain
  import opened Arrays
  import opened Stores
  import opened CandidateOrder
  import opened StoreUpdater

  function SelectableId(x: SelectableItem): (id: Id) { x.id }
  function PreviousId(x: PreviousItem): (id: Id) { x.id }
  function CombatantId(c: Combatant): (id: Id) { c.id }

  /** With no current turn both lists are empty. */
  lemma NoTurnNoLists(combat: Combat, selectedId: Id, canLast: bool, actors: map<Id, Actor>, users: map<Id, User>)
    requires AllResolvable(combat.turns, actors, users)
    requires combat.turn.None?
    ensures SelectableList(combat, selectedId, canLast, actors, users) == []
    ensures PreviousList(combat, canLast) == []
  {
  }

  /**
   * The selectable indices: those after the current turn; on the last turn
   * every earlier index, and the last one too when the last actor may
   * select themselves.
   */
  lemma SelectableSpanExactly(n: nat, t: nat, canLast: bool, i: nat)
    ensures Contains(SelectableSpan(n, t, canLast), i) <==>
              if t + 1 == n then i < n - 1 || (canLast && i == n - 1) else t < i < n
  {
  }

  /**
   * The previous indices: up to and including the current turn; on the last
   * turn only the current one, and none when the last actor may select
   * themselves.
   */
  lemma PreviousSpanExactly(n: nat, t: nat, canLast: bool, i: nat)
    ensures Contains(PreviousSpan(n, t, canLast), i) <==>
              if t + 1 == n then !canLast && i == t else i <= t && i < n
  {
  }

  /** Every index of the turn order is in exactly one of the two spans, and no other index is. */
  lemma SpansPartitionTurnOrder(n: nat, t: nat, canLast: bool)
    ensures forall i: nat :: i < n ==>
              Contains(SelectableSpan(n, t, canLast), i) != Contains(PreviousSpan(n, t, canLast), i)
    ensures forall i: nat :: Contains(SelectableSpan(n, t, canLast), i) ==> i < n
    ensures forall i: nat :: Contains(PreviousSpan(n, t, canLast), i) ==> i < n
  {
  }

  lemma {:induction false} ScanSelectableAt(turns: seq<Combatant>, lo: nat, hi: nat, selectedId: Id,
                                            actors: map<Id, Actor>, users: map<Id, User>)
    requires lo <= hi <= |turns|
    requires AllResolvable(turns, actors, users)
    ensures |ScanSelectable(turns, lo, hi, selectedId, actors, users)| == hi - lo
    ensures forall k :: 0 <= k < hi - lo ==>
              ScanSelectable(turns, lo, hi, selectedId, actors, users)[k]
                == SelectableItemOf(turns[lo + k], selectedId, actors, users)
    decreases hi
  {
    if lo < hi {
      ScanSelectableAt(turns, lo, hi - 1, selectedId, actors, users);
      var front := ScanSelectable(turns, lo, hi - 1, selectedId, actors, users);
      var last := SelectableItemOf(turns[hi - 1], selectedId, actors, users);
      assert ScanSelectable(turns, lo, hi, selectedId, actors, users) == front + [last];
      forall k | 0 <= k < hi - lo
        ensures (front + [last])[k] == SelectableItemOf(turns[lo + k], selectedId, actors, users)
      {
        if k < hi - 1 - lo {
          assert (front + [last])[k] == front[k];
        }
      }
    }
  }

  lemma {:induction false} ScanPreviousAt(turns: seq<Combatant>, lo: nat, hi: nat)
    requires lo <= hi <= |turns|
    ensures |ScanPrevious(turns, lo, hi)| == hi - lo
    ensures forall k :: 0 <= k < hi - lo ==> ScanPrevious(turns, lo, hi)[k] == PreviousItemOf(turns[lo + k])
    decreases hi
  {
    if lo < hi {
      ScanPreviousAt(turns, lo, hi - 1);
    }
  }

  /** Every scanned entry comes from a combatant of the span, marked selected exactly when its id is the selected one. */
  lemma {:induction false} ScanSelectableFrom(turns: seq<Combatant>, lo: nat, hi: nat, selectedId: Id,
                                              actors: map<Id, Actor>, users: map<Id, User>)
    requires hi <= lo || hi <= |turns|
    requires AllResolvable(turns, actors, users)
    ensures forall x :: x in ScanSelectable(turns, lo, hi, selectedId, actors, users) ==>
              && x.isSelected == (x.id == selectedId)
              && !x.isHighlighted
              && exists i :: lo <= i < hi && x == SelectableItemOf(turns[i], selectedId, actors, users)
    decreases hi
  {
    if lo < hi {
      ScanSelectableFrom(turns, lo, hi - 1, selectedId, actors, users);
    }
  }

  /**
   * The selectable list holds one entry per scanned combatant, each marked
   * selected exactly when its id is the selected id and none highlighted,
   * ordered characters first and then by name.
   */
  lemma SelectableListContents(combat: Combat, selectedId: Id, canLast: bool,
                               actors: map<Id, Actor>, users: map<Id, User>)
    requires AllResolvable(combat.turns, actors, users)
    requires combat.turn.Some?
    ensures var sp := SelectableSpan(|combat.turns|, combat.turn.value, canLast);
            var list := SelectableList(combat, selectedId, canLast, actors, users);
            && multiset(list) == multiset(ScanSelectable(combat.turns, sp.lo, sp.hi, selectedId, actors, users))
            && |list| == (if sp.lo <= sp.hi then sp.hi - sp.lo else 0)
            && Sorted(list, actors)
            && (forall x :: x in list ==>
                  && x.isSelected == (x.id == selectedId)
                  && !x.isHighlighted
                  && exists i: nat :: Contains(sp, i) && x == SelectableItemOf(combat.turns[i], selectedId, actors, users))
  {
    var sp := SelectableSpan(|combat.turns|, combat.turn.value, canLast);
    var scan := ScanSelectable(combat.turns, sp.lo, sp.hi, selectedId, actors, users);
    var list := SelectableList(combat, selectedId, canLast, actors, users);
    assert list == SortCandidates(scan, actors);
    SortPermutes(scan, actors);
    SortOrders(scan, actors);
    assert |list| == |multiset(list)| == |multiset(scan)| == |scan|;
    if sp.lo <= sp.hi {
      ScanSelectableAt(combat.turns, sp.lo, sp.hi, selectedId, actors, users);
    }
    ScanSelectableFrom(combat.turns, sp.lo, sp.hi, selectedId, actors, users);
    forall x | x in list ensures x in scan {
      assert x in multiset(list);
    }
  }

  /** The previous list is the visited combatants, most recent first. */
  lemma PreviousListContents(combat: Combat, canLast: bool)
    requires combat.turn.Some?
    ensures var sp := PreviousSpan(|combat.turns|, combat.turn.value, canLast);
            var prev := PreviousList(combat, canLast);
            && |prev| == sp.hi - sp.lo
            && forall k :: 0 <= k < |prev| ==> prev[k] == PreviousItemOf(combat.turns[sp.hi - 1 - k])
  {
    var sp := PreviousSpan(|combat.turns|, combat.turn.value, canLast);
    ScanPreviousAt(combat.turns, sp.lo, sp.hi);
    ReverseAt(ScanPrevious(combat.turns, sp.lo, sp.hi));
  }

  /** Before the last turn the previous list runs from the current combatant back to the first. */
  lemma PreviousBeforeLastTurn(combat: Combat, canLast: bool)
    requires combat.turn.Some? && combat.turn.value + 1 < |combat.turns|
    ensures |PreviousList(combat, canLast)| == combat.turn.value + 1
    ensures forall k :: 0 <= k <= combat.turn.value ==>
              PreviousList(combat, canLast)[k] == PreviousItemOf(combat.turns[combat.turn.value - k])
  {
    PreviousListContents(combat, canLast);
  }

  /** On the last turn the previous list is empty, or just the current combatant when it cannot pick itself. */
  lemma PreviousOnLastTurn(combat: Combat, canLast: bool)
    requires combat.turn.Some? && combat.turn.value + 1 == |combat.turns|
    ensures PreviousList(combat, canLast) ==
              if canLast then [] else [PreviousItemOf(combat.turns[combat.turn.value])]
  {
    PreviousListContents(combat, canLast);
  }

  lemma {:induction false} ScanSelectableIds(turns: seq<Combatant>, lo: nat, hi: nat, selectedId: Id,
                                              actors: map<Id, Actor>, users: map<Id, User>)
    requires lo <= hi <= |turns|
    requires AllResolvable(turns, actors, users)
    ensures MapSeq(SelectableId, ScanSelectable(turns, lo, hi, selectedId, actors, users))
              == MapSeq(CombatantId, turns[lo..hi])
    decreases hi
  {
    if lo < hi {
      ScanSelectableIds(turns, lo, hi - 1, selectedId, actors, users);
      var front := ScanSelectable(turns, lo, hi - 1, selectedId, actors, users);
      var last := SelectableItemOf(turns[hi - 1], selectedId, actors, users);
      MapSeqAppend(SelectableId, front, [last]);
      assert turns[lo..hi] == turns[lo..hi - 1] + [turns[hi - 1]];
      MapSeqAppend(CombatantId, turns[lo..hi - 1], [turns[hi - 1]]);
    }
  }

  lemma SelectableIdsOfSpan(combat: Combat, selectedId: Id, canLast: bool,
                            actors: map<Id, Actor>, users: map<Id, User>)
    requires AllResolvable(combat.turns, actors, users)
    requires combat.turn.Some?
    ensures var sp := SelectableSpan(|combat.turns|, combat.turn.value, canLast);
            multiset(MapSeq(SelectableId, SelectableList(combat, selectedId, canLast, actors, users)))
              == if sp.lo <= sp.hi then multiset(MapSeq(CombatantId, combat.turns[sp.lo..sp.hi])) else multiset{}
  {
    var sp := SelectableSpan(|combat.turns|, combat.turn.value, canLast);
    var scan := ScanSelectable(combat.turns, sp.lo, sp.hi, selectedId, actors, users);
    var list := SelectableList(combat, selectedId, canLast, actors, users);
    assert list == SortCandidates(scan, actors);
    SortPermutes(scan, actors);
    PermutationMaps(SelectableId, list, scan);
    if sp.lo <= sp.hi {
      ScanSelectableIds(combat.turns, sp.lo, sp.hi, selectedId, actors, users);
    }
  }

  lemma PreviousIdsOfSpan(combat: Combat, canLast: bool)
    requires combat.turn.Some?
    ensures var sp := PreviousSpan(|combat.turns|, combat.turn.value, canLast);
            multiset(MapSeq(PreviousId, PreviousList(combat, canLast)))
              == multiset(MapSeq(CombatantId, combat.turns[sp.lo..sp.hi]))
  {
    var sp := PreviousSpan(|combat.turns|, combat.turn.value, canLast);
    var scan := ScanPrevious(combat.turns, sp.lo, sp.hi);
    var list := PreviousList(combat, canLast);
    assert list == Reverse(scan);
    ReversePermutes(scan);
    PermutationMaps(PreviousId, list, scan);
    ScanPreviousAt(combat.turns, sp.lo, sp.hi);
    assert MapSeq(PreviousId, scan) == MapSeq(CombatantId, combat.turns[sp.lo..sp.hi]);
    assert multiset(MapSeq(PreviousId, list)) == multiset(MapSeq(CombatantId, combat.turns[sp.lo..sp.hi]));
  }

  /** Cutting the turn order in two cuts its ids in two. */
  lemma SliceIdsSplit(turns: seq<Combatant>, m: nat)
    requires m <= |turns|
    ensures multiset(MapSeq(CombatantId, turns[0..m])) + multiset(MapSeq(CombatantId, turns[m..|turns|]))
              == multiset(MapSeq(CombatantId, turns))
  {
    assert turns == turns[0..m] + turns[m..|turns|];
    MapSeqAppend(CombatantId, turns[0..m], turns[m..|turns|]);
  }

  /**
   * Together the two lists name every combatant of the turn order exactly
   * as often as the turn order does: each combatant is in one list, once.
   */
  lemma ListsCoverTurnOrder(combat: Combat, selectedId: Id, canLast: bool,
                            actors: map<Id, Actor>, users: map<Id, User>)
    requires AllResolvable(combat.turns, actors, users)
    requires combat.turn.Some?
    ensures multiset(MapSeq(SelectableId, SelectableList(combat, selectedId, canLast, actors, users)))
              + multiset(MapSeq(PreviousId, PreviousList(combat, canLast)))
            == multiset(MapSeq(CombatantId, combat.turns))
  {
    var turns := combat.turns;
    var n, t := |turns|, combat.turn.value;
    SelectableIdsOfSpan(combat, selectedId, canLast, actors, users);
    PreviousIdsOfSpan(combat, canLast);
    // The two spans are adjacent; `m` is where one ends and the other begins.
    var m := if t + 1 == n then (if canLast then n else n - 1) else if t < n then t + 1 else 0;
    SliceIdsSplit(turns, m);
  }

  /**
   * The token picker scans forward from its start (0 on the last turn, the
   * current turn otherwise) to the end, never wrapping, and takes the first
   * combatant the token backs.
   */
  lemma TokenPickScansForward(combat: Combat, tokenId: Id)
    ensures var start := if JsNumber(combat.turn) + 1 == |combat.turns| then 0 else JsNumber(combat.turn);
            match PickedIndex(combat, tokenId)
            case Some(i) =>
              && start <= i < |combat.turns|
              && combat.turns[i].tokenId == Some(tokenId)
              && forall j :: start <= j < i ==> combat.turns[j].tokenId != Some(tokenId)
            case None =>
              forall j :: start <= j < |combat.turns| ==> combat.turns[j].tokenId != Some(tokenId)
  {
  }

  /**
   * A picked combatant is a selectable one or the current combatant itself:
   * the scan starts at the current turn, one before the selectable list does,
   * and on the last turn it also reaches the current combatant when the
   * selectable list leaves it out.
   */
  lemma PickedIsSelectableOrCurrent(combat: Combat, tokenId: Id, canLast: bool)
    requires combat.turn.Some?
    ensures PickedIndex(combat, tokenId).Some? ==>
              var i := PickedIndex(combat, tokenId).value;
              Contains(SelectableSpan(|combat.turns|, combat.turn.value, canLast), i) || i == combat.turn.value
  {
  }
}
