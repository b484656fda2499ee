/**
 * The order of the selectable list: characters before every other kind of
 * actor, then names ascending as JavaScript compares strings. The source
 * sorts with `list.sort(comparator)`, a stable sort; it is modelled by a
 * stable insertion sort driven by the same comparator.
 */
module CandidateOrder {
  import opened Domain
  import opened Stores

  /** `game.actors.get(actorId).type === "character" ? 0 : 1`. */
  function KindRank(actorId: Id, actors: map<Id, Actor>): (rank: nat)
    ensures rank <= 1
    ensures rank == 0 <==> actorId in actors && actors[actorId].actorType == "character"
  {
    if actorId in actors && actors[actorId].actorType == "character" then 0 else 1
  }

  /** JavaScript `a < b` on strings: compare unit by unit; a proper prefix comes first. */
  predicate NameLess(a: string, b: string)
    decreases |a|
  {
    if |a| == 0 then |b| > 0
    else if |b| == 0 then false
    else a[0] < b[0] || (a[0] == b[0] && NameLess(a[1..], b[1..]))
  }

  lemma {:induction false} NameLessIrreflexive(a: string)
    ensures !NameLess(a, a)
    decreases |a|
  {
    if |a| > 0 {
      NameLessIrreflexive(a[1..]);
    }
  }

  lemma {:induction false} NameLessTransitive(a: string, b: string, c: string)
    requires NameLess(a, b) && NameLess(b, c)
    ensures NameLess(a, c)
    decreases |a|
  {
    if |a| > 0 && a[0] == b[0] && b[0] == c[0] {
      NameLessTransitive(a[1..], b[1..], c[1..]);
    }
  }

  lemma {:induction false} NameLessTotal(a: string, b: string)
    ensures a == b || NameLess(a, b) || NameLess(b, a)
    decreases |a|
  {
    if |a| > 0 && |b| > 0 && a[0] == b[0] {
      NameLessTotal(a[1..], b[1..]);
      if a[1..] == b[1..] {
        assert a == [a[0]] + a[1..] && b == [b[0]] + b[1..];
      }
    }
  }

  /**
   * The comparator passed to `list.sort`: the difference of the kind ranks,
   * or else 1, -1 or 0 as `a.name > b.name`, `a.name < b.name` or neither.
   */
  function Compare(a: SelectableItem, b: SelectableItem, actors: map<Id, Actor>): (c: int)
  {
    var sortedByType := KindRank(a.actorId, actors) - KindRank(b.actorId, actors);
    if sortedByType != 0 then sortedByType
    else if NameLess(b.name, a.name) then 1
    else if NameLess(a.name, b.name) then -1
    else 0
  }

  /** `a` may stand before `b`: a character before a non-character, else names not descending. */
  predicate InOrder(a: SelectableItem, b: SelectableItem, actors: map<Id, Actor>)
  {
    || KindRank(a.actorId, actors) < KindRank(b.actorId, actors)
    || (KindRank(a.actorId, actors) == KindRank(b.actorId, actors) && !NameLess(b.name, a.name))
  }

  /** Every earlier item may stand before every later one. */
  predicate Sorted(s: seq<SelectableItem>, actors: map<Id, Actor>)
  {
    forall i, j :: 0 <= i < j < |s| ==> InOrder(s[i], s[j], actors)
  }

  /** The comparator's sign agrees with `InOrder`, and swapping the arguments swaps the sign. */
  lemma CompareMeansInOrder(a: SelectableItem, b: SelectableItem, actors: map<Id, Actor>)
    ensures Compare(a, b, actors) <= 0 <==> InOrder(a, b, actors)
    ensures Compare(a, b, actors) < 0 <==> Compare(b, a, actors) > 0
  {
    if NameLess(a.name, b.name) && NameLess(b.name, a.name) {
      NameLessTransitive(a.name, b.name, a.name);
      NameLessIrreflexive(a.name);
    }
  }

  lemma InOrderTransitive(a: SelectableItem, b: SelectableItem, c: SelectableItem, actors: map<Id, Actor>)
    requires InOrder(a, b, actors) && InOrder(b, c, actors)
    ensures InOrder(a, c, actors)
  {
    if KindRank(a.actorId, actors) == KindRank(b.actorId, actors) == KindRank(c.actorId, actors) {
      if NameLess(c.name, a.name) {
        NameLessTotal(a.name, b.name);
        NameLessTotal(b.name, c.name);
        if NameLess(a.name, b.name) && NameLess(b.name, c.name) {
          NameLessTransitive(a.name, b.name, c.name);
          NameLessTransitive(c.name, a.name, c.name);
          NameLessIrreflexive(c.name);
        } else if NameLess(a.name, b.name) {
          NameLessTransitive(c.name, a.name, b.name);
        } else {
          NameLessTransitive(b.name, c.name, a.name);
        }
      }
    }
  }

  /** Insert `x` in front of the first item the comparator puts after it. */
  function Insert(x: SelectableItem, s: seq<SelectableItem>, actors: map<Id, Actor>): (r: seq<SelectableItem>)
  {
    if s == [] then [x]
    else if Compare(x, s[0], actors) < 0 then [x] + s
    else [s[0]] + Insert(x, s[1..], actors)
  }

  /** `list.sort(comparator)`: insert the items one by one, in list order. */
  function SortCandidates(s: seq<SelectableItem>, actors: map<Id, Actor>): (r: seq<SelectableItem>)
  {
    if s == [] then []
    else Insert(s[|s| - 1], SortCandidates(s[..|s| - 1], actors), actors)
  }

  lemma {:induction false} InsertPermutes(x: SelectableItem, s: seq<SelectableItem>, actors: map<Id, Actor>)
    ensures multiset(Insert(x, s, actors)) == multiset(s) + multiset{x}
  {
    if s != [] && Compare(x, s[0], actors) >= 0 {
      InsertPermutes(x, s[1..], actors);
      assert s == [s[0]] + s[1..];
    }
  }

  lemma {:induction false} InsertKeepsSorted(x: SelectableItem, s: seq<SelectableItem>, actors: map<Id, Actor>)
    requires Sorted(s, actors)
    ensures Sorted(Insert(x, s, actors), actors)
  {
    if s == [] {
    } else if Compare(x, s[0], actors) < 0 {
      CompareMeansInOrder(x, s[0], actors);
      forall j | 0 <= j < |s| ensures InOrder(x, s[j], actors) {
        if j > 0 {
          InOrderTransitive(x, s[0], s[j], actors);
        }
      }
    } else {
      var rest := Insert(x, s[1..], actors);
      InsertKeepsSorted(x, s[1..], actors);
      InsertPermutes(x, s[1..], actors);
      CompareMeansInOrder(x, s[0], actors);
      CompareMeansInOrder(s[0], x, actors);
      forall j | 0 <= j < |rest| ensures InOrder(s[0], rest[j], actors) {
        assert rest[j] in multiset(rest);
        if rest[j] != x {
          assert rest[j] in multiset(s[1..]);
          var k :| 0 <= k < |s[1..]| && s[1..][k] == rest[j];
          assert s[k + 1] == rest[j];
        }
      }
      var r := [s[0]] + rest;
      forall i, j | 0 <= i < j < |r| ensures InOrder(r[i], r[j], actors) {
        if i > 0 {
          assert r[i] == rest[i - 1] && r[j] == rest[j - 1];
        }
      }
    }
  }

  /** The sorted list holds exactly the items it was given. */
  lemma {:induction false} SortPermutes(s: seq<SelectableItem>, actors: map<Id, Actor>)
    ensures multiset(SortCandidates(s, actors)) == multiset(s)
  {
    if s != [] {
      var m := |s| - 1;
      SortPermutes(s[..m], actors);
      InsertPermutes(s[m], SortCandidates(s[..m], actors), actors);
      assert s == s[..m] + [s[m]];
    }
  }

  /** The sorted list puts characters first and names in ascending order within each kind. */
  lemma {:induction false} SortOrders(s: seq<SelectableItem>, actors: map<Id, Actor>)
    ensures Sorted(SortCandidates(s, actors), actors)
  {
    if s != [] {
      var m := |s| - 1;
      SortOrders(s[..m], actors);
      InsertKeepsSorted(s[m], SortCandidates(s[..m], actors), actors);
    }
  }
}
