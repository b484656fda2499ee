/**
 * The JavaScript array operations the source relies on, on sequences:
 * a forward scan for the first match (`find`, and the loops with `break`),
 * `reverse`, and mapping a field out of every element.
 */
module Arrays {
  import opened Domain

  /** The first index at or after `from` whose element satisfies `p`. */
  function FirstIndex<T>(s: seq<T>, p: T -> bool, from: nat): (r: Option<nat>)
    decreases |s| - from
    ensures r.Some? ==> from <= r.value < |s| && p(s[r.value])
    ensures r.Some? ==> forall j :: from <= j < r.value ==> !p(s[j])
    ensures r.None? <==> forall j :: from <= j < |s| ==> !p(s[j])
  {
    if from >= |s| then None
    else if p(s[from]) then Some(from)
    else FirstIndex(s, p, from + 1)
  }

  /** `list.reverse()`. */
  function Reverse<T>(s: seq<T>): (r: seq<T>)
  {
    if s == [] then [] else Reverse(s[1..]) + [s[0]]
  }

  lemma {:induction false} ReverseAt<T>(s: seq<T>)
    ensures |Reverse(s)| == |s|
    ensures forall k :: 0 <= k < |s| ==> Reverse(s)[k] == s[|s| - 1 - k]
  {
    if s != [] {
      ReverseAt(s[1..]);
    }
  }

  lemma {:induction false} ReversePermutes<T>(s: seq<T>)
    ensures multiset(Reverse(s)) == multiset(s)
  {
    if s != [] {
      ReversePermutes(s[1..]);
      assert s == [s[0]] + s[1..];
    }
  }

  /** `s.map(f)`. */
  function MapSeq<T, U>(f: T -> U, s: seq<T>): (r: seq<U>)
    ensures |r| == |s|
    ensures forall k :: 0 <= k < |s| ==> r[k] == f(s[k])
  {
    seq(|s|, k requires 0 <= k < |s| => f(s[k]))
  }

  lemma MapSeqAppend<T, U>(f: T -> U, a: seq<T>, b: seq<T>)
    ensures MapSeq(f, a + b) == MapSeq(f, a) + MapSeq(f, b)
  {
    assert forall k :: 0 <= k < |a + b| ==> MapSeq(f, a + b)[k] == (MapSeq(f, a) + MapSeq(f, b))[k];
  }

  /** Rearranging a sequence rearranges whatever is read out of its elements. */
  lemma {:induction false} PermutationMaps<T, U>(f: T -> U, a: seq<T>, b: seq<T>)
    requires multiset(a) == multiset(b)
    ensures multiset(MapSeq(f, a)) == multiset(MapSeq(f, b))
    decreases |a|
  {
    if a == [] {
      assert |multiset(b)| == 0;
      assert b == [];
    } else {
      var x := a[0];
      assert x in multiset(b);
      var k :| 0 <= k < |b| && b[k] == x;
      var rest := b[..k] + b[k + 1..];
      assert b == b[..k] + [x] + b[k + 1..];
      assert a == [x] + a[1..];
      calc {
        multiset(a[1..]) + multiset{x};
        multiset(a);
        multiset(b);
        multiset(b[..k]) + multiset{x} + multiset(b[k + 1..]);
        multiset(rest) + multiset{x};
      }
      assert forall y :: multiset(a[1..])[y] == (multiset(a[1..]) + multiset{x})[y] - multiset{x}[y];
      assert multiset(a[1..]) == multiset(rest);
      PermutationMaps(f, a[1..], rest);
      MapSeqAppend(f, [x], a[1..]);
      MapSeqAppend(f, b[..k] + [x], b[k + 1..]);
      MapSeqAppend(f, b[..k], [x]);
      MapSeqAppend(f, b[..k], b[k + 1..]);
    }
  }
}
