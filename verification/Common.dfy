/** Small definitions that several components share. */
module Common {

  datatype Option<T> = None | Some(value: T)

  predicate Distinct<T(==)>(s: seq<T>) { forall i, j | 0 <= i < j < |s| :: s[i] != s[j] }

  function Max(a: nat, b: nat): nat { if a < b then b else a }
  function Min(a: int, b: int): int { if a < b then a else b }

  /** The kind of byte that buffers hold. */
  type Byte = n: nat | n < 256

  // ----- sequences -----

  function InsertAt<T>(s: seq<T>, i: nat, x: T): (r: seq<T>)
    requires i <= |s|
    ensures |r| == |s| + 1
  {
    s[..i] + [x] + s[i..]
  }

  function RemoveAt<T>(s: seq<T>, i: nat): (r: seq<T>)
    requires i < |s|
    ensures |r| == |s| - 1
  {
    s[..i] + s[i + 1..]
  }

  /** Without the first occurrence of `x`. */
  function Dropped<T(==)>(s: seq<T>, x: T): seq<T> {
    if s == [] then [] else if s[0] == x then s[1..] else [s[0]] + Dropped(s[1..], x)
  }

  lemma InsertedMembers<T>(s: seq<T>, i: nat, x: T)
    requires i <= |s|
    ensures forall y :: y in InsertAt(s, i, x) <==> y == x || y in s
    ensures Distinct(s) && x !in s ==> Distinct(InsertAt(s, i, x))
  {
    assert s == s[..i] + s[i..];
    var r := InsertAt(s, i, x);
    assert forall k | 0 <= k < |r| :: r[k] == if k < i then s[k] else if k == i then x else s[k - 1];
  }

  lemma RemovedMembers<T>(s: seq<T>, i: nat)
    requires Distinct(s) && i < |s|
    ensures Distinct(RemoveAt(s, i)) && forall y :: y in RemoveAt(s, i) <==> y in s && y != s[i]
  {
    var r := RemoveAt(s, i);
    assert forall k | 0 <= k < |r| :: r[k] == if k < i then s[k] else s[k + 1];
    forall y | y in s && y != s[i] ensures y in r {
      var k :| 0 <= k < |s| && s[k] == y;
      assert r[if k < i then k else k - 1] == y;
    }
  }

  lemma {:induction false} DroppedMembers<T>(s: seq<T>, x: T)
    ensures |Dropped(s, x)| <= |s| && forall y | y in Dropped(s, x) :: y in s
    ensures forall y | y in s && y != x :: y in Dropped(s, x)
    ensures Distinct(s) ==> Distinct(Dropped(s, x))
  {
    if s != [] && s[0] != x {
      DroppedMembers(s[1..], x);
      var r := Dropped(s, x);
      assert r == [s[0]] + Dropped(s[1..], x);
      assert forall j | 0 < j < |r| :: r[j] == Dropped(s[1..], x)[j - 1] && r[j] in s[1..];
    }
  }

  lemma {:induction false} DroppedIsGone<T>(s: seq<T>, x: T)
    requires Distinct(s)
    ensures x !in Dropped(s, x)
  {
    if s != [] && s[0] != x { DroppedIsGone(s[1..], x); }
  }
}
