/** The retirement rule shared by track segments and obstacles: whatever lies more than
    a fixed margin behind the player is removed, and the rest keeps its order. */
module Trail {

  /** Distance behind the player after which a segment or an obstacle is retired. */
  const TrailingMargin: real := 40.0

  /** Something placed at forward position `pos` is retired once the player, at `z`,
      is more than the margin past it. */
  predicate Behind(pos: real, z: real): (r: bool)
    ensures r ==> pos < z
  {
    z - pos > TrailingMargin
  }

  /** The elements of `s` that are not behind the player at `z`, in their original order
      (SurvivorsMembers); `pos` gives an element's forward position. */
  function Survivors<T(!new)>(s: seq<T>, pos: T -> real, z: real): (r: seq<T>)
    ensures |r| <= |s|
  {
    if s == [] then []
    else
      assert s == [s[0]] + s[1..];
      (if Behind(pos(s[0]), z) then [] else [s[0]]) + Survivors(s[1..], pos, z)
  }

  /** The survivors are exactly the elements that are not behind the player. */
  lemma {:induction false} SurvivorsMembers<T(!new)>(s: seq<T>, pos: T -> real, z: real)
    ensures forall x :: x in Survivors(s, pos, z) <==> x in s && !Behind(pos(x), z)
    decreases |s|
  {
    if s != [] {
      assert s == [s[0]] + s[1..];
      SurvivorsMembers(s[1..], pos, z);
    }
  }

  /** How many elements of `s` are retired. */
  function RetiredCount<T(!new)>(s: seq<T>, pos: T -> real, z: real): nat
  {
    |s| - |Survivors(s, pos, z)|
  }

  /** Filtering a concatenation filters each part: the filter keeps relative order. */
  lemma {:induction false} SurvivorsAppend<T(!new)>(a: seq<T>, b: seq<T>, pos: T -> real, z: real)
    ensures Survivors(a + b, pos, z) == Survivors(a, pos, z) + Survivors(b, pos, z)
    ensures RetiredCount(a + b, pos, z) == RetiredCount(a, pos, z) + RetiredCount(b, pos, z)
    decreases |a|
  {
    if a != [] {
      assert (a + b)[1..] == a[1..] + b;
      SurvivorsAppend(a[1..], b, pos, z);
    } else {
      assert a + b == b;
    }
  }

  /** When nothing is behind the player, the filter removes nothing. */
  lemma {:induction false} SurvivorsNoneBehind<T(!new)>(s: seq<T>, pos: T -> real, z: real)
    requires forall i :: 0 <= i < |s| ==> !Behind(pos(s[i]), z)
    ensures Survivors(s, pos, z) == s
    ensures RetiredCount(s, pos, z) == 0
    decreases |s|
  {
    if s != [] {
      SurvivorsNoneBehind(s[1..], pos, z);
      assert s == [s[0]] + s[1..];
    }
  }

  /** A filter that retires nothing returns its input unchanged. */
  lemma {:induction false} SurvivorsNoneRetired<T(!new)>(s: seq<T>, pos: T -> real, z: real)
    requires RetiredCount(s, pos, z) == 0
    ensures Survivors(s, pos, z) == s
    decreases |s|
  {
    if s != [] {
      assert s == [s[0]] + s[1..];
      assert !Behind(pos(s[0]), z);
      SurvivorsNoneRetired(s[1..], pos, z);
    }
  }

  /** Walking a list from the back: the suffix from `i` keeps its element at `i` exactly when
      that element is not behind, and retires one more element exactly when it is. */
  lemma SurvivorsStep<T(!new)>(s: seq<T>, i: nat, pos: T -> real, z: real)
    requires i < |s|
    ensures Survivors(s[i..], pos, z) == (if Behind(pos(s[i]), z) then [] else [s[i]]) + Survivors(s[i + 1..], pos, z)
    ensures RetiredCount(s[i..], pos, z) == RetiredCount(s[i + 1..], pos, z) + (if Behind(pos(s[i]), z) then 1 else 0)
  {
    assert s[i..][1..] == s[i + 1..];
  }
}
