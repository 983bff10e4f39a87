/**
 * The JavaScript array operations the commands rely on: `indexOf`,
 * `splice(start, 0, x)`, `splice(start, 1)`, `push`, and the
 * "index if in range, otherwise append" placement rule the insert-like
 * commands share.
 */
module Lists {
  import opened Wrappers

  predicate NoDuplicates<T(==)>(s: seq<T>)
  {
    forall i, j :: 0 <= i < j < |s| ==> s[i] != s[j]
  }

  /** `s.indexOf(x)`: the first position of `x`, or -1. */
  function IndexOf<T(==)>(s: seq<T>, x: T): (i: int)
    ensures -1 <= i < |s|
    ensures i == -1 <==> x !in s
    ensures 0 <= i ==> s[i] == x && x !in s[..i]
  {
    if s == [] then -1
    else if s[0] == x then 0
    else
      var k := IndexOf(s[1..], x);
      assert s[1..][..if k < 0 then 0 else k] == s[1..if k < 0 then 1 else k + 1];
      if k == -1 then -1 else k + 1
  }

  /** An occurrence with none before it is the one `indexOf` finds. */
  lemma IndexOfUnique<T>(s: seq<T>, x: T, j: nat)
    requires j < |s| && s[j] == x && x !in s[..j]
    ensures IndexOf(s, x) == j
  {
  }

  /**
   * The start position `splice` actually uses: a negative start counts back
   * from the end (and stops at 0), a start past the end means the end.
   */
  function SpliceStart(start: int, len: nat): (k: nat)
    ensures k <= len
    ensures 0 <= start <= len ==> k == start
  {
    if start < 0 then (if len + start < 0 then 0 else len + start)
    else if start > len then len
    else start
  }

  /** `s.splice(start, 0, x)`. */
  function SpliceInsert<T>(s: seq<T>, start: int, x: T): seq<T>
  {
    var k := SpliceStart(start, |s|);
    s[..k] + [x] + s[k..]
  }

  /** `s.splice(start, 1)`. */
  function SpliceRemove<T>(s: seq<T>, start: int): seq<T>
  {
    var k := SpliceStart(start, |s|);
    if k < |s| then s[..k] + s[k + 1..] else s
  }

  /** Removing at a position undoes inserting there. */
  lemma RemoveUndoesInsert<T>(s: seq<T>, i: int, x: T)
    requires 0 <= i <= |s|
    ensures SpliceRemove(SpliceInsert(s, i, x), i) == s
  {
    var t := SpliceInsert(s, i, x);
    assert |t| == |s| + 1;
    assert t[..i] == s[..i] && t[i + 1..] == s[i..];
  }

  /** Inserting the removed element back at its position undoes removing it. */
  lemma InsertUndoesRemove<T>(s: seq<T>, i: int)
    requires 0 <= i < |s|
    ensures SpliceInsert(SpliceRemove(s, i), i, s[i]) == s
  {
    var t := SpliceRemove(s, i);
    assert t[..i] == s[..i] && t[i..] == s[i + 1..];
    assert s == s[..i] + [s[i]] + s[i + 1..];
  }

  /** Removing the one occurrence of a duplicate-free list's element removes it entirely. */
  lemma RemoveOnlyOccurrence<T>(s: seq<T>, i: nat)
    requires NoDuplicates(s) && i < |s|
    ensures s[i] !in SpliceRemove(s, i)
    ensures forall y :: y in SpliceRemove(s, i) <==> y in s && y != s[i]
    ensures NoDuplicates(SpliceRemove(s, i))
  {
    assert SpliceRemove(s, i) == s[..i] + s[i + 1..];
    forall y | y in s && y != s[i]
      ensures y in SpliceRemove(s, i)
    {
      var j :| 0 <= j < |s| && s[j] == y;
      if j < i {
        assert s[..i][j] == y;
      } else {
        assert s[i + 1..][j - i - 1] == y;
      }
    }
  }

  /**
   * The placement rule of insert, insert-from-preset and move: a given
   * index in `[0, |s|]` is used as the position, anything else appends.
   * The second component is the position the element ends up at.
   */
  function Place<T>(s: seq<T>, index: Option<int>, x: T): (r: (seq<T>, nat))
    ensures r.1 < |r.0| == |s| + 1 && r.0[r.1] == x
    ensures r.0[..r.1] + r.0[r.1 + 1..] == s
    ensures index.Some? && 0 <= index.value <= |s| ==> r.1 == index.value
    ensures !(index.Some? && 0 <= index.value <= |s|) ==> r.1 == |s|
  {
    if index.Some? && 0 <= index.value <= |s| then
      var t := SpliceInsert(s, index.value, x);
      assert t[..index.value] == s[..index.value] && t[index.value + 1..] == s[index.value..];
      (t, index.value)
    else
      (s + [x], |s|)
  }

  /** The placed element is removed again by splicing at the recorded index. */
  lemma RemoveUndoesPlace<T>(s: seq<T>, index: Option<int>, x: T)
    ensures SpliceRemove(Place(s, index, x).0, Place(s, index, x).1) == s
  {
    var (t, k) := Place(s, index, x);
    assert SpliceStart(k, |t|) == k;
  }

  /** The list without any occurrence of `x` (a `Map` key deletion, seen on the key order). */
  function Without<T(==,!new)>(s: seq<T>, x: T): (r: seq<T>)
    ensures forall y :: y in r <==> y in s && y != x
    ensures NoDuplicates(s) ==> NoDuplicates(r)
  {
    if s == [] then []
    else if s[0] == x then Without(s[1..], x)
    else
      var r := [s[0]] + Without(s[1..], x);
      assert NoDuplicates(s) ==> s[0] !in s[1..] && NoDuplicates(s[1..]);
      r
  }
}
