/** The two Array.prototype methods the handlers locate and remove entries with,
    with their JavaScript edge cases: `indexOf` answers -1 for a missing value, and
    `splice` counts a negative start from the end of the array. */
module JsArray {

  /** `s.indexOf(x)`: the first position of `x`, or -1 when `x` does not occur. */
  function IndexOf<T(==)>(s: seq<T>, x: T): (r: int)
    ensures -1 <= r < |s|
    ensures r == -1 <==> x !in s
    ensures 0 <= r ==> s[r] == x && forall k :: 0 <= k < r ==> s[k] != x
  {
    if |s| == 0 then -1
    else if s[0] == x then 0
    else
      var i := IndexOf(s[1..], x);
      if i == -1 then -1 else i + 1
  }

  /** The position `splice(start, ...)` starts at: a negative start counts back
      from the end (clamped at 0), a start past the end is clamped to the length. */
  function SpliceStart(len: nat, start: int): (k: nat)
    ensures k <= len
    ensures 0 <= start <= len ==> k == start
    ensures -(len as int) <= start < 0 ==> k == len + start
  {
    if start < 0 then (if len + start < 0 then 0 else len + start)
    else if start > len then len
    else start
  }

  /** The array left behind by `s.splice(start, 1)`: the element at the actual
      start position is removed, when there is one, and the others keep their order. */
  function SpliceOne<T>(s: seq<T>, start: int): (r: seq<T>)
    ensures SpliceStart(|s|, start) < |s| ==> |r| == |s| - 1
    ensures SpliceStart(|s|, start) == |s| ==> r == s
    ensures forall j :: 0 <= j < |r| ==>
      r[j] == s[if j < SpliceStart(|s|, start) then j else j + 1]
  {
    var k := SpliceStart(|s|, start);
    if k < |s| then s[..k] + s[k + 1..] else s
  }

  /** `splice(-1, 1)` on a non-empty array drops its last element. */
  lemma SpliceMinusOneDropsLast<T>(s: seq<T>)
    requires |s| > 0
    ensures SpliceOne(s, -1) == s[..|s| - 1]
  {
    var r := SpliceOne(s, -1);
    assert |r| == |s| - 1;
    forall j | 0 <= j < |r| ensures r[j] == s[j] { }
  }

  /** Removing at `indexOf(x)` when `x` occurs takes out exactly its first
      occurrence: the prefix before it and the suffix after it stay as they were. */
  lemma {:induction false} RemoveFirstOccurrence<T>(s: seq<T>, x: T)
    requires x in s
    ensures var i := IndexOf(s, x);
      0 <= i && SpliceOne(s, i) == s[..i] + s[i + 1..]
      && x !in s[..i]
      && multiset(SpliceOne(s, i)) == multiset(s) - multiset{x}
  {
    var i := IndexOf(s, x);
    var r := SpliceOne(s, i);
    assert r == s[..i] + s[i + 1..] by {
      assert |r| == |s[..i] + s[i + 1..]|;
      forall j | 0 <= j < |r| ensures r[j] == (s[..i] + s[i + 1..])[j] { }
    }
    assert s == s[..i] + [x] + s[i + 1..];
    calc {
      multiset(s);
      multiset(s[..i] + [x] + s[i + 1..]);
      multiset(s[..i]) + multiset{x} + multiset(s[i + 1..]);
      multiset(r) + multiset{x};
    }
  }

  /** Taking out the first occurrence of a value that was just put at the front
      gives back the array as it was before. */
  lemma {:induction false} RemoveAfterUnshift<T>(s: seq<T>, x: T)
    ensures SpliceOne([x] + s, IndexOf([x] + s, x)) == s
  {
    var t := [x] + s;
    assert IndexOf(t, x) == 0;
    var r := SpliceOne(t, 0);
    assert |r| == |s|;
    forall j | 0 <= j < |r| ensures r[j] == s[j] { }
  }

  /** `s.splice(keys.indexOf(key), 1)` where `keys` lists a key per element of
      `s`: when the key occurs, the element with its first occurrence is removed
      and the rest keep their order; when it does not, `indexOf` gives -1 and the
      last element is removed. */
  lemma {:induction false} SpliceAtIndexOf<T, K>(s: seq<T>, keys: seq<K>, key: K)
    requires |keys| == |s|
    ensures var i := IndexOf(keys, key);
      && (key in keys ==>
            && 0 <= i && keys[i] == key
            && (forall j :: 0 <= j < i ==> keys[j] != key)
            && SpliceOne(s, i) == s[..i] + s[i + 1..])
      && (key !in keys && |s| > 0 ==> SpliceOne(s, i) == s[..|s| - 1])
      && (|s| == 0 ==> SpliceOne(s, i) == [])
  {
    var i := IndexOf(keys, key);
    var r := SpliceOne(s, i);
    if key in keys {
      assert |r| == |s[..i] + s[i + 1..]|;
      forall j | 0 <= j < |r| ensures r[j] == (s[..i] + s[i + 1..])[j] { }
    } else if |s| > 0 {
      SpliceMinusOneDropsLast(s);
    }
  }
}
