/** The list operations and facts several components share. */
module Lists {

  /** `List.RemoveAt(k)`: the elements before `k`, then those after it. */
  function RemoveAt<T>(s: seq<T>, k: int): (r: seq<T>)
    requires 0 <= k < |s|
    ensures |r| == |s| - 1
    ensures forall j :: 0 <= j < k ==> r[j] == s[j]
    ensures forall j :: k <= j < |r| ==> r[j] == s[j + 1]
  {
    s[..k] + s[k + 1..]
  }

  /** RemoveAt takes out the one element at `k` and keeps all the others. */
  lemma RemoveAtTakesOne<T>(s: seq<T>, k: int)
    requires 0 <= k < |s|
    ensures multiset(RemoveAt(s, k)) + multiset{s[k]} == multiset(s)
  {
    assert s == s[..k] + [s[k]] + s[k + 1..];
  }

  /** A slice inside the first part of a concatenation is a slice of that part. */
  lemma SliceOfFront<T>(a: seq<T>, b: seq<T>, i: int, j: int)
    requires 0 <= i <= j <= |a|
    ensures (a + b)[i .. j] == a[i .. j]
  {
  }

  /** The slice after the first part of a concatenation is the second part. */
  lemma SliceOfBack<T>(a: seq<T>, b: seq<T>)
    ensures (a + b)[|a| .. |a| + |b|] == b
  {
  }
}
