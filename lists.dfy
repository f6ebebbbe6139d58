/**
 * The two list operations the particle containers use: `push_back`, and
 * `erase` of the position that `std::find` returns (removal by identity).
 */
module Lists {

  /** No element occurs twice: particles are handled by identity. */
  ghost predicate Distinct<T>(s: seq<T>) {
    forall i, j :: 0 <= i < j < |s| ==> s[i] != s[j]
  }

  /** `std::find`: the position of the first element equal to `x`. */
  function Find<T(==)>(s: seq<T>, x: T): (i: nat)
    requires x in s
    ensures i < |s| && s[i] == x && x !in s[..i]
  {
    if s[0] == x then 0 else 1 + Find(s[1..], x)
  }

  /**
   * `erase(find(begin, end, x))`. The source never checks that `find`
   * succeeded, and erasing `end()` is undefined, hence the requirement.
   */
  function RemoveFirst<T(==)>(s: seq<T>, x: T): (r: seq<T>)
    requires x in s
    ensures |r| == |s| - 1
    ensures forall k :: 0 <= k < Find(s, x) ==> r[k] == s[k]
    ensures forall k :: Find(s, x) <= k < |r| ==> r[k] == s[k + 1]
    ensures multiset(r) + multiset{x} == multiset(s)
  {
    var i := Find(s, x);
    assert s == s[..i] + [x] + s[i + 1..];
    s[..i] + s[i + 1..]
  }

  /** Removing the front element is dropping the head. */
  lemma RemoveFront<T>(s: seq<T>)
    requires |s| > 0
    ensures RemoveFirst(s, s[0]) == s[1..]
  {
  }

  /** Removal keeps distinct lists distinct, and the removed element is gone. */
  lemma RemoveFirstDistinct<T>(s: seq<T>, x: T)
    requires Distinct(s) && x in s
    ensures Distinct(RemoveFirst(s, x)) && x !in RemoveFirst(s, x)
  {
    var r, i := RemoveFirst(s, x), Find(s, x);
    forall a, b | 0 <= a < b < |r|
      ensures r[a] != r[b]
    {
      var a', b' := if a < i then a else a + 1, if b < i then b else b + 1;
      assert r[a] == s[a'] && r[b] == s[b'] && a' < b';
    }
    forall k | 0 <= k < |r|
      ensures r[k] != x
    {
      var k' := if k < i then k else k + 1;
      assert r[k] == s[k'] && k' != i;
    }
  }

  /** Appending an element not yet present keeps a list distinct. */
  lemma AppendDistinct<T>(s: seq<T>, x: T)
    requires Distinct(s) && x !in s
    ensures Distinct(s + [x])
  {
  }

  /** Removing what was just appended, when it was not present before, undoes the append. */
  lemma RemoveAppended<T>(s: seq<T>, x: T)
    requires x !in s
    ensures RemoveFirst(s + [x], x) == s
  {
    assert (s + [x])[..|s|] == s;
  }
}
