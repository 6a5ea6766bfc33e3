// Small pieces several screens share: an optional value, and the filter
// `list.filter(x => x.id !== id)` that removes the entries carrying an id.

module Common {

  datatype Option<T> = None | Some(value: T)

  /** `list.filter(x => idOf(x) !== id)`: the entries whose id differs. */
  function WithoutId<T>(s: seq<T>, idOf: T -> string, id: string): (r: seq<T>)
    ensures |r| <= |s|
    ensures forall i :: 0 <= i < |r| ==> idOf(r[i]) != id && r[i] in s
    ensures (forall i :: 0 <= i < |s| ==> idOf(s[i]) != id) ==> r == s
  {
    if s == [] then []
    else if idOf(s[0]) == id then WithoutId(s[1..], idOf, id)
    else [s[0]] + WithoutId(s[1..], idOf, id)
  }

  /** The filter keeps the relative order: it works piece by piece. */
  lemma {:induction false} WithoutIdConcat<T>(a: seq<T>, b: seq<T>, idOf: T -> string, id: string)
    ensures WithoutId(a + b, idOf, id) == WithoutId(a, idOf, id) + WithoutId(b, idOf, id)
  {
    if a == [] {
      assert a + b == b;
    } else {
      assert (a + b)[1..] == a[1..] + b;
      WithoutIdConcat(a[1..], b, idOf, id);
    }
  }

  /** Every entry with another id survives as often as it occurred, and no
      entry with the id survives. */
  lemma {:induction false} WithoutIdCounts<T>(s: seq<T>, idOf: T -> string, id: string, x: T)
    ensures multiset(WithoutId(s, idOf, id))[x] == if idOf(x) == id then 0 else multiset(s)[x]
  {
    if s != [] {
      WithoutIdCounts(s[1..], idOf, id, x);
      assert s == [s[0]] + s[1..];
    }
  }
}
