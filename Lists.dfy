/** The array operations the pages use: `find`, `filter(x => x.id !== id)` and `filter(p).length`. */
module Lists {
  import opened Common

  /** Index of the first element satisfying p, or |s| when there is none (the search behind `find`). */
  function FindIndex<T>(s: seq<T>, p: T -> bool): (k: nat)
    ensures k <= |s|
    ensures k < |s| ==> p(s[k])
    ensures forall j :: 0 <= j < k ==> !p(s[j])
  {
    if s == [] then 0
    else if p(s[0]) then 0
    else 1 + FindIndex(s[1..], p)
  }

  /** `s.find(p)`: the first element satisfying p, if any. */
  function Find<T>(s: seq<T>, p: T -> bool): (r: Option<T>)
    ensures r.None? <==> forall j :: 0 <= j < |s| ==> !p(s[j])
    ensures r.Some? ==> p(r.value) && r.value in s
    ensures forall k :: 0 <= k < |s| && p(s[k]) && (forall j :: 0 <= j < k ==> !p(s[j])) ==> r == Some(s[k])
  {
    var k := FindIndex(s, p);
    if k < |s| then Some(s[k]) else None
  }

  /** `s.filter(x => idOf(x) !== id)`. */
  function WithoutId<T(==)>(s: seq<T>, idOf: T -> string, id: string): (r: seq<T>)
    ensures |r| <= |s|
    ensures forall j :: 0 <= j < |r| ==> r[j] in s && idOf(r[j]) != id
    ensures forall j :: 0 <= j < |s| && idOf(s[j]) != id ==> s[j] in r
  {
    if s == [] then []
    else (if idOf(s[0]) != id then [s[0]] else []) + WithoutId(s[1..], idOf, id)
  }

  /** Filtering distributes over concatenation, so the kept elements stay in their original order. */
  lemma {:induction false} WithoutIdAppend<T>(a: seq<T>, b: seq<T>, idOf: T -> string, id: string)
    ensures WithoutId(a + b, idOf, id) == WithoutId(a, idOf, id) + WithoutId(b, idOf, id)
  {
    if a == [] {
      assert a + b == b;
    } else {
      assert (a + b)[1..] == a[1..] + b;
      WithoutIdAppend(a[1..], b, idOf, id);
    }
  }

  /** A list holding no element with the id is left exactly as it was. */
  lemma {:induction false} WithoutIdAbsent<T>(s: seq<T>, idOf: T -> string, id: string)
    requires forall j :: 0 <= j < |s| ==> idOf(s[j]) != id
    ensures WithoutId(s, idOf, id) == s
  {
    if s != [] {
      WithoutIdAbsent(s[1..], idOf, id);
    }
  }

  /** Exactly the elements carrying the id are dropped. */
  lemma {:induction false} WithoutIdLength<T>(s: seq<T>, idOf: T -> string, id: string, hasId: T -> bool)
    requires forall x :: hasId(x) == (idOf(x) == id)
    ensures |WithoutId(s, idOf, id)| == |s| - CountWhere(s, hasId)
  {
    if s != [] {
      WithoutIdLength(s[1..], idOf, id, hasId);
    }
  }

  /** `s.filter(p).length`. */
  function CountWhere<T>(s: seq<T>, p: T -> bool): (n: nat)
    ensures n <= |s|
    ensures n == 0 <==> forall j :: 0 <= j < |s| ==> !p(s[j])
    ensures n == |s| <==> forall j :: 0 <= j < |s| ==> p(s[j])
  {
    if s == [] then 0 else (if p(s[0]) then 1 else 0) + CountWhere(s[1..], p)
  }

  /** Counting is additive over concatenation. */
  lemma {:induction false} CountWhereAppend<T>(a: seq<T>, b: seq<T>, p: T -> bool)
    ensures CountWhere(a + b, p) == CountWhere(a, p) + CountWhere(b, p)
  {
    if a == [] {
      assert a + b == b;
    } else {
      assert (a + b)[1..] == a[1..] + b;
      CountWhereAppend(a[1..], b, p);
    }
  }

  /** Every element is counted by exactly one of a predicate and its negation. */
  lemma {:induction false} CountWhereComplement<T>(s: seq<T>, p: T -> bool, q: T -> bool)
    requires forall x :: q(x) == !p(x)
    ensures CountWhere(s, p) + CountWhere(s, q) == |s|
  {
    if s != [] {
      CountWhereComplement(s[1..], p, q);
    }
  }
}
