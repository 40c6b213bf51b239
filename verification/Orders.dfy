/** Orders, a stable sort, and the sequence facts the other modules share. */
module Orders {

  /** `leq` is total and transitive: enough to sort by, ties allowed. */
  ghost predicate TotalPreorder<T(!new)>(leq: (T, T) -> bool) {
    && (forall x, y :: leq(x, y) || leq(y, x))
    && (forall x, y, z :: leq(x, y) && leq(y, z) ==> leq(x, z))
  }

  ghost predicate TotalOrder<T(!new)>(leq: (T, T) -> bool) {
    && TotalPreorder(leq)
    && (forall x, y :: leq(x, y) && leq(y, x) ==> x == y)
  }

  ghost predicate SortedBy<T>(leq: (T, T) -> bool, s: seq<T>) {
    forall i, j | 0 <= i < j < |s| :: leq(s[i], s[j])
  }

  // ----- lexicographic order -----

  predicate LexLeq<T(==)>(leq: (T, T) -> bool, a: seq<T>, b: seq<T>) {
    if a == [] then true
    else if b == [] then false
    else if a[0] == b[0] then LexLeq(leq, a[1..], b[1..])
    else leq(a[0], b[0])
  }

  predicate CharLeq(a: char, b: char) { a <= b }

  /** Code-point order on strings. */
  predicate StringLeq(a: string, b: string) { LexLeq(CharLeq, a, b) }

  /** Lexicographic order on lists of strings. */
  predicate LabelsLeq(a: seq<string>, b: seq<string>) { LexLeq(StringLeq, a, b) }

  lemma {:induction false} LexTotal<T(!new)>(leq: (T, T) -> bool, a: seq<T>, b: seq<T>)
    requires TotalOrder(leq)
    ensures LexLeq(leq, a, b) || LexLeq(leq, b, a)
    ensures LexLeq(leq, a, b) && LexLeq(leq, b, a) ==> a == b
  {
    if a != [] && b != [] {
      if a[0] == b[0] {
        LexTotal(leq, a[1..], b[1..]);
        assert a == [a[0]] + a[1..] && b == [b[0]] + b[1..];
      }
    }
  }

  lemma {:induction false} LexTransitive<T(!new)>(leq: (T, T) -> bool, a: seq<T>, b: seq<T>, c: seq<T>)
    requires TotalOrder(leq)
    requires LexLeq(leq, a, b) && LexLeq(leq, b, c)
    ensures LexLeq(leq, a, c)
  {
    if a != [] && a[0] == b[0] == c[0] {
      LexTransitive(leq, a[1..], b[1..], c[1..]);
    }
  }

  /** Lexicographic comparison by a total order is a total order. */
  lemma LexIsTotalOrder<T(!new)>(leq: (T, T) -> bool, lex: (seq<T>, seq<T>) -> bool)
    requires TotalOrder(leq)
    requires forall a, b :: lex(a, b) == LexLeq(leq, a, b)
    ensures TotalOrder(lex)
  {
    forall a, b ensures (lex(a, b) || lex(b, a)) && (lex(a, b) && lex(b, a) ==> a == b) {
      LexTotal(leq, a, b);
    }
    forall a, b, c | lex(a, b) && lex(b, c) ensures lex(a, c) {
      LexTransitive(leq, a, b, c);
    }
  }

  lemma StringOrders()
    ensures TotalOrder(StringLeq) && TotalOrder(LabelsLeq)
  {
    assert TotalOrder(CharLeq);
    LexIsTotalOrder(CharLeq, StringLeq);
    LexIsTotalOrder(StringLeq, LabelsLeq);
  }

  // ----- stable insertion sort -----

  /** `x` goes before the first element it does not exceed, so earlier elements stay earlier among ties. */
  function Insert<T>(leq: (T, T) -> bool, x: T, s: seq<T>): (r: seq<T>)
    ensures multiset(r) == multiset{x} + multiset(s)
  {
    if s == [] then [x]
    else if leq(x, s[0]) then [x] + s
    else
      assert s == [s[0]] + s[1..];
      [s[0]] + Insert(leq, x, s[1..])
  }

  /** The result of a stable sort. */
  function SortBy<T>(leq: (T, T) -> bool, s: seq<T>): (r: seq<T>)
    ensures multiset(r) == multiset(s)
    ensures |r| == |s|
  {
    if s == [] then []
    else
      assert s == [s[0]] + s[1..];
      var r := Insert(leq, s[0], SortBy(leq, s[1..]));
      assert |multiset(r)| == |multiset(s)|;
      r
  }

  lemma {:induction false} InsertSorted<T(!new)>(leq: (T, T) -> bool, x: T, s: seq<T>)
    requires TotalPreorder(leq) && SortedBy(leq, s)
    ensures SortedBy(leq, Insert(leq, x, s))
  {
    if s != [] && !leq(x, s[0]) {
      InsertSorted(leq, x, s[1..]);
      var r := Insert(leq, x, s[1..]);
      forall k | 0 <= k < |r| ensures leq(s[0], r[k]) {
        assert r[k] in multiset(r);
        assert r[k] == x || r[k] in s[1..];
      }
    } else if s != [] {
      forall k | 0 <= k < |s| ensures leq(x, s[k]) {
        assert k == 0 || leq(s[0], s[k]);
      }
    }
  }

  lemma {:induction false} SortBySorts<T(!new)>(leq: (T, T) -> bool, s: seq<T>)
    requires TotalPreorder(leq)
    ensures SortedBy(leq, SortBy(leq, s))
  {
    if s != [] {
      SortBySorts(leq, s[1..]);
      InsertSorted(leq, s[0], SortBy(leq, s[1..]));
    }
  }

  lemma SortByPair<T>(leq: (T, T) -> bool, a: T, b: T)
    ensures SortBy(leq, [a, b]) == if leq(a, b) then [a, b] else [b, a]
  {
    assert [a, b][1..] == [b] && [b][1..] == [];
    assert SortBy(leq, [b]) == [b];
    assert Insert(leq, a, []) == [a];
  }

  lemma MultisetWithout<T>(s: seq<T>, k: nat)
    requires k < |s|
    ensures multiset(s[..k] + s[k + 1..]) == multiset(s) - multiset{s[k]}
  {
    assert s == s[..k] + [s[k]] + s[k + 1..];
  }

  lemma SortedHeadsAgree<T(!new)>(leq: (T, T) -> bool, a: seq<T>, b: seq<T>)
    requires a != [] && b != []
    requires SortedBy(leq, a) && SortedBy(leq, b)
    requires multiset(a) == multiset(b)
    requires Separates(leq, multiset(a))
    ensures a[0] == b[0]
  {
    var x, y := a[0], b[0];
    assert x in multiset(b) && y in multiset(a);
    var i :| 0 <= i < |b| && b[i] == x;
    var j :| 0 <= j < |a| && a[j] == y;
    if i > 0 && j > 0 {
      assert leq(x, y) && leq(y, x);
    }
  }

  lemma SortedTail<T>(leq: (T, T) -> bool, s: seq<T>)
    requires s != [] && SortedBy(leq, s)
    ensures SortedBy(leq, s[1..])
    ensures multiset(s[1..]) == multiset(s) - multiset{s[0]} <= multiset(s)
  {
    assert s == [s[0]] + s[1..];
  }

  lemma SameHeadAndTail<T>(a: seq<T>, b: seq<T>)
    requires a != [] && b != [] && a[0] == b[0] && a[1..] == b[1..]
    ensures a == b
  {
    assert a == [a[0]] + a[1..] && b == [b[0]] + b[1..];
  }

  lemma SeparatesFewer<T(!new)>(leq: (T, T) -> bool, m: multiset<T>, n: multiset<T>)
    requires Separates(leq, m) && n <= m
    ensures Separates(leq, n)
  {
  }

  /** Where `leq` tells apart the elements present, there is only one sorted arrangement of them. */
  lemma {:induction false} SortedUnique<T(!new)>(leq: (T, T) -> bool, a: seq<T>, b: seq<T>)
    requires SortedBy(leq, a) && SortedBy(leq, b)
    requires multiset(a) == multiset(b)
    requires Separates(leq, multiset(a))
    ensures a == b
    decreases |a|
  {
    assert |a| == |multiset(a)| == |multiset(b)| == |b|;
    if a != [] {
      SortedHeadsAgree(leq, a, b);
      SortedTail(leq, a);
      SortedTail(leq, b);
      SeparatesFewer(leq, multiset(a), multiset(a[1..]));
      SortedUnique(leq, a[1..], b[1..]);
      SameHeadAndTail(a, b);
    }
  }

  /** `leq` never ties two different elements of `m`. */
  ghost predicate Separates<T(!new)>(leq: (T, T) -> bool, m: multiset<T>) {
    forall x, y | x in m && y in m && leq(x, y) && leq(y, x) :: x == y
  }

  /** A stable sort of a list whose elements come in `tie` order leaves ties in `tie` order. */
  lemma {:induction false} SortByStable<T(!new)>(leq: (T, T) -> bool, tie: (T, T) -> bool, s: seq<T>)
    requires TotalPreorder(leq) && SortedBy(tie, s)
    ensures forall i, j | 0 <= i < j < |s| ::
              leq(SortBy(leq, s)[j], SortBy(leq, s)[i]) ==> tie(SortBy(leq, s)[i], SortBy(leq, s)[j])
  {
    if s != [] {
      var r := SortBy(leq, s[1..]);
      SortByStable(leq, tie, s[1..]);
      SortBySorts(leq, s[1..]);
      forall k | 0 <= k < |r| ensures tie(s[0], r[k]) {
        assert r[k] in multiset(r);
        assert r[k] in s[1..];
      }
      InsertStable(leq, tie, s[0], r);
    }
  }

  lemma {:induction false} InsertStable<T(!new)>(leq: (T, T) -> bool, tie: (T, T) -> bool, x: T, s: seq<T>)
    requires TotalPreorder(leq) && SortedBy(leq, s)
    requires forall k | 0 <= k < |s| :: tie(x, s[k])
    requires forall i, j | 0 <= i < j < |s| :: leq(s[j], s[i]) ==> tie(s[i], s[j])
    ensures |Insert(leq, x, s)| == |s| + 1
    ensures forall i, j | 0 <= i < j <= |s| ::
              leq(Insert(leq, x, s)[j], Insert(leq, x, s)[i]) ==> tie(Insert(leq, x, s)[i], Insert(leq, x, s)[j])
  {
    if s != [] && !leq(x, s[0]) {
      InsertStable(leq, tie, x, s[1..]);
      var r := Insert(leq, x, s[1..]);
      assert Insert(leq, x, s) == [s[0]] + r;
      forall j | 0 <= j < |r| && leq(r[j], s[0]) ensures tie(s[0], r[j]) {
        assert r[j] in multiset(r);
        if r[j] != x {
          assert r[j] in s[1..];
          var k :| 0 <= k < |s[1..]| && s[1..][k] == r[j];
          assert s[k + 1] == r[j];
        }
      }
    }
  }

  // ----- mapping, summing and picking -----

  function Map<T, U>(f: T -> U, s: seq<T>): (r: seq<U>)
    ensures |r| == |s| && forall i | 0 <= i < |s| :: r[i] == f(s[i])
  {
    seq(|s|, i requires 0 <= i < |s| => f(s[i]))
  }

  lemma MapConcat<T, U>(f: T -> U, a: seq<T>, b: seq<T>)
    ensures Map(f, a + b) == Map(f, a) + Map(f, b)
  {
  }

  function SumBy<T>(f: T -> real, s: seq<T>): real {
    if s == [] then 0.0 else SumBy(f, s[..|s| - 1]) + f(s[|s| - 1])
  }

  /** The elements at the positions in `at`, in order. */
  function Pick<T>(s: seq<T>, at: set<nat>): seq<T> {
    if s == [] then []
    else Pick(s[..|s| - 1], at) + (if |s| - 1 in at then [s[|s| - 1]] else [])
  }

  lemma {:induction false} PickNothing<T>(s: seq<T>)
    ensures Pick(s, {}) == []
  {
    if s != [] { PickNothing(s[..|s| - 1]); }
  }

  lemma {:induction false} PickMap<T, U>(f: T -> U, s: seq<T>, at: set<nat>)
    ensures Map(f, Pick(s, at)) == Pick(Map(f, s), at)
  {
    if s != [] {
      PickMap(f, s[..|s| - 1], at);
      assert Map(f, s)[..|s| - 1] == Map(f, s[..|s| - 1]);
    }
  }

  /** Only positions inside the list matter. */
  lemma {:induction false} PickWithin<T>(s: seq<T>, at: set<nat>, other: set<nat>)
    requires forall p: nat | p < |s| :: p in at <==> p in other
    ensures Pick(s, at) == Pick(s, other)
  {
    if s != [] { PickWithin(s[..|s| - 1], at, other); }
  }

  lemma {:induction false} PickSize<T>(s: seq<T>, at: set<nat>)
    requires forall p | p in at :: p < |s|
    ensures |Pick(s, at)| == |at|
  {
    if s == [] {
      assert at == {};
    } else {
      var last := |s| - 1;
      PickWithin(s[..last], at, at - {last});
      PickSize(s[..last], at - {last});
    }
  }

  lemma {:induction false} PickMonotone<T>(s: seq<T>, few: set<nat>, many: set<nat>)
    requires few <= many
    ensures multiset(Pick(s, few)) <= multiset(Pick(s, many))
  {
    if s != [] { PickMonotone(s[..|s| - 1], few, many); }
  }

  lemma {:induction false} PickSub<T>(s: seq<T>, at: set<nat>)
    ensures multiset(Pick(s, at)) <= multiset(s)
  {
    if s != [] {
      PickSub(s[..|s| - 1], at);
      MultisetLast(s);
    }
  }

  lemma {:induction false} PickPrefix<T>(s: seq<T>, k: nat, at: set<nat>)
    requires k <= |s| && forall p | p in at :: p < k
    ensures Pick(s, at) == Pick(s[..k], at)
  {
    if |s| > k {
      PickPrefix(s[..|s| - 1], k, at);
      assert s[..|s| - 1][..k] == s[..k];
    } else {
      assert s[..k] == s;
    }
  }

  /** A sum over picked positions splits over any division of the positions. */
  lemma {:induction false} SumPickSplits<T>(f: T -> real, s: seq<T>, at: set<nat>, part: set<nat>)
    ensures SumBy(f, Pick(s, at)) == SumBy(f, Pick(s, at * part)) + SumBy(f, Pick(s, at - part))
  {
    if s != [] {
      SumPickSplits(f, s[..|s| - 1], at, part);
      SumPickStep(f, s, at);
      SumPickStep(f, s, at * part);
      SumPickStep(f, s, at - part);
    }
  }

  lemma SumPickStep<T>(f: T -> real, s: seq<T>, at: set<nat>)
    requires s != []
    ensures SumBy(f, Pick(s, at)) == SumBy(f, Pick(s[..|s| - 1], at)) + (if |s| - 1 in at then f(s[|s| - 1]) else 0.0)
  {
    var init := Pick(s[..|s| - 1], at);
    SumAppend(f, init, s[|s| - 1]);
    assert init + [] == init;
  }

  lemma SumAppend<T>(f: T -> real, s: seq<T>, x: T)
    ensures SumBy(f, s + [x]) == SumBy(f, s) + f(x)
  {
    assert (s + [x])[..|s|] == s;
  }

  lemma {:induction false} SumNonNegative<T>(f: T -> real, s: seq<T>)
    requires forall x | x in s :: f(x) >= 0.0
    ensures SumBy(f, s) >= 0.0
  {
    if s != [] { SumNonNegative(f, s[..|s| - 1]); }
  }

  /** `n` times an amount. */
  function Times(n: nat, amount: real): real { n as real * amount }

  lemma {:induction false} SumAtMost<T>(f: T -> real, s: seq<T>, bound: real)
    requires forall x | x in s :: f(x) <= bound
    ensures SumBy(f, s) <= Times(|s|, bound)
  {
    if s != [] {
      SumAtMost(f, s[..|s| - 1], bound);
      assert Times(|s|, bound) == Times(|s| - 1, bound) + bound;
    }
  }

  lemma {:induction false} SumRemove<T>(f: T -> real, s: seq<T>, k: nat)
    requires k < |s|
    ensures SumBy(f, s) == SumBy(f, s[..k] + s[k + 1..]) + f(s[k])
  {
    if k == |s| - 1 {
      assert s[..k] + s[k + 1..] == s[..k];
    } else {
      var last := |s| - 1;
      SumRemove(f, s[..last], k);
      assert s[..last][..k] == s[..k];
      assert s[..k] + s[k + 1..] == (s[..k] + s[..last][k + 1..]) + [s[last]];
      SumAppend(f, s[..k] + s[..last][k + 1..], s[last]);
    }
  }

  /** A sum does not depend on the order of its terms. */
  lemma {:induction false} SumPermutes<T>(f: T -> real, a: seq<T>, b: seq<T>)
    requires multiset(a) == multiset(b)
    ensures SumBy(f, a) == SumBy(f, b)
  {
    assert |a| == |multiset(a)| == |multiset(b)| == |b|;
    if a != [] {
      var init, x := a[..|a| - 1], a[|a| - 1];
      assert a == init + [x];
      assert x in multiset(b);
      var k :| 0 <= k < |b| && b[k] == x;
      MultisetWithout(b, k);
      assert multiset(init) == multiset(a) - multiset{x};
      SumPermutes(f, init, b[..k] + b[k + 1..]);
      SumRemove(f, b, k);
    }
  }

  lemma MapTakeOut<T, U>(f: T -> U, s: seq<T>, x: T) returns (rest: seq<T>)
    requires x in s
    ensures |rest| < |s| && multiset(rest) == multiset(s) - multiset{x}
    ensures multiset(Map(f, s)) == multiset(Map(f, rest)) + multiset{f(x)}
  {
    var k :| 0 <= k < |s| && s[k] == x;
    rest := s[..k] + s[k + 1..];
    MultisetWithout(s, k);
    var m := Map(f, s);
    assert Map(f, rest) == m[..k] + m[k + 1..];
    assert m == m[..k] + [f(x)] + m[k + 1..];
  }

  lemma {:induction false} MapPermutes<T, U>(f: T -> U, a: seq<T>, b: seq<T>)
    requires multiset(a) == multiset(b)
    ensures multiset(Map(f, a)) == multiset(Map(f, b))
    decreases |a|
  {
    if a == [] {
      assert |b| == |multiset(b)| == 0;
    } else {
      var x := a[0];
      assert x in multiset(b);
      var restA := MapTakeOut(f, a, x);
      var restB := MapTakeOut(f, b, x);
      MapPermutes(f, restA, restB);
    }
  }

  lemma MultisetLast<T>(s: seq<T>)
    requires s != []
    ensures multiset(s) == multiset(s[..|s| - 1]) + multiset{s[|s| - 1]}
  {
    assert s == s[..|s| - 1] + [s[|s| - 1]];
  }

  lemma SubMultisetSplit<T>(part: multiset<T>, m: multiset<T>, x: T)
    requires part <= m + multiset{x}
    ensures if x in part then part - multiset{x} <= m && part == (part - multiset{x}) + multiset{x} else part <= m
  {
  }

  /** Picking the last position as well adds the last element. */
  lemma PickLast<T>(s: seq<T>, at: set<nat>, last: nat)
    requires last == |s| - 1 && forall p | p in at :: p < last
    ensures Pick(s, at) == Pick(s[..last], at)
    ensures Pick(s, at + {last}) == Pick(s[..last], at) + [s[last]]
  {
    PickWithin(s[..last], at, at + {last});
  }

  function Without<T>(part: multiset<T>, x: T): multiset<T> { part - multiset{x} }

  lemma PartOfInit<T>(s: seq<T>, part: multiset<T>)
    requires s != [] && part <= multiset(s)
    ensures Without(part, s[|s| - 1]) <= multiset(s[..|s| - 1])
    ensures s[|s| - 1] in part ==> part == Without(part, s[|s| - 1]) + multiset{s[|s| - 1]}
    ensures s[|s| - 1] !in part ==> part == Without(part, s[|s| - 1])
  {
    MultisetLast(s);
    SubMultisetSplit(part, multiset(s[..|s| - 1]), s[|s| - 1]);
  }

  lemma PickOneMore<T>(s: seq<T>, rest: set<nat>, last: nat, part: multiset<T>) returns (at: set<nat>)
    requires last == |s| - 1 && (forall p | p in rest :: p < last) && part <= multiset(s)
    requires multiset(Pick(s[..last], rest)) == Without(part, s[last])
    ensures (forall p | p in at :: p <= last) && multiset(Pick(s, at)) == part
  {
    PartOfInit(s, part);
    PickLast(s, rest, last);
    at := if s[last] in part then rest + {last} else rest;
  }

  /** Every sub-multiset of a list can be picked from it. */
  lemma {:induction false} PickAny<T>(s: seq<T>, part: multiset<T>) returns (at: set<nat>)
    requires part <= multiset(s)
    ensures (forall p | p in at :: p < |s|) && multiset(Pick(s, at)) == part
    decreases |s|
  {
    if s == [] {
      return {};
    }
    PartOfInit(s, part);
    var rest := PickAny(s[..|s| - 1], Without(part, s[|s| - 1]));
    at := PickOneMore(s, rest, |s| - 1, part);
  }

  // ----- concatenating the images of a list -----

  function FlatMap<T, U>(f: T -> seq<U>, s: seq<T>): seq<U> {
    if s == [] then [] else FlatMap(f, s[..|s| - 1]) + f(s[|s| - 1])
  }

  lemma {:induction false} FlatMapWithout<T, U>(f: T -> seq<U>, s: seq<T>, k: nat)
    requires k < |s|
    ensures multiset(FlatMap(f, s)) == multiset(FlatMap(f, s[..k] + s[k + 1..])) + multiset(f(s[k]))
  {
    var last := |s| - 1;
    if k == last {
      assert s[..k] + s[k + 1..] == s[..k];
    } else {
      FlatMapWithout(f, s[..last], k);
      WithoutInit(s, k);
    }
  }

  lemma WithoutInit<T>(s: seq<T>, k: nat)
    requires k < |s| - 1
    ensures var rest := s[..k] + s[k + 1..];
            && rest != [] && rest[|rest| - 1] == s[|s| - 1]
            && rest[..|rest| - 1] == s[..|s| - 1][..k] + s[..|s| - 1][k + 1..]
  {
  }

  lemma FlatMapTakeOut<T, U>(f: T -> seq<U>, s: seq<T>, x: T) returns (rest: seq<T>)
    requires x in s
    ensures |rest| < |s| && multiset(rest) == multiset(s) - multiset{x}
    ensures multiset(FlatMap(f, s)) == multiset(FlatMap(f, rest)) + multiset(f(x))
  {
    var k :| 0 <= k < |s| && s[k] == x;
    rest := s[..k] + s[k + 1..];
    MultisetWithout(s, k);
    FlatMapWithout(f, s, k);
  }

  /** Permuting a list permutes the concatenation of its images. */
  lemma {:induction false} FlatMapPermutes<T, U>(f: T -> seq<U>, a: seq<T>, b: seq<T>)
    requires multiset(a) == multiset(b)
    ensures multiset(FlatMap(f, a)) == multiset(FlatMap(f, b))
    decreases |a|
  {
    if a == [] {
      assert |b| == |multiset(b)| == 0;
    } else {
      var x := a[0];
      assert x in multiset(b);
      var restA := FlatMapTakeOut(f, a, x);
      var restB := FlatMapTakeOut(f, b, x);
      FlatMapPermutes(f, restA, restB);
    }
  }
}
