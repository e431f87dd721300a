/** `list.sort(key=...)`: a stable sort, and what stability pins down. */
module StableSort {

  function Without<T>(s: seq<T>, i: nat): seq<T>
    requires i < |s|
  {
    s[..i] + s[i + 1..]
  }

  lemma WithoutOne<T>(s: seq<T>, i: nat)
    requires i < |s|
    ensures multiset(Without(s, i)) == multiset(s) - multiset{s[i]}
  {
    assert s == s[..i] + [s[i]] + s[i + 1..];
  }

  /** In a permutation the head of one sequence stands somewhere in the other; without it they still match. */
  lemma MatchHead<T>(p: seq<T>, q: seq<T>) returns (j: nat)
    requires p != [] && multiset(p) == multiset(q)
    ensures j < |q| && q[j] == p[0] && |p| == |q|
    ensures multiset(p[1..]) == multiset(Without(q, j))
  {
    assert |p| == |multiset(p)| && |q| == |multiset(q)|;
    assert p[0] in multiset(q);
    j :| 0 <= j < |q| && q[j] == p[0];
    WithoutOne(p, 0);
    WithoutOne(q, j);
    assert Without(p, 0) == p[1..];
  }

  /** Two links of the order make a chain; naming it keeps the solver from chaining on its own. */
  predicate Chains<T>(le: (T, T) -> bool, a: T, b: T, c: T) {
    le(a, b) && le(b, c) ==> le(a, c)
  }

  ghost predicate TotalPreorder<T(!new)>(le: (T, T) -> bool) {
    && (forall a, b :: le(a, b) || le(b, a))
    && (forall a, b, c :: Chains(le, a, b, c))
  }

  /** `x` may stand before every element of `s`. */
  predicate Below<T>(x: T, s: seq<T>, le: (T, T) -> bool) {
    forall i | 0 <= i < |s| :: le(x, s[i])
  }

  predicate Sorted<T>(s: seq<T>, le: (T, T) -> bool) {
    s == [] || (Below(s[0], s[1..], le) && Sorted(s[1..], le))
  }

  lemma {:induction false} SortedAt<T>(s: seq<T>, le: (T, T) -> bool, i: nat, j: nat)
    requires Sorted(s, le) && i < j < |s|
    ensures le(s[i], s[j])
  {
    if i > 0 {
      SortedAt(s[1..], le, i - 1, j - 1);
    } else {
      assert s[1..][j - 1] == s[j];
    }
  }

  function Insert<T>(x: T, s: seq<T>, le: (T, T) -> bool): seq<T> {
    if s == [] || le(x, s[0]) then [x] + s else [s[0]] + Insert(x, s[1..], le)
  }

  function Sort<T>(s: seq<T>, le: (T, T) -> bool): seq<T> {
    if s == [] then [] else Insert(s[0], Sort(s[1..], le), le)
  }

  lemma {:induction false} InsertPermutes<T>(x: T, s: seq<T>, le: (T, T) -> bool)
    ensures multiset(Insert(x, s, le)) == multiset(s) + multiset{x}
  {
    if s != [] {
      assert s == [s[0]] + s[1..];
      if !le(x, s[0]) { InsertPermutes(x, s[1..], le); }
    }
  }

  lemma {:induction false} InsertBelow<T>(y: T, x: T, s: seq<T>, le: (T, T) -> bool)
    requires Below(y, s, le) && le(y, x)
    ensures Below(y, Insert(x, s, le), le)
  {
    if s != [] && !le(x, s[0]) {
      assert le(y, s[0]);
      InsertBelow(y, x, s[1..], le);
    }
  }

  lemma {:induction false} InsertSorts<T(!new)>(x: T, s: seq<T>, le: (T, T) -> bool)
    requires TotalPreorder(le) && Sorted(s, le)
    ensures Sorted(Insert(x, s, le), le)
  {
    if s == [] {
      assert [x][1..] == [];
    } else if le(x, s[0]) {
      assert ([x] + s)[1..] == s;
      forall i | 0 <= i < |s| ensures le(x, s[i]) {
        assert i == 0 || s[i] == s[1..][i - 1];
        assert Chains(le, x, s[0], s[i]);
      }
    } else {
      InsertSorts(x, s[1..], le);
      InsertBelow(s[0], x, s[1..], le);
      assert Insert(x, s, le)[1..] == Insert(x, s[1..], le);
    }
  }

  /** Sorting yields an ordered permutation of the input. */
  lemma {:induction false} SortIsSortedPermutation<T(!new)>(s: seq<T>, le: (T, T) -> bool)
    requires TotalPreorder(le)
    ensures Sorted(Sort(s, le), le)
    ensures multiset(Sort(s, le)) == multiset(s)
  {
    if s != [] {
      SortIsSortedPermutation(s[1..], le);
      InsertSorts(s[0], Sort(s[1..], le), le);
      InsertPermutes(s[0], Sort(s[1..], le), le);
      assert s == [s[0]] + s[1..];
    }
  }

  /** The elements tied with `k`, in order. */
  function Ties<T>(s: seq<T>, k: T, le: (T, T) -> bool): seq<T> {
    if s == [] then []
    else if le(s[0], k) && le(k, s[0]) then [s[0]] + Ties(s[1..], k, le)
    else Ties(s[1..], k, le)
  }

  lemma {:induction false} TiesOfConcatenation<T>(s: seq<T>, t: seq<T>, k: T, le: (T, T) -> bool)
    ensures Ties(s + t, k, le) == Ties(s, k, le) + Ties(t, k, le)
  {
    if s == [] {
      assert s + t == t;
    } else {
      assert (s + t)[1..] == s[1..] + t;
      TiesOfConcatenation(s[1..], t, k, le);
    }
  }

  lemma {:induction false} InsertTies<T(!new)>(x: T, s: seq<T>, k: T, le: (T, T) -> bool)
    requires TotalPreorder(le)
    ensures Ties(Insert(x, s, le), k, le) == Ties([x] + s, k, le)
  {
    if s != [] && !le(x, s[0]) {
      var y, rest := s[0], s[1..];
      InsertTies(x, rest, k, le);
      TiesOfConcatenation([y], Insert(x, rest, le), k, le);
      TiesOfConcatenation([x], rest, k, le);
      TiesOfConcatenation([x], s, k, le);
      TiesOfConcatenation([y], rest, k, le);
      assert [y] + rest == s;
      assert Chains(le, x, k, y);
      assert Ties([x], k, le) == [] || Ties([y], k, le) == [];
    }
  }

  /** Stability: elements with tied keys keep their order. */
  lemma {:induction false} SortIsStable<T(!new)>(s: seq<T>, k: T, le: (T, T) -> bool)
    requires TotalPreorder(le)
    ensures Ties(Sort(s, le), k, le) == Ties(s, k, le)
  {
    if s != [] {
      SortIsStable(s[1..], k, le);
      InsertTies(s[0], Sort(s[1..], le), k, le);
      TiesOfConcatenation([s[0]], Sort(s[1..], le), k, le);
      TiesOfConcatenation([s[0]], s[1..], k, le);
      assert s == [s[0]] + s[1..];
    }
  }

  lemma {:induction false} SortOfSorted<T>(s: seq<T>, le: (T, T) -> bool)
    requires Sorted(s, le)
    ensures Sort(s, le) == s
  {
    if s != [] {
      SortOfSorted(s[1..], le);
      assert s == [s[0]] + s[1..];
      assert s[1..] == [] || le(s[0], s[1..][0]);
    }
  }

  /** Among the elements of `s`, only equal ones are tied. */
  ghost predicate OnlyEqualTies<T>(s: seq<T>, le: (T, T) -> bool) {
    forall a, b | a in s && b in s && le(a, b) && le(b, a) :: a == b
  }

  lemma SortedHead<T(!new)>(s: seq<T>, y: T, le: (T, T) -> bool)
    requires TotalPreorder(le) && Sorted(s, le) && y in s
    ensures le(s[0], y)
  {
    var i :| 0 <= i < |s| && s[i] == y;
    if i > 0 { assert s[1..][i - 1] == y; }
  }

  /** Two ordered permutations of one another are equal when only equal elements are tied. */
  lemma {:induction false} SortedPermutationsAgree<T(!new)>(s: seq<T>, t: seq<T>, le: (T, T) -> bool)
    requires TotalPreorder(le) && Sorted(s, le) && Sorted(t, le) && multiset(s) == multiset(t)
    requires OnlyEqualTies(s, le)
    ensures s == t
  {
    assert |s| == |multiset(s)| && |t| == |multiset(t)|;
    if s != [] {
      assert s[0] in multiset(t) && t[0] in multiset(s);
      SortedHead(s, t[0], le);
      SortedHead(t, s[0], le);
      assert s == [s[0]] + s[1..] && t == [t[0]] + t[1..];
      SameTail(s, t);
      SortedPermutationsAgree(s[1..], t[1..], le);
    }
  }

  lemma SameTail<T>(s: seq<T>, t: seq<T>)
    requires s != [] && t != [] && s[0] == t[0] && multiset(s) == multiset(t)
    ensures multiset(s[1..]) == multiset(t[1..])
  {
    assert s == [s[0]] + s[1..] && t == [t[0]] + t[1..];
    assert multiset(s[1..]) == multiset(s) - multiset{s[0]};
    assert multiset(t[1..]) == multiset(t) - multiset{t[0]};
  }
}
