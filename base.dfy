/** Shared vocabulary of the model: optional values, the outcome of a network
    call, counting over sequences, filtering, and the few string operations the
    backend and the frontend rely on. */
module Base {

  datatype Option<+T> = None | Some(value: T) {
    function GetOr(default: T): T {
      match this
      case Some(v) => v
      case None => default
    }
  }

  /** The outcome of one awaited API call: the decoded body, or the message
      of the error it threw. */
  datatype Fetch<+T> = Loaded(value: T) | FetchFailed(message: string)

  // ---------------------------------------------------------------------
  // Counting

  /** Number of occurrences of `x` in `xs`. */
  function Count<T(==)>(xs: seq<T>, x: T): nat
  {
    if xs == [] then 0 else (if xs[0] == x then 1 else 0) + Count(xs[1..], x)
  }

  lemma {:induction false} CountAppend<T>(xs: seq<T>, ys: seq<T>, x: T)
    ensures Count(xs + ys, x) == Count(xs, x) + Count(ys, x)
  {
    if xs == [] {
      assert xs + ys == ys;
    } else {
      assert (xs + ys)[1..] == xs[1..] + ys;
      CountAppend(xs[1..], ys, x);
    }
  }

  lemma {:induction false} CountPositiveIsMember<T>(xs: seq<T>, x: T)
    ensures Count(xs, x) > 0 <==> x in xs
  {
    if xs != [] {
      CountPositiveIsMember(xs[1..], x);
      assert x in xs <==> xs[0] == x || x in xs[1..];
    }
  }

  function Elements<T>(xs: seq<T>): set<T>
  {
    set x | x in xs
  }

  /** A counter over `xs`: every key of `base` and every element of `xs`
      is a key, and each key maps to its number of occurrences in `xs`. */
  function Tally<T(==)>(xs: seq<T>, base: set<T>): (m: map<T, nat>)
    ensures m.Keys == base + Elements(xs)
    ensures forall k | k in m :: m[k] == Count(xs, k)
  {
    map k | k in base + Elements(xs) :: Count(xs, k)
  }

  /** Adding one element to the counted sequence increments exactly its key. */
  lemma TallySnoc<T>(xs: seq<T>, x: T, base: set<T>)
    ensures Tally(xs + [x], base) == Tally(xs, base)[x := (if x in Tally(xs, base) then Tally(xs, base)[x] else 0) + 1]
  {
    var before, after := Tally(xs, base), Tally(xs + [x], base);
    var expected := before[x := (if x in before then before[x] else 0) + 1];
    assert Elements(xs + [x]) == Elements(xs) + {x};
    forall k | k in after
      ensures after[k] == expected[k]
    {
      CountAppend(xs, [x], k);
      if k != x && k !in before {
        CountPositiveIsMember(xs + [x], k);
      }
      if k == x && x !in before {
        CountPositiveIsMember(xs, x);
      }
    }
  }

  /** Counting in one pass, as a loop over `xs` does: starting from `m`,
      each element adds one to its key. */
  function CountInto<T>(xs: seq<T>, m: map<T, nat>): map<T, nat>
  {
    if xs == [] then m
    else
      var before := CountInto(xs[..|xs| - 1], m);
      var x := xs[|xs| - 1];
      before[x := (if x in before then before[x] else 0) + 1]
  }

  lemma CountIntoSnoc<T>(xs: seq<T>, x: T, m: map<T, nat>)
    ensures var before := CountInto(xs, m);
      CountInto(xs + [x], m) == before[x := (if x in before then before[x] else 0) + 1]
  {
    assert (xs + [x])[..|xs|] == xs;
  }

  /** Counting in one pass from zero counts for `base` builds the counter. */
  lemma {:induction false} CountIntoIsTally<T>(xs: seq<T>, base: set<T>)
    ensures CountInto(xs, Tally([], base)) == Tally(xs, base)
  {
    if xs != [] {
      var init, prefix, x := Tally([], base), xs[..|xs| - 1], xs[|xs| - 1];
      CountIntoIsTally(prefix, base);
      assert xs == prefix + [x];
      TallySnoc(prefix, x, base);
    }
  }

  predicate Distinct<T(==)>(xs: seq<T>)
  {
    forall i, j | 0 <= i < j < |xs| :: xs[i] != xs[j]
  }

  /** The distinct elements of `xs` in order of first occurrence (the key
      order of a Python dict or Counter built from `xs`). */
  function Dedup<T(==,!new)>(xs: seq<T>): (r: seq<T>)
    ensures Distinct(r)
    ensures forall x :: x in r <==> x in xs
  {
    if xs == [] then []
    else
      var d := Dedup(xs[..|xs| - 1]);
      assert forall x :: x in xs <==> x in xs[..|xs| - 1] || x == xs[|xs| - 1] by {
        assert xs == xs[..|xs| - 1] + [xs[|xs| - 1]];
      }
      if xs[|xs| - 1] in d then d else d + [xs[|xs| - 1]]
  }

  /** The sum of `m[k]` over the keys listed in `ks`. */
  function SumOver<T>(m: map<T, nat>, ks: seq<T>): nat
    requires forall k | k in ks :: k in m
  {
    if ks == [] then 0 else m[ks[0]] + SumOver(m, ks[1..])
  }

  /** The sum of the counts of a list of distinct keys. */
  function SumCounts<T(==)>(xs: seq<T>, ks: seq<T>): nat
  {
    if ks == [] then 0 else Count(xs, ks[0]) + SumCounts(xs, ks[1..])
  }

  lemma {:induction false} SumCountsAppend<T>(xs: seq<T>, ys: seq<T>, ks: seq<T>)
    ensures SumCounts(xs + ys, ks) == SumCounts(xs, ks) + SumCounts(ys, ks)
  {
    if ks != [] {
      CountAppend(xs, ys, ks[0]);
      SumCountsAppend(xs, ys, ks[1..]);
    }
  }

  lemma {:induction false} SumCountsSingle<T>(x: T, ks: seq<T>)
    requires Distinct(ks)
    ensures SumCounts([x], ks) == if x in ks then 1 else 0
  {
    if ks != [] {
      assert Distinct(ks[1..]) by {
        forall i, j | 0 <= i < j < |ks[1..]| ensures ks[1..][i] != ks[1..][j] {
          assert ks[1..][i] == ks[i + 1] && ks[1..][j] == ks[j + 1];
        }
      }
      SumCountsSingle(x, ks[1..]);
      assert [x][1..] == [];
      assert Count([x], ks[0]) == if x == ks[0] then 1 else 0;
      if x == ks[0] {
        assert x !in ks[1..] by {
          forall i | 0 <= i < |ks[1..]| ensures ks[1..][i] != x {
            assert ks[1..][i] == ks[i + 1];
          }
        }
      }
      assert x in ks <==> x == ks[0] || x in ks[1..];
    }
  }

  /** Counting partitions a sequence: when `ks` lists distinct keys and every
      element occurs among them, the counts of the keys add up to the length. */
  lemma {:induction false} CountsPartition<T>(xs: seq<T>, ks: seq<T>)
    requires Distinct(ks)
    requires forall x | x in xs :: x in ks
    ensures SumCounts(xs, ks) == |xs|
  {
    if xs == [] {
      SumCountsEmpty(ks);
    } else {
      assert xs == [xs[0]] + xs[1..];
      SumCountsAppend([xs[0]], xs[1..], ks);
      SumCountsSingle(xs[0], ks);
      CountsPartition(xs[1..], ks);
    }
  }

  lemma {:induction false} SumCountsEmpty<T>(ks: seq<T>)
    ensures SumCounts([], ks) == 0
  {
    if ks != [] {
      SumCountsEmpty(ks[1..]);
    }
  }

  /** Summing a tally over an enumeration of its keys gives the number of
      elements counted. */
  lemma {:induction false} TallySumsToLength<T>(xs: seq<T>, base: set<T>, ks: seq<T>)
    requires Distinct(ks)
    requires Elements(ks) == Tally(xs, base).Keys
    ensures forall k | k in ks :: k in Tally(xs, base)
    ensures SumOver(Tally(xs, base), ks) == |xs|
  {
    var m := Tally(xs, base);
    assert forall k | k in ks :: k in Elements(ks);
    forall x | x in xs ensures x in ks {
      assert x in Elements(xs);
      assert x in Elements(ks);
    }
    SumOverIsSumCounts(xs, base, ks);
    CountsPartition(xs, ks);
  }

  lemma {:induction false} SumOverIsSumCounts<T>(xs: seq<T>, base: set<T>, ks: seq<T>)
    requires forall k | k in ks :: k in Tally(xs, base)
    ensures SumOver(Tally(xs, base), ks) == SumCounts(xs, ks)
  {
    if ks != [] {
      SumOverIsSumCounts(xs, base, ks[1..]);
    }
  }

  // ---------------------------------------------------------------------
  // Filtering and subsequences

  /** `a` can be obtained from `b` by deleting elements, so it keeps `b`'s
      order. */
  predicate IsSubsequence<T(==)>(a: seq<T>, b: seq<T>)
    decreases |b|
  {
    if a == [] then true
    else if b == [] then false
    else if a[0] == b[0] then IsSubsequence(a[1..], b[1..])
    else IsSubsequence(a, b[1..])
  }

  /** The elements of `xs` that satisfy `p`, in their original order (the
      semantics of Python's list comprehension filter and JavaScript's
      Array.prototype.filter). */
  function Filter<T(==,!new)>(xs: seq<T>, p: T -> bool): (r: seq<T>)
    ensures |r| <= |xs|
    ensures IsSubsequence(r, xs)
    ensures forall x :: x in r <==> x in xs && p(x)
    ensures forall x :: Count(r, x) == if p(x) then Count(xs, x) else 0
  {
    if xs == [] then []
    else if p(xs[0]) then [xs[0]] + Filter(xs[1..], p)
    else Filter(xs[1..], p)
  }

  lemma {:induction false} FilterKeepsAll<T(!new)>(xs: seq<T>, p: T -> bool)
    requires forall x | x in xs :: p(x)
    ensures Filter(xs, p) == xs
  {
    if xs != [] {
      assert forall x | x in xs[1..] :: x in xs;
      FilterKeepsAll(xs[1..], p);
    }
  }

  lemma {:induction false} FilterAppend<T(!new)>(xs: seq<T>, ys: seq<T>, p: T -> bool)
    ensures Filter(xs + ys, p) == Filter(xs, p) + Filter(ys, p)
  {
    if xs == [] {
      assert xs + ys == ys;
    } else {
      assert (xs + ys)[1..] == xs[1..] + ys;
      FilterAppend(xs[1..], ys, p);
    }
  }

  function Min(a: int, b: int): int
  {
    if a <= b then a else b
  }

  // ---------------------------------------------------------------------
  // Strings

  predicate StartsWith(s: string, prefix: string)
  {
    |prefix| <= |s| && s[..|prefix|] == prefix
  }

  predicate EndsWith(s: string, suffix: string)
  {
    |suffix| <= |s| && s[|s| - |suffix|..] == suffix
  }

  /** `sub` occurs in `s` starting at index `i`. */
  predicate OccursAt(s: string, sub: string, i: int)
  {
    0 <= i && i + |sub| <= |s| && s[i..i + |sub|] == sub
  }

  /** Substring test (Python `in`, JavaScript `includes`). */
  predicate Contains(s: string, sub: string)
  {
    exists i | 0 <= i <= |s| - |sub| :: OccursAt(s, sub, i)
  }

  function LowerChar(c: char): char
  {
    if 'A' <= c <= 'Z' then (c as int + 32) as char else c
  }

  /** Lower-casing of the ASCII letters. */
  function Lower(s: string): (r: string)
    ensures |r| == |s|
    ensures forall i | 0 <= i < |s| :: r[i] == LowerChar(s[i])
  {
    seq(|s|, i requires 0 <= i < |s| => LowerChar(s[i]))
  }
}
