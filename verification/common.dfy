/**
 * Generic building blocks shared by the services and the slices: optional values,
 * thrown errors as results, and the JavaScript array operations the source relies on
 * (`find`/`findIndex`, `filter`, `reduce` over a sum, "find, then mutate in place").
 *
 * Predicates and projections are passed as named function values (`HasId(id)`,
 * `ValueOf`) so that the same term appears in every contract that mentions them.
 */
module Common {

  datatype Option<T> = None | Some(value: T)

  /** A service call that either returns a value or throws an `Error` with a message. */
  datatype Result<T> = Ok(value: T) | Err(message: string)

  /** `Array.prototype.findIndex`: the position of the first element satisfying `p`. */
  function FirstWhere<T>(s: seq<T>, p: T -> bool): (r: Option<nat>)
    ensures r.Some? ==> r.value < |s| && p(s[r.value])
    ensures r.Some? ==> forall j :: 0 <= j < r.value ==> !p(s[j])
    ensures r.None? <==> forall j :: 0 <= j < |s| ==> !p(s[j])
  {
    if |s| == 0 then None
    else if p(s[0]) then Some(0)
    else match FirstWhere(s[1..], p)
      case None => None
      case Some(i) => Some(i + 1)
  }

  /**
   * Reference meaning of "find the first element satisfying `p` and update it with `f`":
   * walk the list, rewrite the first match, keep everything else.
   */
  function ReplaceFirst<T>(s: seq<T>, p: T -> bool, f: T -> T): seq<T>
  {
    if |s| == 0 then []
    else if p(s[0]) then [f(s[0])] + s[1..]
    else [s[0]] + ReplaceFirst(s[1..], p, f)
  }

  /** Updating the match in place at the index `findIndex` reports is the same thing. */
  lemma {:induction false} ReplaceFirstAt<T>(s: seq<T>, p: T -> bool, f: T -> T)
    ensures FirstWhere(s, p).None? ==> ReplaceFirst(s, p, f) == s
    ensures FirstWhere(s, p).Some? ==>
      ReplaceFirst(s, p, f) == s[FirstWhere(s, p).value := f(s[FirstWhere(s, p).value])]
  {
    if |s| > 0 && !p(s[0]) {
      ReplaceFirstAt(s[1..], p, f);
      assert s == [s[0]] + s[1..];
    }
  }

  /**
   * Applying an update twice undoes it when the update is an involution that keeps
   * the element matching.
   */
  lemma {:induction false} ReplaceFirstTwice<T>(s: seq<T>, p: T -> bool, f: T -> T)
    requires forall x :: p(f(x)) == p(x)
    requires forall x :: f(f(x)) == x
    ensures ReplaceFirst(ReplaceFirst(s, p, f), p, f) == s
  {
    if |s| > 0 {
      if p(s[0]) {
        assert p(f(s[0]));
        assert ReplaceFirst(s, p, f)[1..] == s[1..];
      } else {
        ReplaceFirstTwice(s[1..], p, f);
        assert ReplaceFirst(s, p, f)[1..] == ReplaceFirst(s[1..], p, f);
      }
    }
  }

  /**
   * A second update that leaves the result of the first as it is, applied after the
   * first, changes nothing more.
   */
  lemma {:induction false} ReplaceFirstAbsorbs<T>(s: seq<T>, p: T -> bool, f: T -> T, g: T -> T)
    requires forall x :: p(f(x)) == p(x)
    requires forall x :: g(f(x)) == f(x)
    ensures ReplaceFirst(ReplaceFirst(s, p, f), p, g) == ReplaceFirst(s, p, f)
  {
    if |s| > 0 {
      if p(s[0]) {
        assert p(f(s[0]));
        assert ReplaceFirst(s, p, f)[1..] == s[1..];
      } else {
        ReplaceFirstAbsorbs(s[1..], p, f, g);
        assert ReplaceFirst(s, p, f)[1..] == ReplaceFirst(s[1..], p, f);
      }
    }
  }

  /**
   * A second update that overrides whatever the first did, applied after the first,
   * gives what the second alone gives.
   */
  lemma {:induction false} ReplaceFirstOverrides<T>(s: seq<T>, p: T -> bool, f: T -> T, g: T -> T)
    requires forall x :: p(f(x)) == p(x)
    requires forall x :: g(f(x)) == g(x)
    ensures ReplaceFirst(ReplaceFirst(s, p, f), p, g) == ReplaceFirst(s, p, g)
  {
    if |s| > 0 {
      if p(s[0]) {
        assert p(f(s[0]));
        assert ReplaceFirst(s, p, f)[1..] == s[1..];
      } else {
        ReplaceFirstOverrides(s[1..], p, f, g);
        assert ReplaceFirst(s, p, f)[1..] == ReplaceFirst(s[1..], p, f);
      }
    }
  }

  /** `Array.prototype.filter`: the elements that `keep` accepts, each as often as in `s`. */
  function Filter<T(!new)>(s: seq<T>, keep: T -> bool): (r: seq<T>)
    ensures |r| <= |s|
    ensures forall x :: multiset(r)[x] == if keep(x) then multiset(s)[x] else 0
    ensures forall x :: x in r <==> x in s && keep(x)
  {
    if |s| == 0 then []
    else
      assert s == [s[0]] + s[1..];
      (if keep(s[0]) then [s[0]] else []) + Filter(s[1..], keep)
  }

  /** Filtering keeps order: it distributes over concatenation. */
  lemma {:induction false} FilterAppend<T(!new)>(a: seq<T>, b: seq<T>, keep: T -> bool)
    ensures Filter(a + b, keep) == Filter(a, keep) + Filter(b, keep)
  {
    if |a| == 0 {
      assert a + b == b;
    } else {
      assert (a + b)[0] == a[0];
      assert (a + b)[1..] == a[1..] + b;
      FilterAppend(a[1..], b, keep);
    }
  }

  /** A filter that rejects nothing returns its input unchanged. */
  lemma {:induction false} FilterKeepsAll<T(!new)>(s: seq<T>, keep: T -> bool)
    requires forall j :: 0 <= j < |s| ==> keep(s[j])
    ensures Filter(s, keep) == s
  {
    if |s| > 0 {
      FilterKeepsAll(s[1..], keep);
      assert s == [s[0]] + s[1..];
    }
  }

  /** Filtering twice with the same test is filtering once. */
  lemma FilterTwice<T(!new)>(s: seq<T>, keep: T -> bool)
    ensures Filter(Filter(s, keep), keep) == Filter(s, keep)
  {
    var r := Filter(s, keep);
    assert forall j :: 0 <= j < |r| ==> keep(r[j]) by {
      forall j | 0 <= j < |r| ensures keep(r[j]) {
        assert r[j] in r;
      }
    }
    FilterKeepsAll(r, keep);
  }

  predicate NoDuplicates<T(==)>(s: seq<T>)
  {
    forall i, j :: 0 <= i < j < |s| ==> s[i] != s[j]
  }

  lemma NoDuplicatesCons<T>(x: T, s: seq<T>)
    ensures NoDuplicates([x] + s) <==> x !in s && NoDuplicates(s)
  {
    var t := [x] + s;
    if x !in s && NoDuplicates(s) {
      forall i, j | 0 <= i < j < |t| ensures t[i] != t[j] {
        if i == 0 {
          assert t[j] == s[j - 1];
        } else {
          assert t[i] == s[i - 1] && t[j] == s[j - 1];
        }
      }
    }
    if NoDuplicates(t) {
      forall i, j | 0 <= i < j < |s| ensures s[i] != s[j] {
        assert s[i] == t[i + 1] && s[j] == t[j + 1];
      }
      forall k | 0 <= k < |s| ensures s[k] != x {
        assert t[0] == x && t[k + 1] == s[k];
      }
    }
  }

  /** Filtering a duplicate-free list leaves it duplicate-free. */
  lemma {:induction false} FilterNoDuplicates<T(!new)>(s: seq<T>, keep: T -> bool)
    requires NoDuplicates(s)
    ensures NoDuplicates(Filter(s, keep))
  {
    if |s| > 0 {
      assert s == [s[0]] + s[1..];
      NoDuplicatesCons(s[0], s[1..]);
      FilterNoDuplicates(s[1..], keep);
      if keep(s[0]) {
        NoDuplicatesCons(s[0], Filter(s[1..], keep));
      } else {
        assert Filter(s, keep) == Filter(s[1..], keep);
      }
    }
  }

  /** Appending an element that is absent keeps a list duplicate-free. */
  lemma AppendFreshNoDuplicates<T>(s: seq<T>, x: T)
    requires NoDuplicates(s) && x !in s
    ensures NoDuplicates(s + [x])
  {
    var t := s + [x];
    forall i, j | 0 <= i < j < |t| ensures t[i] != t[j] {
      if j == |s| {
        assert t[i] == s[i];
      } else {
        assert t[i] == s[i] && t[j] == s[j];
      }
    }
  }

  /**
   * The sum of `f` over a list: `s.reduce((sum, x) => sum + f(x), 0)`. With exact reals
   * the grouping of the additions does not matter.
   */
  function Sum<T>(s: seq<T>, f: T -> real): (r: real)
    ensures |s| == 0 ==> r == 0.0
    ensures (forall i :: 0 <= i < |s| ==> f(s[i]) >= 0.0) ==> r >= 0.0
    ensures (forall i :: 0 <= i < |s| ==> f(s[i]) == 0.0) ==> r == 0.0
  {
    if |s| == 0 then 0.0
    else
      assert forall i :: 0 <= i < |s| - 1 ==> s[1..][i] == s[i + 1];
      f(s[0]) + Sum(s[1..], f)
  }

  lemma {:induction false} SumAppend<T>(a: seq<T>, b: seq<T>, f: T -> real)
    ensures Sum(a + b, f) == Sum(a, f) + Sum(b, f)
  {
    if |a| == 0 {
      assert a + b == b;
    } else {
      assert (a + b)[0] == a[0];
      assert (a + b)[1..] == a[1..] + b;
      SumAppend(a[1..], b, f);
    }
  }

  function Not<T>(p: T -> bool): T -> bool
  {
    x => !p(x)
  }

  /** A filter splits a sum: what it keeps plus what it drops is the whole. */
  lemma {:induction false} SumSplit<T(!new)>(s: seq<T>, keep: T -> bool, f: T -> real)
    ensures Sum(s, f) == Sum(Filter(s, keep), f) + Sum(Filter(s, Not(keep)), f)
  {
    if |s| > 0 {
      SumSplit(s[1..], keep, f);
      var rest := s[1..];
      if keep(s[0]) {
        assert Filter(s, keep) == [s[0]] + Filter(rest, keep);
        assert Filter(s, Not(keep)) == Filter(rest, Not(keep));
      } else {
        assert Filter(s, keep) == Filter(rest, keep);
        assert Filter(s, Not(keep)) == [s[0]] + Filter(rest, Not(keep));
      }
    }
  }

  /** If `f` is `g - h` on every element, the sums satisfy the same relation. */
  lemma {:induction false} SumDifference<T>(s: seq<T>, f: T -> real, g: T -> real, h: T -> real)
    requires forall j :: 0 <= j < |s| ==> f(s[j]) == g(s[j]) - h(s[j])
    ensures Sum(s, f) == Sum(s, g) - Sum(s, h)
  {
    if |s| > 0 {
      SumDifference(s[1..], f, g, h);
    }
  }

  /**
   * `message || fallback` for the optional message of a rejected thunk: JavaScript treats
   * a missing message and the empty string alike.
   */
  function MessageOr(message: Option<string>, fallback: string): (r: string)
    ensures message.Some? && message.value != "" ==> r == message.value
    ensures message.None? || message.value == "" ==> r == fallback
    ensures fallback != "" ==> r != ""
  {
    match message
    case Some(m) => if m != "" then m else fallback
    case None => fallback
  }
}
