/** Sequence operations behind the pages' derived views: `Array.prototype.filter`, and the
    distinct values of a sequence in first-seen order (`Array.from(new Set(xs))`). */
module Seqs {

  /** `s.filter(p)`. */
  function Filter<T>(s: seq<T>, p: T -> bool): (r: seq<T>)
    ensures |r| <= |s|
    ensures forall i :: 0 <= i < |r| ==> p(r[i])
  {
    if s == [] then []
    else if p(s[0]) then [s[0]] + Filter(s[1..], p)
    else Filter(s[1..], p)
  }

  /** `r` is obtained from `s` by deleting elements, keeping the order of the rest. */
  predicate IsSubsequence<T(==)>(r: seq<T>, s: seq<T>)
    decreases |s|
  {
    if r == [] then true
    else if s == [] then false
    else if r[0] == s[0] then IsSubsequence(r[1..], s[1..])
    else IsSubsequence(r, s[1..])
  }

  predicate NoDuplicates<T(==)>(s: seq<T>) {
    forall i, j :: 0 <= i < j < |s| ==> s[i] != s[j]
  }

  /** The index of the first occurrence of `x` in `s`. */
  function FirstIndex<T(==)>(s: seq<T>, x: T): (k: nat)
    requires x in s
    ensures k < |s| && s[k] == x
    ensures forall j :: 0 <= j < k ==> s[j] != x
  {
    if s[0] == x then 0 else 1 + FirstIndex(s[1..], x)
  }

  /** The elements of `s` not in `seen`, each once, in order of first occurrence:
      the iteration order of a JavaScript `Set` built from `s`. */
  function Dedup<T(==)>(s: seq<T>, seen: set<T>): seq<T>
  {
    if s == [] then []
    else if s[0] in seen then Dedup(s[1..], seen)
    else [s[0]] + Dedup(s[1..], seen + {s[0]})
  }

  function Distinct<T(==)>(s: seq<T>): seq<T> {
    Dedup(s, {})
  }

  /** An element is kept by `Filter` iff it occurs in the input and satisfies `p`. */
  lemma {:induction false} FilterMembers<T>(s: seq<T>, p: T -> bool, x: T)
    ensures x in Filter(s, p) <==> x in s && p(x)
  {
    if s != [] {
      FilterMembers(s[1..], p, x);
    }
  }

  /** `Filter` keeps every occurrence of a satisfying element and only those:
      no element is dropped twice or duplicated. */
  lemma {:induction false} FilterCounts<T>(s: seq<T>, p: T -> bool, x: T)
    ensures multiset(Filter(s, p))[x] == if p(x) then multiset(s)[x] else 0
  {
    if s != [] {
      FilterCounts(s[1..], p, x);
      assert s == [s[0]] + s[1..];
      assert multiset(s) == multiset([s[0]]) + multiset(s[1..]);
      if p(s[0]) {
        assert multiset(Filter(s, p)) == multiset([s[0]]) + multiset(Filter(s[1..], p));
      }
    }
  }

  /** The filtered sequence is a subsequence of the input: original order is preserved. */
  lemma {:induction false} FilterIsSubsequence<T>(s: seq<T>, p: T -> bool)
    ensures IsSubsequence(Filter(s, p), s)
  {
    if s != [] {
      FilterIsSubsequence(s[1..], p);
      var r := Filter(s, p);
      if p(s[0]) {
        assert r[0] == s[0] && r[1..] == Filter(s[1..], p);
      } else if r != [] {
        assert p(r[0]);
        assert r[0] != s[0];
      }
    }
  }

  /** Filtering with a predicate no element satisfies returns the empty sequence. */
  lemma {:induction false} FilterNone<T>(s: seq<T>, p: T -> bool)
    requires forall i :: 0 <= i < |s| ==> !p(s[i])
    ensures Filter(s, p) == []
  {
    if s != [] {
      FilterNone(s[1..], p);
    }
  }

  /** The filtered sequence is empty iff no element satisfies the predicate. */
  lemma FilterEmpty<T>(s: seq<T>, p: T -> bool)
    ensures Filter(s, p) == [] <==> forall i :: 0 <= i < |s| ==> !p(s[i])
  {
    if forall i :: 0 <= i < |s| ==> !p(s[i]) {
      FilterNone(s, p);
    } else {
      var i :| 0 <= i < |s| && p(s[i]);
      FilterMembers(s, p, s[i]);
    }
  }

  /** When no two elements both satisfy the predicate, the filter keeps at most one. */
  lemma {:induction false} FilterAtMostOne<T>(s: seq<T>, p: T -> bool)
    requires forall i, j :: 0 <= i < j < |s| && p(s[i]) ==> !p(s[j])
    ensures |Filter(s, p)| <= 1
  {
    if s != [] {
      if p(s[0]) {
        FilterNone(s[1..], p);
      } else {
        FilterAtMostOne(s[1..], p);
      }
    }
  }

  /** Predicates that agree on every element filter alike. */
  lemma {:induction false} FilterCongruent<T>(s: seq<T>, p: T -> bool, q: T -> bool)
    requires forall i :: 0 <= i < |s| ==> p(s[i]) == q(s[i])
    ensures Filter(s, p) == Filter(s, q)
  {
    if s != [] {
      FilterCongruent(s[1..], p, q);
    }
  }

  /** The conjunction of two predicates. */
  function Both<T>(p: T -> bool, q: T -> bool): T -> bool {
    x => p(x) && q(x)
  }

  /** Filtering twice is filtering once by the conjunction. */
  lemma {:induction false} FilterFilter<T>(s: seq<T>, p: T -> bool, q: T -> bool)
    ensures Filter(Filter(s, p), q) == Filter(s, Both(p, q))
  {
    if s != [] {
      FilterFilter(s[1..], p, q);
      if p(s[0]) {
        assert Filter(s, p)[0] == s[0] && Filter(s, p)[1..] == Filter(s[1..], p);
      }
    }
  }

  /** `Dedup(s, seen)` holds exactly the elements of `s` that are not in `seen`. */
  lemma {:induction false} DedupMembers<T>(s: seq<T>, seen: set<T>, x: T)
    ensures x in Dedup(s, seen) <==> x in s && x !in seen
  {
    if s != [] {
      DedupMembers(s[1..], seen, x);
      DedupMembers(s[1..], seen + {s[0]}, x);
    }
  }

  /** `Dedup` never yields an element twice. */
  lemma {:induction false} DedupNoDuplicates<T>(s: seq<T>, seen: set<T>)
    ensures NoDuplicates(Dedup(s, seen))
  {
    if s != [] {
      if s[0] in seen {
        DedupNoDuplicates(s[1..], seen);
      } else {
        var rest := Dedup(s[1..], seen + {s[0]});
        DedupNoDuplicates(s[1..], seen + {s[0]});
        DedupMembers(s[1..], seen + {s[0]}, s[0]);
        assert Dedup(s, seen) == [s[0]] + rest;
      }
    }
  }

  /** `Dedup` keeps the order of `s`. */
  lemma {:induction false} DedupIsSubsequence<T>(s: seq<T>, seen: set<T>)
    ensures IsSubsequence(Dedup(s, seen), s)
  {
    if s != [] {
      var r := Dedup(s, seen);
      if s[0] in seen {
        DedupIsSubsequence(s[1..], seen);
        if r != [] {
          DedupMembers(s[1..], seen, r[0]);
        }
      } else {
        DedupIsSubsequence(s[1..], seen + {s[0]});
        assert r[0] == s[0] && r[1..] == Dedup(s[1..], seen + {s[0]});
      }
    }
  }

  /** The elements of `Dedup(s, seen)` appear in the order of their first occurrence in `s`. */
  lemma {:induction false} DedupFirstSeenOrder<T>(s: seq<T>, seen: set<T>)
    ensures forall k :: 0 <= k < |Dedup(s, seen)| ==> Dedup(s, seen)[k] in s
    ensures forall i, j :: 0 <= i < j < |Dedup(s, seen)| ==>
              FirstIndex(s, Dedup(s, seen)[i]) < FirstIndex(s, Dedup(s, seen)[j])
  {
    var r := Dedup(s, seen);
    forall k | 0 <= k < |r| ensures r[k] in s {
      DedupMembers(s, seen, r[k]);
    }
    if s != [] {
      var seen' := if s[0] in seen then seen else seen + {s[0]};
      var rest := Dedup(s[1..], seen');
      DedupFirstSeenOrder(s[1..], seen');
      assert r == if s[0] in seen then rest else [s[0]] + rest;
      // no element of rest is s[0], so its first index in s is one past its first index in s[1..]
      forall k | 0 <= k < |rest|
        ensures rest[k] != s[0] && FirstIndex(s, rest[k]) == 1 + FirstIndex(s[1..], rest[k])
      {
        DedupMembers(s[1..], seen', rest[k]);
      }
      forall i, j | 0 <= i < j < |r|
        ensures FirstIndex(s, r[i]) < FirstIndex(s, r[j])
      {
        if s[0] !in seen {
          assert r[j] == rest[j - 1];
          if i > 0 {
            assert r[i] == rest[i - 1];
          }
        }
      }
    }
  }
}
