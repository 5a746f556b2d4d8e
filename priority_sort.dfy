/** The ordering of remediation steps in backend/src/services/geminiService.js: each step
    carries a bracketed priority tag, and `steps.sort` orders the steps by the rank of
    that tag. `Array.prototype.sort` is stable, so the result is determined: the URGENT
    steps in their original order, then the HIGH ones, then MEDIUM, then LOW. */
module PrioritySort {
  import opened Text
  import opened Domain

  // ---------------------------------------------------------------------------
  // the tag: `a.match(/\[(.*?)\]/)?.[1] || "LOW"`

  /** The first `]` at or after `i` that no line terminator precedes (`.` does not match
      one). */
  function CloseIndex(s: string, i: nat): (r: Option<nat>)
    ensures r.Some? ==> i <= r.value < |s| && s[r.value] == ']'
    decreases |s| - i
  {
    if i >= |s| then None
    else if s[i] == ']' then Some(i)
    else if IsLineTerminator(s[i]) then None
    else CloseIndex(s, i + 1)
  }

  /** The capture of the leftmost match of `\[(.*?)\]` at or after `p`. */
  function BracketTag(s: string, p: nat): Option<string>
    decreases |s| - p
  {
    if p >= |s| then None
    else if s[p] == '[' && CloseIndex(s, p + 1).Some? then Some(s[p + 1..CloseIndex(s, p + 1).value])
    else BracketTag(s, p + 1)
  }

  /** The priority a step's text carries; no match and an empty match both read "LOW". */
  function StepTag(s: string): string {
    var t := BracketTag(s, 0);
    if t.Some? && t.value != "" then t.value else "LOW"
  }

  /** `priorityOrder`. A tag outside the table makes the source's comparator return
      `NaN`; the model ranks it with LOW. No step the source generates has such a tag
      (see `TagOfTaggedStep`). */
  function TagRank(tag: string): (r: nat)
    ensures r <= 3
  {
    if tag == "URGENT" then 0 else if tag == "HIGH" then 1 else if tag == "MEDIUM" then 2 else 3
  }

  function StepRank(s: string): (r: nat)
    ensures r <= 3
  {
    TagRank(StepTag(s))
  }

  predicate IsUpperWord(p: string) {
    |p| > 0 && forall k | 0 <= k < |p| :: 'A' <= p[k] <= 'Z'
  }

  lemma {:induction false} CloseIndexAt(s: string, i: nat, j: nat)
    requires i <= j < |s| && s[j] == ']'
    requires forall k | i <= k < j :: s[k] != ']' && !IsLineTerminator(s[k])
    ensures CloseIndex(s, i) == Some(j)
    decreases j - i
  {
    if i < j {
      CloseIndexAt(s, i + 1, j);
    }
  }

  /** A step written `"[" + p + "]" + rest` with an upper-case word `p` carries tag `p`,
      whatever `rest` holds. */
  lemma TagOfTaggedStep(p: string, rest: string)
    requires IsUpperWord(p)
    ensures StepTag("[" + p + "]" + rest) == p
  {
    var s := "[" + p + "]" + rest;
    assert forall k | 1 <= k < 1 + |p| :: s[k] == p[k - 1];
    CloseIndexAt(s, 1, 1 + |p|);
    assert s[1..1 + |p|] == p;
  }

  // ---------------------------------------------------------------------------
  // buckets, for any ranking into 0..3

  /** A ranking of steps into the four priorities 0 (most urgent) to 3. */
  ghost predicate FourRanks(rank: string -> nat) {
    forall x :: rank(x) <= 3
  }

  /** The steps of rank `r`, in their order. */
  function OfRank(rank: string -> nat, s: seq<string>, r: nat): (o: seq<string>)
    ensures |o| <= |s|
    decreases |s|
  {
    if |s| == 0 then []
    else OfRank(rank, s[..|s| - 1], r) + (if rank(s[|s| - 1]) == r then [s[|s| - 1]] else [])
  }

  function Buckets(rank: string -> nat, s: seq<string>): seq<seq<string>> {
    [OfRank(rank, s, 0), OfRank(rank, s, 1), OfRank(rank, s, 2), OfRank(rank, s, 3)]
  }

  /** The stable sort by rank: the four buckets one after the other. */
  function ByPriority(rank: string -> nat, s: seq<string>): seq<string> {
    OfRank(rank, s, 0) + OfRank(rank, s, 1) + OfRank(rank, s, 2) + OfRank(rank, s, 3)
  }

  predicate Sorted(rank: string -> nat, s: seq<string>) {
    forall i, j | 0 <= i < j < |s| :: rank(s[i]) <= rank(s[j])
  }

  lemma {:induction false} OfRankConcat(rank: string -> nat, a: seq<string>, b: seq<string>, r: nat)
    ensures OfRank(rank, a + b, r) == OfRank(rank, a, r) + OfRank(rank, b, r)
    decreases |b|
  {
    if |b| > 0 {
      var n := |b| - 1;
      var ab := a + b;
      assert ab[..|ab| - 1] == a + b[..n];
      assert ab[|ab| - 1] == b[n];
      OfRankConcat(rank, a, b[..n], r);
    } else {
      assert a + b == a;
    }
  }

  /** The bucket of a bucket is itself or empty. */
  lemma {:induction false} OfRankOfRank(rank: string -> nat, s: seq<string>, q: nat, r: nat)
    ensures OfRank(rank, OfRank(rank, s, q), r) == if q == r then OfRank(rank, s, q) else []
    decreases |s|
  {
    if |s| > 0 {
      var n := |s| - 1;
      OfRankOfRank(rank, s[..n], q, r);
      var tail := if rank(s[n]) == q then [s[n]] else [];
      OfRankConcat(rank, OfRank(rank, s[..n], q), tail, r);
    }
  }

  /** A sequence none of whose ranks is `r` has an empty bucket `r`. */
  lemma {:induction false} OfRankEmpty(rank: string -> nat, s: seq<string>, r: nat)
    requires forall k | 0 <= k < |s| :: rank(s[k]) != r
    ensures OfRank(rank, s, r) == []
    decreases |s|
  {
    if |s| > 0 {
      OfRankEmpty(rank, s[..|s| - 1], r);
    }
  }

  /** Every step of bucket `r` has rank `r`. */
  lemma {:induction false} OfRankRanks(rank: string -> nat, s: seq<string>, r: nat)
    ensures forall k | 0 <= k < |OfRank(rank, s, r)| :: rank(OfRank(rank, s, r)[k]) == r
    decreases |s|
  {
    if |s| > 0 {
      OfRankRanks(rank, s[..|s| - 1], r);
    }
  }

  lemma OfRankSnoc(rank: string -> nat, init: seq<string>, x: string, r: nat)
    ensures OfRank(rank, init + [x], r) == OfRank(rank, init, r) + if rank(x) == r then [x] else []
  {
    assert (init + [x])[..|init|] == init;
  }

  /** Appending a step whose rank is at least every other rank appends it to the bucket
      concatenation. */
  lemma BucketsSnoc(rank: string -> nat, init: seq<string>, x: string)
    requires FourRanks(rank)
    requires forall k | 0 <= k < |init| :: rank(init[k]) <= rank(x)
    ensures ByPriority(rank, init + [x]) == ByPriority(rank, init) + [x]
  {
    var m := rank(x);
    OfRankSnoc(rank, init, x, 0);
    OfRankSnoc(rank, init, x, 1);
    OfRankSnoc(rank, init, x, 2);
    OfRankSnoc(rank, init, x, 3);
    var s := init + [x];
    var b0, b1, b2, b3 := OfRank(rank, init, 0), OfRank(rank, init, 1), OfRank(rank, init, 2), OfRank(rank, init, 3);
    var c0, c1, c2, c3 := OfRank(rank, s, 0), OfRank(rank, s, 1), OfRank(rank, s, 2), OfRank(rank, s, 3);
    assert ByPriority(rank, s) == c0 + c1 + c2 + c3;
    assert ByPriority(rank, init) == b0 + b1 + b2 + b3;
    assert m <= 3;
    if m < 1 { OfRankEmpty(rank, init, 1); }
    if m < 2 { OfRankEmpty(rank, init, 2); }
    if m < 3 { OfRankEmpty(rank, init, 3); }
    AppendToLastPart(b0, b1, b2, b3, c0, c1, c2, c3, x, m);
  }

  /** Appending `x` to part `m` of four parts, when every later part is empty, appends it
      to their concatenation. */
  lemma AppendToLastPart(b0: seq<string>, b1: seq<string>, b2: seq<string>, b3: seq<string>,
                         c0: seq<string>, c1: seq<string>, c2: seq<string>, c3: seq<string>, x: string, m: nat)
    requires m <= 3
    requires c0 == b0 + if m == 0 then [x] else []
    requires c1 == b1 + if m == 1 then [x] else []
    requires c2 == b2 + if m == 2 then [x] else []
    requires c3 == b3 + if m == 3 then [x] else []
    requires (m < 1 ==> b1 == []) && (m < 2 ==> b2 == []) && (m < 3 ==> b3 == [])
    ensures c0 + c1 + c2 + c3 == b0 + b1 + b2 + b3 + [x]
  {
    if m == 0 {
      assert c0 == b0 + [x] && c1 == [] && c2 == [] && c3 == [];
    } else if m == 1 {
      assert c0 == b0 && c1 == b1 + [x] && c2 == [] && c3 == [];
      assert c0 + c1 + c2 + c3 == (b0 + b1) + [x];
    } else if m == 2 {
      assert c0 == b0 && c1 == b1 && c2 == b2 + [x] && c3 == [];
      assert c0 + c1 + c2 + c3 == (b0 + b1 + b2) + [x];
    } else {
      assert c0 == b0 && c1 == b1 && c2 == b2 && c3 == b3 + [x];
      assert c0 + c1 + c2 + c3 == (b0 + b1 + b2 + b3) + [x];
    }
  }

  /** A sorted sequence is its own bucket concatenation. */
  lemma {:induction false} SortedIsByPriority(rank: string -> nat, s: seq<string>)
    requires FourRanks(rank) && Sorted(rank, s)
    ensures ByPriority(rank, s) == s
    decreases |s|
  {
    if |s| > 0 {
      var n := |s| - 1;
      var init, x := s[..n], s[n];
      assert s == init + [x];
      assert Sorted(rank, init) by {
        assert forall k | 0 <= k < n :: init[k] == s[k];
      }
      SortedIsByPriority(rank, init);
      BucketsSnoc(rank, init, x);
    }
  }

  /** The bucket concatenation is a permutation. */
  lemma {:induction false} ByPriorityPermutation(rank: string -> nat, s: seq<string>)
    requires FourRanks(rank)
    ensures multiset(ByPriority(rank, s)) == multiset(s)
    decreases |s|
  {
    if |s| > 0 {
      var n := |s| - 1;
      var init, x := s[..n], s[n];
      ByPriorityPermutation(rank, init);
      assert s == init + [x];
      ByPrioritySnocMultiset(rank, init, x);
    }
  }

  /** One more step adds exactly that step to the bucket concatenation's multiset. */
  lemma ByPrioritySnocMultiset(rank: string -> nat, init: seq<string>, x: string)
    requires FourRanks(rank)
    ensures multiset(ByPriority(rank, init + [x])) == multiset(ByPriority(rank, init)) + multiset{x}
  {
    var b0, b1, b2, b3 := OfRank(rank, init, 0), OfRank(rank, init, 1), OfRank(rank, init, 2), OfRank(rank, init, 3);
    var s := init + [x];
    var c0, c1, c2, c3 := OfRank(rank, s, 0), OfRank(rank, s, 1), OfRank(rank, s, 2), OfRank(rank, s, 3);
    OfRankSnoc(rank, init, x, 0);
    OfRankSnoc(rank, init, x, 1);
    OfRankSnoc(rank, init, x, 2);
    OfRankSnoc(rank, init, x, 3);
    assert ByPriority(rank, s) == c0 + c1 + c2 + c3;
    assert ByPriority(rank, init) == b0 + b1 + b2 + b3;
    var r := rank(x);
    assert r <= 3;
    FourSnocMultiset(b0, b1, b2, b3, c0, c1, c2, c3, x, r);
  }

  /** Appending `x` to one of four parts adds `x` to the multiset of their concatenation. */
  lemma FourSnocMultiset(b0: seq<string>, b1: seq<string>, b2: seq<string>, b3: seq<string>,
                         c0: seq<string>, c1: seq<string>, c2: seq<string>, c3: seq<string>, x: string, r: nat)
    requires r <= 3
    requires c0 == b0 + if r == 0 then [x] else []
    requires c1 == b1 + if r == 1 then [x] else []
    requires c2 == b2 + if r == 2 then [x] else []
    requires c3 == b3 + if r == 3 then [x] else []
    ensures multiset(c0 + c1 + c2 + c3) == multiset(b0 + b1 + b2 + b3) + multiset{x}
  {
    if r == 0 {
      assert c0 + c1 + c2 + c3 == b0 + [x] + (b1 + b2 + b3);
      assert b0 + b1 + b2 + b3 == b0 + (b1 + b2 + b3);
      MiddleMultiset(b0, x, b1 + b2 + b3);
    } else if r == 1 {
      assert c0 + c1 + c2 + c3 == (b0 + b1) + [x] + (b2 + b3);
      assert b0 + b1 + b2 + b3 == (b0 + b1) + (b2 + b3);
      MiddleMultiset(b0 + b1, x, b2 + b3);
    } else if r == 2 {
      assert c0 + c1 + c2 + c3 == (b0 + b1 + b2) + [x] + b3;
      MiddleMultiset(b0 + b1 + b2, x, b3);
    } else {
      assert c0 + c1 + c2 + c3 == (b0 + b1 + b2 + b3) + [x] + [];
      assert b0 + b1 + b2 + b3 == (b0 + b1 + b2 + b3) + [];
      MiddleMultiset(b0 + b1 + b2 + b3, x, []);
    }
  }

  lemma MiddleMultiset(p: seq<string>, x: string, q: seq<string>)
    ensures multiset(p + [x] + q) == multiset(p + q) + multiset{x}
  {
    assert multiset(p + [x] + q) == multiset(p) + multiset{x} + multiset(q);
    assert multiset(p + q) == multiset(p) + multiset(q);
  }

  /** The bucket concatenation is sorted and keeps every bucket: equal-rank steps stay in
      their relative order. */
  lemma ByPrioritySortedStable(rank: string -> nat, s: seq<string>)
    ensures Sorted(rank, ByPriority(rank, s))
    ensures Buckets(rank, ByPriority(rank, s)) == Buckets(rank, s)
  {
    var b0, b1, b2, b3 := OfRank(rank, s, 0), OfRank(rank, s, 1), OfRank(rank, s, 2), OfRank(rank, s, 3);
    var t := ByPriority(rank, s);
    OfRankRanks(rank, s, 0);
    OfRankRanks(rank, s, 1);
    OfRankRanks(rank, s, 2);
    OfRankRanks(rank, s, 3);
    forall i, j | 0 <= i < j < |t| ensures rank(t[i]) <= rank(t[j]) {
      RankInBuckets(rank, b0, b1, b2, b3, i);
      RankInBuckets(rank, b0, b1, b2, b3, j);
    }
    BucketOfByPriority(rank, s, 0);
    BucketOfByPriority(rank, s, 1);
    BucketOfByPriority(rank, s, 2);
    BucketOfByPriority(rank, s, 3);
  }

  /** Bucket `r` of the bucket concatenation is bucket `r` of the steps. */
  lemma BucketOfByPriority(rank: string -> nat, s: seq<string>, r: nat)
    requires r <= 3
    ensures OfRank(rank, ByPriority(rank, s), r) == OfRank(rank, s, r)
  {
    var b0, b1, b2, b3 := OfRank(rank, s, 0), OfRank(rank, s, 1), OfRank(rank, s, 2), OfRank(rank, s, 3);
    var t := b0 + b1 + b2 + b3;
    assert ByPriority(rank, s) == t;
    OfRankConcat(rank, b0 + b1 + b2, b3, r);
    OfRankConcat(rank, b0 + b1, b2, r);
    OfRankConcat(rank, b0, b1, r);
    var o0, o1, o2, o3 := OfRank(rank, b0, r), OfRank(rank, b1, r), OfRank(rank, b2, r), OfRank(rank, b3, r);
    assert OfRank(rank, t, r) == o0 + o1 + o2 + o3;
    OfRankOfRank(rank, s, 0, r);
    OfRankOfRank(rank, s, 1, r);
    OfRankOfRank(rank, s, 2, r);
    OfRankOfRank(rank, s, 3, r);
    var pick := if r == 0 then b0 else if r == 1 then b1 else if r == 2 then b2 else b3;
    assert o0 + o1 + o2 + o3 == pick by {
      if r == 0 {
        assert o0 == b0 && o1 == [] && o2 == [] && o3 == [];
      } else if r == 1 {
        assert o0 == [] && o1 == b1 && o2 == [] && o3 == [];
      } else if r == 2 {
        assert o0 == [] && o1 == [] && o2 == b2 && o3 == [];
      } else {
        assert o0 == [] && o1 == [] && o2 == [] && o3 == b3;
      }
    }
    assert pick == OfRank(rank, s, r);
  }

  /** Position `i` of a bucket concatenation lies in the bucket whose rank it has. */
  lemma RankInBuckets(rank: string -> nat, b0: seq<string>, b1: seq<string>, b2: seq<string>, b3: seq<string>, i: int)
    requires forall k | 0 <= k < |b0| :: rank(b0[k]) == 0
    requires forall k | 0 <= k < |b1| :: rank(b1[k]) == 1
    requires forall k | 0 <= k < |b2| :: rank(b2[k]) == 2
    requires forall k | 0 <= k < |b3| :: rank(b3[k]) == 3
    requires 0 <= i < |b0 + b1 + b2 + b3|
    ensures rank((b0 + b1 + b2 + b3)[i]) ==
      if i < |b0| then 0 else if i < |b0| + |b1| then 1 else if i < |b0| + |b1| + |b2| then 2 else 3
  {
  }

  /** Exchanging two neighbours of different rank keeps every bucket. */
  lemma SwapKeepsBuckets(rank: string -> nat, s: seq<string>, j: nat)
    requires j + 1 < |s| && rank(s[j]) != rank(s[j + 1])
    ensures Buckets(rank, s[j := s[j + 1]][j + 1 := s[j]]) == Buckets(rank, s)
  {
    var t := s[j := s[j + 1]][j + 1 := s[j]];
    var pre, post := s[..j], s[j + 2..];
    var xy, yx := [s[j], s[j + 1]], [s[j + 1], s[j]];
    assert s == pre + xy + post;
    assert t == pre + yx + post;
    forall r: nat | r <= 3 ensures OfRank(rank, t, r) == OfRank(rank, s, r) {
      OfRankConcat(rank, pre + xy, post, r);
      OfRankConcat(rank, pre, xy, r);
      OfRankConcat(rank, pre + yx, post, r);
      OfRankConcat(rank, pre, yx, r);
      assert xy[..1] == [s[j]] && yx[..1] == [s[j + 1]];
      assert OfRank(rank, xy, r) == OfRank(rank, yx, r);
    }
    assert OfRank(rank, t, 0) == OfRank(rank, s, 0) && OfRank(rank, t, 1) == OfRank(rank, s, 1);
    assert OfRank(rank, t, 2) == OfRank(rank, s, 2) && OfRank(rank, t, 3) == OfRank(rank, s, 3);
  }

  /** `steps.sort((a, b) => rank(a) - rank(b))`, in place: an insertion sort that only
      ever exchanges a step with a neighbour of strictly greater rank, so equal-rank
      steps never pass each other. */
  method SortByPriority(a: array<string>, rank: string -> nat)
    requires FourRanks(rank)
    modifies a
    ensures a[..] == ByPriority(rank, old(a[..]))
  {
    ghost var orig := a[..];
    var i := 0;
    while i < a.Length
      invariant 0 <= i <= a.Length
      invariant SortedBelow(rank, a[..], i)
      invariant Buckets(rank, a[..]) == Buckets(rank, orig)
    {
      InsertAt(a, i, rank);
      i := i + 1;
    }
    assert Sorted(rank, a[..]);
    SortedIsByPriority(rank, a[..]);
    assert ByPriority(rank, a[..]) == ByPriority(rank, orig) by {
      assert Buckets(rank, a[..])[0] == Buckets(rank, orig)[0];
      assert Buckets(rank, a[..])[1] == Buckets(rank, orig)[1];
      assert Buckets(rank, a[..])[2] == Buckets(rank, orig)[2];
      assert Buckets(rank, a[..])[3] == Buckets(rank, orig)[3];
    }
  }

  predicate SortedBelow(rank: string -> nat, s: seq<string>, n: int) {
    forall k, l | 0 <= k < l < n && l < |s| :: rank(s[k]) <= rank(s[l])
  }

  /** One pass of the insertion sort: moves `a[i]` left past every neighbour of strictly
      greater rank, so the first `i + 1` steps end up sorted. */
  method InsertAt(a: array<string>, i: int, rank: string -> nat)
    requires 0 <= i < a.Length && SortedBelow(rank, a[..], i)
    modifies a
    ensures SortedBelow(rank, a[..], i + 1)
    ensures Buckets(rank, a[..]) == Buckets(rank, old(a[..]))
  {
    var j := i;
    InsertStart(rank, a[..], i);
    while j > 0 && rank(a[j - 1]) > rank(a[j])
      invariant 0 <= j <= i
      invariant Inserting(rank, a[..], i, j)
      invariant Buckets(rank, a[..]) == Buckets(rank, old(a[..]))
    {
      ghost var s := a[..];
      InsertStep(rank, s, i, j);
      SwapKeepsBuckets(rank, s, j - 1);
      a[j - 1], a[j] := a[j], a[j - 1];
      assert a[..] == s[j - 1 := s[j]][j := s[j - 1]];
      j := j - 1;
    }
    InsertDone(rank, a[..], i, j);
  }

  /** Midway through a pass: the first `i + 1` steps are sorted except for the one at
      `j`, which ranks strictly below every step after it. */
  predicate Inserting(rank: string -> nat, s: seq<string>, i: int, j: int) {
    && 0 <= j <= i < |s|
    && (forall k, l | 0 <= k < l <= i && k != j && l != j :: rank(s[k]) <= rank(s[l]))
    && (forall l | j < l <= i :: rank(s[j]) < rank(s[l]))
  }

  lemma InsertStart(rank: string -> nat, s: seq<string>, i: int)
    requires 0 <= i < |s| && SortedBelow(rank, s, i)
    ensures Inserting(rank, s, i, i)
  {
  }

  /** Exchanging the step at `j` with a left neighbour of greater rank moves the gap one
      place left. */
  lemma InsertStep(rank: string -> nat, s: seq<string>, i: int, j: int)
    requires Inserting(rank, s, i, j) && j > 0 && rank(s[j - 1]) > rank(s[j])
    ensures Inserting(rank, s[j - 1 := s[j]][j := s[j - 1]], i, j - 1)
  {
    var t := s[j - 1 := s[j]][j := s[j - 1]];
    assert forall k | 0 <= k < |s| && k != j - 1 && k != j :: t[k] == s[k];
    forall k, l | 0 <= k < l <= i && k != j - 1 && l != j - 1 ensures rank(t[k]) <= rank(t[l]) {
      if l == j {
        assert t[l] == s[j - 1];
        if k < j - 1 {
          assert rank(s[k]) <= rank(s[j - 1]);
        }
      } else if k == j {
        assert t[k] == s[j - 1];
        assert rank(s[j - 1]) <= rank(s[l]);
      }
    }
  }

  /** When the step at `j` meets a neighbour of no greater rank, or the front, the first
      `i + 1` steps are sorted. */
  lemma InsertDone(rank: string -> nat, s: seq<string>, i: int, j: int)
    requires Inserting(rank, s, i, j) && (j == 0 || rank(s[j - 1]) <= rank(s[j]))
    ensures SortedBelow(rank, s, i + 1)
  {
    forall k, l | 0 <= k < l < i + 1 ensures rank(s[k]) <= rank(s[l]) {
      if k == j {
      } else if l == j {
        assert rank(s[k]) <= rank(s[j - 1]);
      }
    }
  }

  /** The step ranking is one of the four priorities. */
  lemma StepRankFour()
    ensures FourRanks(StepRank)
  {
  }
}
