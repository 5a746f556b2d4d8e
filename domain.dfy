/** The values the Node backend passes between the scanner, the analysis services and the
    report controller. */
module Domain {

  datatype Option<T> = None | Some(value: T)

  /** A vulnerability finding as the backend stores it in a scan: the fields of a mock
      table entry plus the scan's target and the time it was discovered. Severity stays a
      string because every consumer compares it against string literals and has a branch
      for values outside the four declared ones. Times are opaque naturals. */
  datatype Finding = Finding(
    name: string,
    description: string,
    severity: string,
    port: int,
    service: string,
    target: string,
    discoveredAt: nat)

  /** The five sections an analysis service returns, whether taken from provider text or
      synthesised locally. */
  datatype Analysis = Analysis(
    summary: string,
    riskAssessment: string,
    detailedAnalysis: string,
    remediationSteps: seq<string>,
    recommendations: seq<string>)

  /** What a call to a text-generation provider can come to: no API key configured, any
      error (transport, authentication, timeout, a malformed response object), or the
      text of the response. */
  datatype ProviderOutcome = NoKey | Failed | Responded(text: string)

  /** `vulnerabilities.filter((v) => v.severity === sev).length`. */
  function CountSeverity(fs: seq<Finding>, sev: string): (n: nat)
    ensures n <= |fs|
    decreases |fs|
  {
    if |fs| == 0 then 0
    else CountSeverity(fs[..|fs| - 1], sev) + (if fs[|fs| - 1].severity == sev then 1 else 0)
  }

  /** `vulnerabilities.some((v) => v.severity === sev)`. */
  predicate HasSeverity(fs: seq<Finding>, sev: string) {
    exists i | 0 <= i < |fs| :: fs[i].severity == sev
  }

  /** A severity is counted at least once exactly when some finding carries it. */
  lemma {:induction false} CountPositive(fs: seq<Finding>, sev: string)
    ensures CountSeverity(fs, sev) > 0 <==> HasSeverity(fs, sev)
    decreases |fs|
  {
    if |fs| > 0 {
      var init := fs[..|fs| - 1];
      CountPositive(init, sev);
      if HasSeverity(init, sev) {
        var i :| 0 <= i < |init| && init[i].severity == sev;
        assert fs[i].severity == sev;
      }
      if HasSeverity(fs, sev) && fs[|fs| - 1].severity != sev {
        var i :| 0 <= i < |fs| && fs[i].severity == sev;
        assert init[i].severity == sev;
      }
    }
  }

  // ---------------------------------------------------------------------------
  // order-preserving selection

  /** Strictly increasing positions. */
  predicate Increasing(idx: seq<nat>) {
    forall a, b | 0 <= a < b < |idx| :: idx[a] < idx[b]
  }

  /** `s.filter(keep)`. */
  function Filter<T>(s: seq<T>, keep: T -> bool): (r: seq<T>)
    ensures |r| <= |s|
    decreases |s|
  {
    if |s| == 0 then []
    else Filter(s[..|s| - 1], keep) + (if keep(s[|s| - 1]) then [s[|s| - 1]] else [])
  }

  /** `s.map(f)`. */
  function Map<T, U>(s: seq<T>, f: T -> U): (r: seq<U>)
    ensures |r| == |s|
    ensures forall i | 0 <= i < |s| :: r[i] == f(s[i])
  {
    seq(|s|, i requires 0 <= i < |s| => f(s[i]))
  }

  /** Mapping one more element appends its image. */
  lemma MapSnoc<T, U>(s: seq<T>, x: T, f: T -> U)
    ensures Map(s + [x], f) == Map(s, f) + [f(x)]
  {
    var r := Map(s + [x], f);
    forall i | 0 <= i < |s| + 1 ensures r[i] == (Map(s, f) + [f(x)])[i] {
      if i < |s| {
        assert (s + [x])[i] == s[i];
      }
    }
  }

  /** The filter keeps exactly the elements that pass, in their original order: its
      result is the subsequence at the increasing positions `idx`, and these are all the
      passing positions. */
  lemma {:induction false} FilterSelection<T>(s: seq<T>, keep: T -> bool) returns (idx: seq<nat>)
    ensures var r := Filter(s, keep);
      && |idx| == |r| && Increasing(idx)
      && (forall k | 0 <= k < |idx| :: idx[k] < |s| && r[k] == s[idx[k]] && keep(s[idx[k]]))
      && (forall j | 0 <= j < |s| && keep(s[j]) :: j in idx)
    decreases |s|
  {
    if |s| == 0 {
      return [];
    }
    var n := |s| - 1;
    var init, x := s[..n], s[n];
    var rest := FilterSelection(init, keep);
    var before := Filter(init, keep);
    var id := (y: T) => y;
    assert SelectsAt(init, keep, id, before, rest);
    SelectsAtSnoc(init, x, keep, id, before, rest);
    assert s == init + [x];
    if keep(x) {
      idx := rest + [n];
      assert Filter(s, keep) == before + [x];
    } else {
      idx := rest;
      assert Filter(s, keep) == before;
    }
  }

  /** `r` is the image under `img` of the elements of `s` at the increasing positions
      `idx`, and these are exactly the positions whose element satisfies `ok`. */
  ghost predicate SelectsAt<T, U>(s: seq<T>, ok: T -> bool, img: T -> U, r: seq<U>, idx: seq<nat>) {
    && |idx| == |r| && Increasing(idx)
    && (forall k | 0 <= k < |idx| :: idx[k] < |s| && r[k] == img(s[idx[k]]) && ok(s[idx[k]]))
    && (forall j | 0 <= j < |s| && ok(s[j]) :: j in idx)
  }

  /** One more element extends a selection by its image exactly when it satisfies `ok`. */
  lemma SelectsAtSnoc<T, U>(s: seq<T>, x: T, ok: T -> bool, img: T -> U, r: seq<U>, idx: seq<nat>)
    requires SelectsAt(s, ok, img, r, idx)
    ensures ok(x) ==> SelectsAt(s + [x], ok, img, r + [img(x)], idx + [|s|])
    ensures !ok(x) ==> SelectsAt(s + [x], ok, img, r, idx)
  {
    var t := s + [x];
    assert forall k | 0 <= k < |s| :: t[k] == s[k];
    if ok(x) {
      var r', idx' := r + [img(x)], idx + [|s|];
      assert forall k | 0 <= k < |idx| :: idx'[k] == idx[k] && r'[k] == r[k];
      forall j | 0 <= j < |t| && ok(t[j]) ensures j in idx' {
        if j < |s| {
          assert j in idx;
        }
      }
    }
  }

  /** An element is in the filtered sequence exactly when it is in the sequence and
      passes. */
  lemma FilterMembers<T>(s: seq<T>, keep: T -> bool, x: T)
    ensures x in Filter(s, keep) <==> x in s && keep(x)
  {
    var idx := FilterSelection(s, keep);
    var r := Filter(s, keep);
    if x in s && keep(x) {
      var j :| 0 <= j < |s| && s[j] == x;
      var k :| 0 <= k < |idx| && idx[k] == j;
      assert r[k] == x;
    }
  }
}
