/** The section extraction both analysis services apply to provider text: a case-insensitive
    regular expression `OPEN NAME CLOSE :? \s* ([\s\S]*?) (?=STOP)` and the
    split/filter/map pipeline that turns a section into list items.

    The match semantics are stated directly. A JavaScript regular expression without the
    `g` flag returns the leftmost match. Every alternative of every look-ahead used here
    includes `$`, so once the literal header matches at a position the rest of the
    pattern matches there too, and the first choices of the greedy `:?` and `\s*` are
    the ones kept. The lazy group then ends at the first position at or after its start
    where the look-ahead holds. Under the `i` flag, `[A-Z_]` also matches the lower-case
    ASCII letters, and a character matches an ASCII pattern character exactly when the
    two agree after ASCII case folding (JavaScript never folds a non-ASCII character onto
    an ASCII one). */
module Sections {
  import opened Text
  import opened Domain

  /** The look-ahead that ends a capture; each alternative set also has `\n\n` and `$`. */
  datatype Stop =
    | BlankLineOrLabel   // `\n[A-Z_]+:`
    | BlankLineOrBold    // `\n\*\*`
    | BlankLineOrHash    // `\n##`
    | BlankLineOrNumber  // `\d+\.`

  /** `OPEN NAME CLOSE`, an optional colon when `colon` holds, then `\s*` and the capture. */
  datatype Pattern = Pattern(open: string, close: string, colon: bool, stop: Stop)

  // ---------------------------------------------------------------------------
  // the header

  predicate HeaderAt(s: string, h: string, i: int) {
    0 <= i && i + |h| <= |s| && EqualsIgnoreCase(s[i..i + |h|], h)
  }

  /** The leftmost position at or after `from` where the header matches. */
  function FirstHeader(s: string, h: string, from: nat): (r: Option<nat>)
    ensures r.Some? ==> from <= r.value && HeaderAt(s, h, r.value)
    ensures r.Some? ==> forall i | from <= i < r.value :: !HeaderAt(s, h, i)
    ensures r.None? ==> forall i | from <= i :: !HeaderAt(s, h, i)
    decreases |s| - from
  {
    if from + |h| > |s| then None
    else if HeaderAt(s, h, from) then Some(from)
    else FirstHeader(s, h, from + 1)
  }

  /** A header `open + name + close` holds the name right after `open`. */
  lemma HeaderHoldsName(s: string, open: string, name: string, close: string, i: int)
    requires HeaderAt(s, open + name + close, i)
    ensures HeaderAt(s, name, i + |open|)
  {
    var h := open + name + close;
    var j := i + |open|;
    forall k | 0 <= k < |name|
      ensures LowerChar(s[j..j + |name|][k]) == LowerChar(name[k])
    {
      assert s[j..j + |name|][k] == s[i..i + |h|][|open| + k];
      assert h[|open| + k] == name[k];
    }
  }

  // ---------------------------------------------------------------------------
  // the capture

  /** The end of the `\s*` run starting at `i`. */
  function SkipWs(s: string, i: nat): (j: nat)
    requires i <= |s|
    ensures i <= j <= |s|
    ensures j == |s| || !IsWs(s[j])
    ensures forall k | i <= k < j :: IsWs(s[k])
    decreases |s| - i
  {
    if i < |s| && IsWs(s[i]) then SkipWs(s, i + 1) else i
  }

  predicate IsWordChar(c: char) { IsLetter(c) || c == '_' }

  /** `[A-Z_]+:` (case-insensitively) starts at `j`. */
  predicate LabelColonAt(s: string, j: int)
    decreases |s| - j
  {
    0 <= j && j + 1 < |s| && IsWordChar(s[j]) && (s[j + 1] == ':' || LabelColonAt(s, j + 1))
  }

  /** `\d+\.` starts at `j`. */
  predicate DigitsDotAt(s: string, j: int)
    decreases |s| - j
  {
    0 <= j && j + 1 < |s| && IsDigit(s[j]) && (s[j + 1] == '.' || DigitsDotAt(s, j + 1))
  }

  predicate BlankLineAt(s: string, e: int) {
    0 <= e && e + 1 < |s| && s[e] == '\n' && s[e + 1] == '\n'
  }

  /** The look-ahead holds at position `e`. */
  predicate StopAt(k: Stop, s: string, e: int) {
    || e == |s|
    || BlankLineAt(s, e)
    || (0 <= e < |s| && match k
        case BlankLineOrLabel => s[e] == '\n' && LabelColonAt(s, e + 1)
        case BlankLineOrBold => e + 2 < |s| && s[e] == '\n' && s[e + 1] == '*' && s[e + 2] == '*'
        case BlankLineOrHash => e + 2 < |s| && s[e] == '\n' && s[e + 1] == '#' && s[e + 2] == '#'
        case BlankLineOrNumber => DigitsDotAt(s, e))
  }

  /** Where the lazy group that starts at `c` ends. */
  function FirstStop(k: Stop, s: string, c: nat): (e: nat)
    requires c <= |s|
    ensures c <= e <= |s| && StopAt(k, s, e)
    ensures forall j | c <= j < e :: !StopAt(k, s, j)
    decreases |s| - c
  {
    if StopAt(k, s, c) then c else FirstStop(k, s, c + 1)
  }

  /** `match[1]`, or `None` when the pattern does not match at all. */
  function Capture(p: Pattern, s: string, name: string): (r: Option<string>)
    ensures r.None? <==> forall i :: !HeaderAt(s, p.open + name + p.close, i)
    ensures r.Some? ==> exists a | 0 <= a <= |s| :: r.value == CaptureAt(p, s, a)
  {
    var h := p.open + name + p.close;
    match FirstHeader(s, h, 0)
    case None => None
    case Some(i) => Some(CaptureAt(p, s, i + |h|))
  }

  /** The capture after a header that ends at `a`: the optional colon, `\s*`, then the lazy
      group up to the first stop. */
  function CaptureAt(p: Pattern, s: string, a: nat): string
    requires a <= |s|
  {
    var b := if p.colon && a < |s| && s[a] == ':' then a + 1 else a;
    var c := SkipWs(s, b);
    s[c..FirstStop(p.stop, s, c)]
  }

  /** No `"\n\n"` inside. */
  predicate NoBlankLine(t: string) {
    forall j | 0 <= j < |t| - 1 :: !BlankLineAt(t, j)
  }

  /** No digit directly followed by `"."` inside. */
  predicate NoDigitDot(t: string) {
    forall j | 0 <= j < |t| - 1 :: !(IsDigit(t[j]) && t[j + 1] == '.')
  }

  /** A capture is a slice of the text that is empty or starts with a non-space, and
      never holds a blank line; under the numbered stop it never holds a digit followed
      by a dot either. */
  lemma CaptureShape(p: Pattern, s: string, name: string) returns (c: nat, e: nat)
    requires Capture(p, s, name).Some?
    ensures c <= e <= |s| && Capture(p, s, name).value == s[c..e]
    ensures c == e || !IsWs(s[c])
    ensures NoBlankLine(s[c..e])
    ensures p.stop == BlankLineOrNumber ==> NoDigitDot(s[c..e])
  {
    var a :| 0 <= a <= |s| && Capture(p, s, name).value == CaptureAt(p, s, a);
    c, e := CaptureAtShape(p, s, a);
  }

  /** The capture after a header is a slice that is empty or starts with a non-space and
      runs up to the first stop. */
  lemma CaptureAtShape(p: Pattern, s: string, a: nat) returns (c: nat, e: nat)
    requires a <= |s|
    ensures c <= e <= |s| && CaptureAt(p, s, a) == s[c..e]
    ensures c == e || !IsWs(s[c])
    ensures NoBlankLine(s[c..e])
    ensures p.stop == BlankLineOrNumber ==> NoDigitDot(s[c..e])
  {
    var b := if p.colon && a < |s| && s[a] == ':' then a + 1 else a;
    c := SkipWs(s, b);
    e := FirstStop(p.stop, s, c);
    NoBlankLineBeforeStop(p.stop, s, c, e);
    if p.stop == BlankLineOrNumber {
      NoDigitDotBeforeStop(s, c, e);
    }
  }

  /** A stretch in which the look-ahead never holds has no blank line. */
  lemma NoBlankLineBeforeStop(k: Stop, s: string, c: nat, e: nat)
    requires c <= e <= |s|
    requires forall j | c <= j < e :: !StopAt(k, s, j)
    ensures NoBlankLine(s[c..e])
  {
    var t := s[c..e];
    forall j | 0 <= j < |t| - 1 ensures !BlankLineAt(t, j) {
      assert !StopAt(k, s, c + j);
      assert t[j] == s[c + j] && t[j + 1] == s[c + j + 1];
    }
  }

  /** A stretch in which the numbered look-ahead never holds has no digit followed by a
      dot. */
  lemma NoDigitDotBeforeStop(s: string, c: nat, e: nat)
    requires c <= e <= |s|
    requires forall j | c <= j < e :: !StopAt(BlankLineOrNumber, s, j)
    ensures NoDigitDot(s[c..e])
  {
    var t := s[c..e];
    forall j | 0 <= j < |t| - 1 ensures !(IsDigit(t[j]) && t[j + 1] == '.') {
      assert !StopAt(BlankLineOrNumber, s, c + j);
      assert t[j] == s[c + j] && t[j + 1] == s[c + j + 1];
    }
  }

  // ---------------------------------------------------------------------------
  // the first pattern that yields

  /** `for (const pattern of patterns) { if (match && match[1]) return match[1].trim() }
      return ""`. */
  function FirstSection(pats: seq<Pattern>, s: string, name: string): string
    decreases |pats|
  {
    if |pats| == 0 then ""
    else
      var m := Capture(pats[0], s, name);
      if m.Some? && m.value != "" then Trim(m.value) else FirstSection(pats[1..], s, name)
  }

  /** One step of the search from pattern `k` on. */
  lemma FirstSectionStep(pats: seq<Pattern>, k: nat, s: string, name: string)
    requires k < |pats|
    ensures var m := Capture(pats[k], s, name);
      FirstSection(pats[k..], s, name)
      == if m.Some? && m.value != "" then Trim(m.value) else FirstSection(pats[k + 1..], s, name)
  {
    assert pats[k..][0] == pats[k];
    assert pats[k..][1..] == pats[k + 1..];
  }

  /** A section is empty or a trimmed slice of the text without blank lines; under the
      numbered stop it holds no digit followed by a dot. */
  lemma {:induction false} SectionShape(pats: seq<Pattern>, s: string, name: string) returns (i: nat, j: nat)
    ensures i <= j <= |s| && FirstSection(pats, s, name) == s[i..j]
    ensures IsTrimmed(FirstSection(pats, s, name))
    ensures NoBlankLine(FirstSection(pats, s, name))
    ensures (forall k | 0 <= k < |pats| :: pats[k].stop == BlankLineOrNumber) ==>
      NoDigitDot(FirstSection(pats, s, name))
    decreases |pats|
  {
    if |pats| == 0 {
      return 0, 0;
    }
    var m := Capture(pats[0], s, name);
    if m.Some? && m.value != "" {
      i, j := TrimmedCaptureShape(pats[0], s, name);
    } else {
      var tail := pats[1..];
      i, j := SectionShape(tail, s, name);
      assert forall k | 0 <= k < |tail| :: tail[k] == pats[k + 1];
    }
  }

  lemma TrimmedCaptureShape(p: Pattern, s: string, name: string) returns (i: nat, j: nat)
    requires Capture(p, s, name).Some?
    ensures var r := Trim(Capture(p, s, name).value);
      && i <= j <= |s| && r == s[i..j] && IsTrimmed(r) && NoBlankLine(r)
      && (p.stop == BlankLineOrNumber ==> NoDigitDot(r))
  {
    var c, e := CaptureShape(p, s, name);
    i, j := TrimmedSliceShape(s, c, e);
  }

  lemma TrimmedSliceShape(s: string, c: nat, e: nat) returns (i: nat, j: nat)
    requires c <= e <= |s|
    ensures i <= j <= |s| && Trim(s[c..e]) == s[i..j]
    ensures NoBlankLine(s[c..e]) ==> NoBlankLine(s[i..j])
    ensures NoDigitDot(s[c..e]) ==> NoDigitDot(s[i..j])
  {
    i, j := TrimOfSlice(s, c, e);
    InnerSliceShapes(s, c, e, i, j);
  }

  /** Trimming a slice of the text gives a slice of the text within it. */
  lemma TrimOfSlice(s: string, c: nat, e: nat) returns (i: nat, j: nat)
    requires c <= e <= |s|
    ensures c <= i <= j <= e && Trim(s[c..e]) == s[i..j]
  {
    var t := s[c..e];
    var a, b := TrimSlice(t);
    assert Trim(t) == t[a..b];
    SliceInSlice(s, c, e, a, b);
    i, j := c + a, c + b;
  }

  /** A slice of a slice is a slice of the whole. */
  lemma SliceInSlice(s: string, c: nat, e: nat, a: nat, b: nat)
    requires c <= e <= |s| && a <= b <= e - c
    ensures s[c..e][a..b] == s[c + a..c + b]
  {
    assert forall k | 0 <= k < b - a :: s[c..e][a..b][k] == s[c + a..c + b][k];
  }

  /** Blank-line and digit-dot freedom carry over to a slice within a slice. */
  lemma InnerSliceShapes(s: string, c: nat, e: nat, i: nat, j: nat)
    requires c <= i <= j <= e <= |s|
    ensures NoBlankLine(s[c..e]) ==> NoBlankLine(s[i..j])
    ensures NoDigitDot(s[c..e]) ==> NoDigitDot(s[i..j])
  {
    if NoBlankLine(s[c..e]) {
      forall k | 0 <= k < j - i - 1 ensures !BlankLineAt(s[i..j], k) {
        assert !BlankLineAt(s[c..e], i - c + k);
      }
    }
    if NoDigitDot(s[c..e]) {
      forall k | 0 <= k < j - i - 1 ensures !(IsDigit(s[i..j][k]) && s[i..j][k + 1] == '.') {
        assert s[i..j][k] == s[c..e][i - c + k];
        assert s[i..j][k + 1] == s[c..e][i - c + k + 1];
      }
    }
  }

  /** Trimming keeps a string free of blank lines and of digit-dot pairs. */
  lemma TrimShape(t: string) returns (a: nat, b: nat)
    ensures a <= b <= |t| && Trim(t) == t[a..b] && IsTrimmed(Trim(t))
    ensures NoBlankLine(t) ==> NoBlankLine(Trim(t))
    ensures NoDigitDot(t) ==> NoDigitDot(Trim(t))
  {
    a, b := TrimSlice(t);
    SliceShapes(t, a, b);
  }

  /** Blank-line and digit-dot freedom carry over to slices. */
  lemma SliceShapes(t: string, a: nat, b: nat)
    requires a <= b <= |t|
    ensures NoBlankLine(t) ==> NoBlankLine(t[a..b])
    ensures NoDigitDot(t) ==> NoDigitDot(t[a..b])
  {
    assert forall j | 0 <= j < b - a :: t[a..b][j] == t[a + j];
    if NoBlankLine(t) {
      forall j | 0 <= j < b - a - 1 ensures !BlankLineAt(t[a..b], j) {
        assert !BlankLineAt(t, a + j);
      }
    }
  }

  /** When the name occurs nowhere in the text (ignoring case), no pattern that embeds it
      matches and the section is empty. */
  lemma {:induction false} SectionOfAbsentName(pats: seq<Pattern>, s: string, name: string)
    requires forall i :: !HeaderAt(s, name, i)
    ensures FirstSection(pats, s, name) == ""
    decreases |pats|
  {
    if |pats| > 0 {
      var p := pats[0];
      forall i ensures !HeaderAt(s, p.open + name + p.close, i) {
        if HeaderAt(s, p.open + name + p.close, i) {
          HeaderHoldsName(s, p.open, name, p.close, i);
        }
      }
      SectionOfAbsentName(pats[1..], s, name);
    }
  }

  // ---------------------------------------------------------------------------
  // list items

  /** `lines.filter(keep).map(strip).filter((line) => line.length > 0)`. */
  function KeepStrip(lines: seq<string>, keep: string -> bool, strip: string -> string): seq<string>
    decreases |lines|
  {
    if |lines| == 0 then []
    else
      var l := lines[|lines| - 1];
      KeepStrip(lines[..|lines| - 1], keep, strip) + (if keep(l) && strip(l) != "" then [strip(l)] else [])
  }

  /** Every item comes, in order, from a kept line with a non-empty stripped form, and
      every such line yields an item: the pipeline is exactly an order-preserving
      selection. */
  lemma {:induction false} KeepStripOrigins(lines: seq<string>, keep: string -> bool, strip: string -> string)
    returns (idx: seq<nat>)
    ensures var items := KeepStrip(lines, keep, strip);
      && |idx| == |items| && Increasing(idx)
      && (forall k | 0 <= k < |idx| ::
            idx[k] < |lines| && keep(lines[idx[k]]) && items[k] == strip(lines[idx[k]]) && items[k] != "")
      && (forall j | 0 <= j < |lines| && keep(lines[j]) && strip(lines[j]) != "" :: j in idx)
    decreases |lines|
  {
    if |lines| == 0 {
      return [];
    }
    var n := |lines| - 1;
    var init := lines[..n];
    var l := lines[n];
    var rest := KeepStripOrigins(init, keep, strip);
    var before := KeepStrip(init, keep, strip);
    var items := KeepStrip(lines, keep, strip);
    var ok := (y: string) => keep(y) && strip(y) != "";
    assert SelectsAt(init, ok, strip, before, rest);
    SelectsAtSnoc(init, l, ok, strip, before, rest);
    assert lines == init + [l];
    if keep(l) && strip(l) != "" {
      idx := rest + [n];
      assert items == before + [strip(l)];
    } else {
      idx := rest;
      assert items == before;
    }
  }
}
