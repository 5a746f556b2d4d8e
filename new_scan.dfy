/** The new-scan form (frontend/src/components/NewScan.jsx): its state, the target
    validation with the IPv4 and domain-name regular expressions, submission and input
    changes. The two regular expressions are modelled by the strings they match as a
    whole, and each is proved equal to a plain description of the accepted targets. */
module NewScan {
  import opened Text
  import opened Domain

  // ---------------------------------------------------------------------------
  // ipRegex

  /** One octet alternative, `25[0-5]|2[0-4][0-9]|[01]?[0-9][0-9]?`, matching all of `p`.
      The optional `[01]?` makes every two-digit string match, with or without it. */
  predicate OctetPattern(p: string) {
    || (|p| == 3 && p[0] == '2' && p[1] == '5' && '0' <= p[2] <= '5')
    || (|p| == 3 && p[0] == '2' && '0' <= p[1] <= '4' && IsDigit(p[2]))
    || (|p| == 3 && (p[0] == '0' || p[0] == '1') && IsDigit(p[1]) && IsDigit(p[2]))
    || (|p| == 2 && IsDigit(p[0]) && IsDigit(p[1]))
    || (|p| == 1 && IsDigit(p[0]))
  }

  /** Dots at `p1`, `p2` and `p3` that split `s` into four octet matches. */
  predicate OctetsAround(s: string, p1: int, p2: int, p3: int) {
    && 0 <= p1 < p2 < p3 < |s|
    && s[p1] == '.' && s[p2] == '.' && s[p3] == '.'
    && OctetPattern(s[..p1]) && OctetPattern(s[p1 + 1..p2])
    && OctetPattern(s[p2 + 1..p3]) && OctetPattern(s[p3 + 1..])
  }

  /** `ipRegex.test(s)`: `^(?:OCTET\.){3}OCTET$`, that is, three dots at which `s` splits
      into four octet matches. */
  predicate IpPattern(s: string) {
    exists p1, p2, p3 | 0 <= p1 < p2 < p3 < |s| :: OctetsAround(s, p1, p2, p3)
  }

  /** One to three decimal digits, leading zeros allowed, of value at most 255. */
  predicate Octet(p: string) {
    1 <= |p| <= 3 && AllDigits(p) && DigitsValue(p) <= 255
  }

  /** A dotted-quad IPv4 address: exactly four dot-separated octets. */
  predicate IsIPv4(s: string) {
    var parts := Split(s, '.');
    |parts| == 4 && forall k | 0 <= k < 4 :: Octet(parts[k])
  }

  /** The value of a digit string of length one, two or three. */
  lemma ShortDigitsValue(p: string)
    requires 1 <= |p| <= 3 && AllDigits(p)
    ensures |p| == 1 ==> DigitsValue(p) == DigitValue(p[0])
    ensures |p| == 2 ==> DigitsValue(p) == 10 * DigitValue(p[0]) + DigitValue(p[1])
    ensures |p| == 3 ==> DigitsValue(p) == 100 * DigitValue(p[0]) + 10 * DigitValue(p[1]) + DigitValue(p[2])
  {
    var one := p[..1];
    assert one[..0] == [];
    assert DigitsValue(one) == DigitValue(p[0]);
    if |p| >= 2 {
      var two := p[..2];
      assert two[..1] == one;
      assert DigitsValue(two) == 10 * DigitValue(p[0]) + DigitValue(p[1]);
      if |p| == 3 {
        assert p[..3] == p;
      } else {
        assert two == p;
      }
    } else {
      assert one == p;
    }
  }

  /** The octet alternatives match exactly the octets. */
  lemma OctetPatternIsOctet(p: string)
    ensures OctetPattern(p) <==> Octet(p)
  {
    if 1 <= |p| <= 3 && AllDigits(p) {
      ShortDigitsValue(p);
    }
  }

  /** An octet match has no dot. */
  lemma OctetPatternNoDot(p: string)
    requires OctetPattern(p)
    ensures '.' !in p
  {
    assert AllDigits(p);
  }

  /** Four parts joined by dots. */
  lemma FourParts(a: string, b: string, c: string, d: string)
    ensures Join([a, b, c, d], ".") == a + "." + (b + "." + (c + "." + d))
  {
    assert [a, b, c, d][1..] == [b, c, d];
    assert [b, c, d][1..] == [c, d];
    assert [c, d][1..] == [d];
    assert Join([c, d], ".") == c + "." + d;
    assert Join([b, c, d], ".") == b + "." + (c + "." + d);
  }

  /** A dot at `q` splits the slice from `i` into the part before the dot and the rest. */
  lemma DotSplit(s: string, i: int, q: int)
    requires 0 <= i <= q < |s| && s[q] == '.'
    ensures s[i..] == s[i..q] + "." + s[q + 1..]
  {
    assert s[i..] == s[i..q] + s[q..];
    assert s[q..] == [s[q]] + s[q + 1..];
  }

  /** Three dots cut a string into four parts whose dotted join is the string. */
  lemma DotsJoin(s: string, p1: int, p2: int, p3: int)
    requires 0 <= p1 < p2 < p3 < |s| && s[p1] == '.' && s[p2] == '.' && s[p3] == '.'
    ensures s == Join([s[..p1], s[p1 + 1..p2], s[p2 + 1..p3], s[p3 + 1..]], ".")
  {
    DotSplit(s, p2 + 1, p3);
    DotSplit(s, p1 + 1, p2);
    DotSplit(s, 0, p1);
    assert s == s[0..] && s[..p1] == s[0..p1];
    FourParts(s[..p1], s[p1 + 1..p2], s[p2 + 1..p3], s[p3 + 1..]);
  }

  /** The dotted join of four parts has its dots right after each of the first three
      parts, and the parts between them. */
  lemma JoinDots(a: string, b: string, c: string, d: string)
    ensures var s := Join([a, b, c, d], ".");
      var p1 := |a|;
      var p2 := p1 + 1 + |b|;
      var p3 := p2 + 1 + |c|;
      && p3 < |s| && s[p1] == '.' && s[p2] == '.' && s[p3] == '.'
      && s[..p1] == a && s[p1 + 1..p2] == b && s[p2 + 1..p3] == c && s[p3 + 1..] == d
  {
    FourParts(a, b, c, d);
    var t2 := c + "." + d;
    var t1 := b + "." + t2;
    var s := a + "." + t1;
    var p1 := |a|;
    var p2 := p1 + 1 + |b|;
    assert s[..p1] == a && s[p1] == '.' && s[p1 + 1..] == t1;
    assert t1[..|b|] == b && t1[|b|] == '.' && t1[|b| + 1..] == t2;
    assert t2[..|c|] == c && t2[|c|] == '.' && t2[|c| + 1..] == d;
    assert s[p1 + 1..p2] == t1[..|b|] && s[p2 + 1..] == t2;
  }

  /** Four octet matches separated by three dots form a dotted quad. */
  lemma OctetsFormIPv4(s: string, p1: int, p2: int, p3: int)
    requires OctetsAround(s, p1, p2, p3)
    ensures IsIPv4(s)
  {
    var a, b, c, d := s[..p1], s[p1 + 1..p2], s[p2 + 1..p3], s[p3 + 1..];
    DotsJoin(s, p1, p2, p3);
    OctetPatternNoDot(a);
    OctetPatternNoDot(b);
    OctetPatternNoDot(c);
    OctetPatternNoDot(d);
    var parts := [a, b, c, d];
    assert forall k | 0 <= k < |parts| :: '.' !in parts[k];
    SplitJoin(parts, '.');
    assert Split(s, '.') == parts;
    OctetPatternIsOctet(a);
    OctetPatternIsOctet(b);
    OctetPatternIsOctet(c);
    OctetPatternIsOctet(d);
    assert forall k | 0 <= k < 4 :: Octet(parts[k]);
  }

  /** The three dots of a dotted quad split it into four octet matches. */
  lemma IPv4Dots(s: string) returns (p1: int, p2: int, p3: int)
    requires IsIPv4(s)
    ensures OctetsAround(s, p1, p2, p3)
  {
    var a, b, c, d := IPv4Parts(s);
    OctetPatternIsOctet(a);
    OctetPatternIsOctet(b);
    OctetPatternIsOctet(c);
    OctetPatternIsOctet(d);
    p1, p2, p3 := JoinedOctets(a, b, c, d);
  }

  /** Four octet matches joined by dots have their three dots between them. */
  lemma JoinedOctets(a: string, b: string, c: string, d: string) returns (p1: int, p2: int, p3: int)
    requires OctetPattern(a) && OctetPattern(b) && OctetPattern(c) && OctetPattern(d)
    ensures OctetsAround(Join([a, b, c, d], "."), p1, p2, p3)
  {
    JoinDots(a, b, c, d);
    p1 := |a|;
    p2 := p1 + 1 + |b|;
    p3 := p2 + 1 + |c|;
  }

  /** A dotted quad is the dotted join of its four octets. */
  lemma IPv4Parts(s: string) returns (a: string, b: string, c: string, d: string)
    requires IsIPv4(s)
    ensures s == Join([a, b, c, d], ".")
    ensures Octet(a) && Octet(b) && Octet(c) && Octet(d)
  {
    var parts := Split(s, '.');
    JoinSplit(s, '.');
    a, b, c, d := parts[0], parts[1], parts[2], parts[3];
    assert Octet(a) && Octet(b) && Octet(c) && Octet(d);
    assert parts == [a, b, c, d];
  }

  /** `ipRegex` accepts exactly the dotted-quad addresses. */
  lemma IpPatternIsIPv4(s: string)
    ensures IpPattern(s) <==> IsIPv4(s)
  {
    if IpPattern(s) {
      var p1, p2, p3 :| OctetsAround(s, p1, p2, p3);
      OctetsFormIPv4(s, p1, p2, p3);
    }
    if IsIPv4(s) {
      var p1, p2, p3 := IPv4Dots(s);
    }
  }

  // ---------------------------------------------------------------------------
  // domainRegex

  /** `[a-zA-Z0-9][a-zA-Z0-9-]{1,61}[a-zA-Z0-9]` matching all of `l`. */
  predicate LabelPattern(l: string) {
    3 <= |l| <= 63 && IsAlnum(l[0]) && IsAlnum(l[|l| - 1])
    && forall i | 1 <= i < |l| - 1 :: IsAlnum(l[i]) || l[i] == '-'
  }

  /** `[a-zA-Z]{2,}` matching all of `t`. */
  predicate TldPattern(t: string) {
    |t| >= 2 && forall i | 0 <= i < |t| :: IsLetter(t[i])
  }

  /** A dot at `p` that splits `s` into a label match and a top-level-domain match. */
  predicate LabelAndTld(s: string, p: int) {
    0 <= p < |s| && s[p] == '.' && LabelPattern(s[..p]) && TldPattern(s[p + 1..])
  }

  /** `domainRegex.test(s)`. */
  predicate DomainPattern(s: string) {
    exists p | 0 <= p < |s| :: LabelAndTld(s, p)
  }

  /** A name of exactly two dot-separated parts: a label of 3 to 63 letters, digits and
      hyphens that starts and ends with a letter or digit, and a top-level domain of at
      least two letters. */
  predicate IsDomainName(s: string) {
    var parts := Split(s, '.');
    && |parts| == 2
    && 3 <= |parts[0]| <= 63
    && (forall i | 0 <= i < |parts[0]| :: IsAlnum(parts[0][i]) || parts[0][i] == '-')
    && IsAlnum(parts[0][0]) && IsAlnum(parts[0][|parts[0]| - 1])
    && |parts[1]| >= 2 && (forall i | 0 <= i < |parts[1]| :: IsLetter(parts[1][i]))
  }

  /** Two parts joined by a dot. */
  lemma TwoParts(a: string, b: string)
    ensures Join([a, b], ".") == a + "." + b
  {
    assert [a, b][1..] == [b];
  }

  /** A label match and a top-level-domain match around a dot form a domain name. */
  lemma PartsFormDomainName(s: string, p: int)
    requires LabelAndTld(s, p)
    ensures IsDomainName(s)
  {
    var a, b := s[..p], s[p + 1..];
    assert s == a + "." + b;
    TwoParts(a, b);
    assert '.' !in a by {
      assert forall i | 0 <= i < |a| :: IsAlnum(a[i]) || a[i] == '-';
    }
    SplitJoin([a, b], '.');
  }

  /** The dot of a domain name splits it into a label match and a top-level-domain
      match. */
  lemma DomainNameDot(s: string) returns (p: int)
    requires IsDomainName(s)
    ensures LabelAndTld(s, p)
  {
    var parts := Split(s, '.');
    JoinSplit(s, '.');
    var a, b := parts[0], parts[1];
    assert parts == [a, b];
    TwoParts(a, b);
    p := |a|;
    assert s[..p] == a && s[p + 1..] == b;
  }

  /** `domainRegex` accepts exactly the two-part names described by `IsDomainName`. */
  lemma DomainPatternIsDomainName(s: string)
    ensures DomainPattern(s) <==> IsDomainName(s)
  {
    if DomainPattern(s) {
      var p :| LabelAndTld(s, p);
      PartsFormDomainName(s, p);
    }
    if IsDomainName(s) {
      var p := DomainNameDot(s);
    }
  }

  /** A name with more than one dot, such as `sub.example.com`, is not accepted. */
  lemma MultiLabelRejected(s: string)
    requires |Split(s, '.')| > 2
    ensures !DomainPattern(s)
  {
    DomainPatternIsDomainName(s);
  }

  // ---------------------------------------------------------------------------
  // the form

  /** The fields of `scanForm`. */
  datatype Field = TargetField | ScanTypeField | DescriptionField

  datatype ScanForm = ScanForm(target: string, scanType: string, description: string)

  /** `scanForm[field]`. */
  function Get(form: ScanForm, field: Field): string {
    match field
    case TargetField => form.target
    case ScanTypeField => form.scanType
    case DescriptionField => form.description
  }

  /** `{ ...prev, [field]: value }`: the named field takes the value and no other field
      changes. */
  function WithField(form: ScanForm, field: Field, value: string): (r: ScanForm)
    ensures Get(r, field) == value
    ensures forall g | g != field :: Get(r, g) == Get(form, g)
  {
    match field
    case TargetField => form.(target := value)
    case ScanTypeField => form.(scanType := value)
    case DescriptionField => form.(description := value)
  }

  /** The errors' `setErrors((prev) => ({ ...prev, [field]: "" }))` when `errors[field]` is
      truthy: the field's message is emptied, and nothing else changes. */
  function ClearError(errors: map<Field, string>, field: Field): (r: map<Field, string>)
    ensures r.Keys == errors.Keys
    ensures field in r ==> r[field] == ""
    ensures forall g | g in r && g != field :: r[g] == errors[g]
  {
    if field in errors && errors[field] != "" then errors[field := ""] else errors
  }

  const TargetRequired := "Target is required"
  const InvalidTarget := "Please enter a valid IP address or domain name"

  /** The `newErrors` map `validateForm` builds. */
  function FormErrors(form: ScanForm): map<Field, string> {
    if Trim(form.target) == "" then map[TargetField := TargetRequired]
    else if !IpPattern(form.target) && !DomainPattern(form.target) then map[TargetField := InvalidTarget]
    else map[]
  }

  /** The form is valid exactly when its target is not blank and is a dotted-quad
      address or a two-part domain name. */
  lemma FormValid(form: ScanForm)
    ensures FormErrors(form) == map[] <==>
      Trim(form.target) != "" && (IsIPv4(form.target) || IsDomainName(form.target))
  {
    IpPatternIsIPv4(form.target);
    DomainPatternIsDomainName(form.target);
    if Trim(form.target) == "" || (!IpPattern(form.target) && !DomainPattern(form.target)) {
      assert TargetField in FormErrors(form);
    }
  }

  /** A blank target, and only a blank one, is reported as required; no field other than
      the target is ever reported. */
  lemma BlankTargetRequired(form: ScanForm)
    ensures FormErrors(form) == map[TargetField := TargetRequired] <==> Trim(form.target) == ""
    ensures FormErrors(form).Keys <= {TargetField}
  {
    var errors := FormErrors(form);
    if Trim(form.target) != "" {
      if !IpPattern(form.target) && !DomainPattern(form.target) {
        assert errors[TargetField] != TargetRequired by {
          assert |TargetRequired| != |InvalidTarget|;
        }
      } else {
        assert TargetField !in errors;
      }
    }
  }

  /** A string `ipRegex` accepts starts and ends with a digit. */
  lemma OctetsEndWithDigits(s: string, p1: int, p2: int, p3: int)
    requires OctetsAround(s, p1, p2, p3)
    ensures IsDigit(s[0]) && IsDigit(s[|s| - 1])
  {
    var a, d := s[..p1], s[p3 + 1..];
    assert |a| >= 1 && |d| >= 1;
    assert a[0] == s[0] && d[|d| - 1] == s[|s| - 1];
  }

  /** A string `domainRegex` accepts starts with a letter or digit and ends with a
      letter. */
  lemma LabelAndTldEnds(s: string, p: int)
    requires LabelAndTld(s, p)
    ensures IsAlnum(s[0]) && IsLetter(s[|s| - 1])
  {
    var l, t := s[..p], s[p + 1..];
    assert l[0] == s[0] && t[|t| - 1] == s[|s| - 1];
  }

  /** Both patterns start and end with a letter or digit. */
  lemma PatternsEndAlnum(s: string)
    requires IpPattern(s) || DomainPattern(s)
    ensures |s| > 0 && IsAlnum(s[0]) && IsAlnum(s[|s| - 1])
  {
    if IpPattern(s) {
      var p1, p2, p3 :| OctetsAround(s, p1, p2, p3);
      OctetsEndWithDigits(s, p1, p2, p3);
    } else {
      var p :| LabelAndTld(s, p);
      LabelAndTldEnds(s, p);
    }
  }

  /** The format check sees the untrimmed target, so a target that is not blank but
      starts or ends with whitespace is reported as invalid. */
  lemma UntrimmedTargetRejected(form: ScanForm)
    requires Trim(form.target) != "" && !IsTrimmed(form.target)
    ensures FormErrors(form) == map[TargetField := InvalidTarget]
  {
    UntrimmedNotAccepted(form.target);
  }

  /** Neither pattern accepts a string that starts or ends with whitespace. */
  lemma UntrimmedNotAccepted(t: string)
    requires !IsTrimmed(t)
    ensures !IpPattern(t) && !DomainPattern(t)
  {
    if IpPattern(t) || DomainPattern(t) {
      PatternsEndAlnum(t);
    }
  }

  /** `Object.keys(m).length === 0` holds exactly for the empty map. */
  lemma NoKeys(m: map<Field, string>)
    ensures |m.Keys| == 0 <==> m == map[]
  {
    if |m.Keys| == 0 {
      assert m.Keys == {};
    }
  }

  /** The component's state: `scanForm` and `errors`. */
  class Component {
    var scanForm: ScanForm
    var errors: map<Field, string>

    constructor()
      ensures scanForm == ScanForm("", "basic", "") && errors == map[]
    {
      scanForm := ScanForm("", "basic", "");
      errors := map[];
    }

    /** `validateForm`: sets the errors to the ones the form has, and answers whether
        there are none. */
    method ValidateForm() returns (valid: bool)
      modifies this
      ensures errors == FormErrors(scanForm) && scanForm == old(scanForm)
      ensures valid <==> errors == map[]
    {
      var target := scanForm.target;
      var newErrors: map<Field, string> := map[];
      if Trim(target) == "" {
        newErrors := newErrors[TargetField := TargetRequired];
      } else if !IpPattern(target) && !DomainPattern(target) {
        newErrors := newErrors[TargetField := InvalidTarget];
      }
      assert newErrors == FormErrors(ScanForm(target, scanForm.scanType, scanForm.description));
      errors := newErrors;
      valid := |newErrors.Keys| == 0;
      NoKeys(newErrors);
    }

    /** `handleSubmit`: validates, and hands the form to `onStartScan` (the answer) only
        when it is valid. */
    method HandleSubmit() returns (started: Option<ScanForm>)
      modifies this
      ensures errors == FormErrors(scanForm) && scanForm == old(scanForm)
      ensures started == if errors == map[] then Some(scanForm) else None
    {
      var valid := ValidateForm();
      if valid {
        return Some(scanForm);
      }
      return None;
    }

    /** `handleInputChange`: the named field takes the value, and the field's error, if
        it has a message, is emptied. */
    method HandleInputChange(field: Field, value: string)
      modifies this
      ensures scanForm == WithField(old(scanForm), field, value)
      ensures errors == ClearError(old(errors), field)
    {
      scanForm := WithField(scanForm, field, value);
      if field in errors && errors[field] != "" {
        errors := errors[field := ""];
      }
    }
  }
}
