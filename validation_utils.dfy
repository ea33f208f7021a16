/** `ValidationUtils`: the e-mail pattern, the null-or-blank test, the id test, the
    customer validators and the two normalisers. The e-mail pattern is given twice: as
    the grammar the regular expression denotes, and as a deterministic recogniser that
    decides each `.` and `@` by its first occurrence; the two are proved to accept the
    same strings. */
module Validation {
  import opened Base
  import opened JavaStrings
  import opened CustomerModel

  // ------------------------------------------------------ the e-mail pattern

  /** The two bracketed character classes of the pattern. */
  datatype CharClass = LocalPart | DomainLabel

  /** `[a-zA-Z0-9_+&*-]` and `[a-zA-Z0-9-]`. Neither holds `.` or `@`. */
  predicate InClass(c: char, cls: CharClass)
  {
    IsAsciiLetter(c) || IsAsciiDigit(c) || c == '-' ||
    (cls == LocalPart && (c == '_' || c == '+' || c == '&' || c == '*'))
  }

  /** `[class]+`: one or more characters of the class. */
  predicate Run(s: string, cls: CharClass)
  {
    |s| > 0 && forall i :: 0 <= i < |s| ==> InClass(s[i], cls)
  }

  /** `[a-zA-Z]{2,7}`, the final label. */
  predicate TopLevel(s: string)
  {
    2 <= |s| <= 7 && forall i :: 0 <= i < |s| ==> IsAsciiLetter(s[i])
  }

  /** `R(?:\.R)*` for the run `R` of a class, read as the regular expression reads it:
      a run alone, or a run, a dot and the same shape again. */
  ghost predicate DottedRuns(s: string, cls: CharClass)
    decreases |s|
  {
    Run(s, cls) ||
    exists k :: 0 < k < |s| && s[k] == '.' && Run(s[..k], cls) && DottedRuns(s[k + 1..], cls)
  }

  /** `(?:[a-zA-Z0-9-]+\.)+[a-zA-Z]{2,7}`: one or more labels each followed by a dot,
      then the final label. */
  ghost predicate DomainShape(s: string)
    decreases |s|
  {
    exists k :: 0 < k < |s| && s[k] == '.' && Run(s[..k], DomainLabel) &&
      (TopLevel(s[k + 1..]) || DomainShape(s[k + 1..]))
  }

  /** The whole pattern, anchored at both ends as `matches()` requires. */
  ghost predicate EmailShape(s: string)
  {
    exists k :: 0 <= k < |s| && s[k] == '@' && DottedRuns(s[..k], LocalPart) && DomainShape(s[k + 1..])
  }

  /** Recogniser for `R(?:\.R)*`: the text before the first dot is a run, and the rest
      has the same shape. */
  predicate ScanRuns(s: string, cls: CharClass)
    decreases |s|
  {
    match IndexOf(s, '.')
    case None => Run(s, cls)
    case Some(k) => Run(s[..k], cls) && ScanRuns(s[k + 1..], cls)
  }

  /** Recogniser for the domain: the text before the first dot is a label, and what
      follows it is either the final label or again a domain. */
  predicate ScanDomain(s: string)
    decreases |s|
  {
    match IndexOf(s, '.')
    case None => false
    case Some(k) => Run(s[..k], DomainLabel) && (TopLevel(s[k + 1..]) || ScanDomain(s[k + 1..]))
  }

  /** Recogniser for the address: split at the first `@`. */
  predicate ScanEmail(s: string)
  {
    match IndexOf(s, '@')
    case None => false
    case Some(k) => ScanRuns(s[..k], LocalPart) && ScanDomain(s[k + 1..])
  }

  /** `isValidEmail`: not null, and the pattern matches the whole string. */
  predicate IsValidEmail(email: Option<string>)
  {
    email.Some? && ScanEmail(email.value)
  }

  /** The first `c` of `s` sits at `k` when the text before `k` holds none. */
  lemma FirstAt(s: string, k: nat, c: char)
    requires k < |s| && s[k] == c && c !in s[..k]
    ensures IndexOf(s, c) == Some(k)
  {
    assert s == s[..k] + [c] + s[k + 1..];
    IndexOfAfter(s[..k], s[k + 1..], c);
  }

  /** A run holds neither a dot nor an `@`. */
  lemma RunHasNoSeparator(s: string, cls: CharClass)
    requires Run(s, cls)
    ensures '.' !in s && '@' !in s
  {
  }

  lemma {:induction false} ScanRunsIsDotted(s: string, cls: CharClass)
    decreases |s|
    requires ScanRuns(s, cls)
    ensures DottedRuns(s, cls)
  {
    match IndexOf(s, '.')
    case None =>
    case Some(k) =>
      ScanRunsIsDotted(s[k + 1..], cls);
  }

  lemma {:induction false} DottedIsScanRuns(s: string, cls: CharClass)
    decreases |s|
    requires DottedRuns(s, cls)
    ensures ScanRuns(s, cls)
  {
    if Run(s, cls) {
      RunHasNoSeparator(s, cls);
      IndexOfIsFirst(s, '.');
    } else {
      var j :| 0 < j < |s| && s[j] == '.' && Run(s[..j], cls) && DottedRuns(s[j + 1..], cls);
      DottedIsScanRuns(s[j + 1..], cls);
      ScanRunsAtDot(s, j, cls);
    }
  }

  /** A run, a dot and a recognised rest are recognised: the dot is the first one. */
  lemma ScanRunsAtDot(s: string, j: nat, cls: CharClass)
    requires 0 < j < |s| && s[j] == '.' && Run(s[..j], cls) && ScanRuns(s[j + 1..], cls)
    ensures ScanRuns(s, cls)
  {
    RunHasNoSeparator(s[..j], cls);
    FirstAt(s, j, '.');
  }

  lemma {:induction false} DomainShapeIsScanDomain(s: string)
    decreases |s|
    ensures DomainShape(s) <==> ScanDomain(s)
  {
    if DomainShape(s) {
      var j :| 0 < j < |s| && s[j] == '.' && Run(s[..j], DomainLabel) &&
        (TopLevel(s[j + 1..]) || DomainShape(s[j + 1..]));
      RunHasNoSeparator(s[..j], DomainLabel);
      FirstAt(s, j, '.');
      DomainShapeIsScanDomain(s[j + 1..]);
    }
    if ScanDomain(s) {
      var k := IndexOf(s, '.').value;
      assert k > 0;
      DomainShapeIsScanDomain(s[k + 1..]);
    }
  }

  /** An `@` with dotted runs before it and a domain after it is the first `@`. */
  lemma ScanAt(s: string, k: nat)
    requires k < |s| && s[k] == '@'
    requires ScanRuns(s[..k], LocalPart) && ScanDomain(s[k + 1..])
    ensures ScanEmail(s)
  {
    ScanRunsHasNoAt(s[..k], LocalPart);
    FirstAt(s, k, '@');
  }

  lemma ShapeIsScanned(s: string)
    requires EmailShape(s)
    ensures ScanEmail(s)
  {
    var k :| 0 <= k < |s| && s[k] == '@' && DottedRuns(s[..k], LocalPart) && DomainShape(s[k + 1..]);
    DottedIsScanRuns(s[..k], LocalPart);
    DomainShapeIsScanDomain(s[k + 1..]);
    ScanAt(s, k);
  }

  lemma ScannedIsShape(s: string)
    requires ScanEmail(s)
    ensures EmailShape(s)
  {
    var k := IndexOf(s, '@').value;
    ScanRunsIsDotted(s[..k], LocalPart);
    DomainShapeIsScanDomain(s[k + 1..]);
    assert 0 <= k < |s| && s[k] == '@' && DottedRuns(s[..k], LocalPart) && DomainShape(s[k + 1..]);
  }

  /** The recogniser accepts exactly the strings the grammar of the pattern denotes. */
  lemma EmailShapeIsScanEmail(s: string)
    ensures EmailShape(s) <==> ScanEmail(s)
  {
    if EmailShape(s) { ShapeIsScanned(s); }
    if ScanEmail(s) { ScannedIsShape(s); }
  }

  // ------------------------------------------------ shape of a valid address

  /** A string of dotted runs is made of class characters and dots, and neither starts
      nor ends with a dot. */
  lemma {:induction false} ScanRunsChars(s: string, cls: CharClass)
    decreases |s|
    requires ScanRuns(s, cls)
    ensures |s| > 0 && s[0] != '.' && s[|s| - 1] != '.'
    ensures forall i :: 0 <= i < |s| ==> InClass(s[i], cls) || s[i] == '.'
  {
    match IndexOf(s, '.')
    case None =>
    case Some(k) =>
      var t := s[k + 1..];
      ScanRunsChars(t, cls);
      assert s[|s| - 1] == t[|t| - 1];
      forall i | 0 <= i < |s| ensures InClass(s[i], cls) || s[i] == '.' {
        if i < k { assert s[..k][i] == s[i]; }
        else if i > k { assert t[i - k - 1] == s[i]; }
      }
  }

  lemma ScanRunsHasNoAt(s: string, cls: CharClass)
    requires ScanRuns(s, cls)
    ensures '@' !in s
  {
    ScanRunsChars(s, cls);
    assert forall i :: 0 <= i < |s| ==> s[i] != '@';
  }

  /** A domain is made of label characters and dots and ends in a letter. */
  lemma {:induction false} ScanDomainChars(s: string)
    decreases |s|
    requires ScanDomain(s)
    ensures |s| > 0 && IsAsciiLetter(s[|s| - 1])
    ensures forall i :: 0 <= i < |s| ==> InClass(s[i], DomainLabel) || s[i] == '.'
  {
    var k := IndexOf(s, '.').value;
    var t := s[k + 1..];
    if !TopLevel(t) {
      ScanDomainChars(t);
    }
    assert s[|s| - 1] == t[|t| - 1];
    forall i | 0 <= i < |s| ensures InClass(s[i], DomainLabel) || s[i] == '.' {
      if i < k { assert s[..k][i] == s[i]; }
      else if i > k { assert t[i - k - 1] == s[i]; }
    }
  }

  /** A valid address holds exactly one `@`, and starts and ends with neither a dot
      nor an `@`. */
  lemma ValidEmailShape(s: string)
    requires IsValidEmail(Some(s))
    ensures exists k :: 0 <= k < |s| && s[k] == '@'
    ensures forall i, j :: 0 <= i < |s| && 0 <= j < |s| && s[i] == '@' && s[j] == '@' ==> i == j
    ensures s[0] != '.' && s[0] != '@' && s[|s| - 1] != '.' && s[|s| - 1] != '@'
  {
    var k := IndexOf(s, '@').value;
    var a, b := s[..k], s[k + 1..];
    assert forall i :: 0 <= i < k ==> s[i] != '@' by {
      ScanRunsChars(a, LocalPart);
      assert forall i :: 0 <= i < k ==> s[i] == a[i];
    }
    assert forall i :: k < i < |s| ==> s[i] != '@' by {
      ScanDomainChars(b);
      assert forall i :: k < i < |s| ==> s[i] == b[i - k - 1];
    }
    assert s[0] != '.' && s[0] != '@' by {
      ScanRunsChars(a, LocalPart);
      assert s[0] == a[0];
    }
    assert s[|s| - 1] != '.' && s[|s| - 1] != '@' by {
      ScanDomainChars(b);
      assert s[|s| - 1] == b[|b| - 1];
    }
  }

  /** Two runs joined by a dot are dotted runs. */
  lemma JoinRuns(a: string, b: string, cls: CharClass)
    requires Run(a, cls) && Run(b, cls)
    ensures ScanRuns(a + "." + b, cls)
  {
    var s := a + "." + b;
    RunHasNoSeparator(a, cls);
    RunHasNoSeparator(b, cls);
    IndexOfAfter(a, b, '.');
    assert s[..|a|] == a && s[|a| + 1..] == b;
    IndexOfIsFirst(b, '.');
  }

  /** A label, a dot and a final label make a domain. */
  lemma JoinDomain(first: string, top: string)
    requires Run(first, DomainLabel) && TopLevel(top)
    ensures ScanDomain(first + "." + top)
  {
    var s := first + "." + top;
    RunHasNoSeparator(first, DomainLabel);
    IndexOfAfter(first, top, '.');
    assert s[..|first|] == first && s[|first| + 1..] == top;
  }

  /** A local part, an `@` and a domain make an address. */
  lemma JoinEmail(user: string, domain: string)
    requires ScanRuns(user, LocalPart) && ScanDomain(domain)
    ensures IsValidEmail(Some(user + "@" + domain))
  {
    var s := user + "@" + domain;
    ScanRunsHasNoAt(user, LocalPart);
    IndexOfAfter(user, domain, '@');
    assert s[..|user|] == user && s[|user| + 1..] == domain;
  }

  /** An address whose domain is one label and a one-character final label (as in
      `john@example.c`) is refused: the final label needs two to seven letters. */
  lemma ShortTopLevelRefused(user: string, host: string, c: char)
    requires '@' !in user && '.' !in host && c != '.'
    ensures !IsValidEmail(Some(user + "@" + host + "." + [c]))
  {
    var domain := host + "." + [c];
    var s := user + "@" + domain;
    assert s == user + ['@'] + domain;
    IndexOfAfter(user, domain, '@');
    assert s[|user| + 1..] == domain;
    assert domain == host + ['.'] + [c];
    IndexOfAfter(host, [c], '.');
    assert domain[|host| + 1..] == [c];
    IndexOfIsFirst([c], '.');
    assert !ScanDomain([c]);
    assert !ScanDomain(domain);
    assert !ScanEmail(s);
    assert user + "@" + host + "." + [c] == s;
  }

  // ------------------------------------------------------- the other checks

  /** `isNotNullOrEmpty`: not null, and something other than blanks. */
  predicate IsNotNullOrEmpty(value: Option<string>)
  {
    value.Some? && Trim(value.value) != ""
  }

  lemma NotNullOrEmptyMeansNonBlank(value: Option<string>)
    ensures IsNotNullOrEmpty(value) <==>
      value.Some? && exists i :: 0 <= i < |value.value| && value.value[i] > ' '
  {
  }

  /** `isValidId`: not null and positive. */
  predicate IsValidId(id: Option<int>)
  {
    id.Some? && id.value > 0
  }

  /** `isValidCustomerForCreation`: a customer is present, its name is not blank and
      its e-mail address matches. */
  predicate IsValidCustomerForCreation(customer: Option<Customer>)
  {
    customer.Some? && IsNotNullOrEmpty(customer.value.name) && IsValidEmail(customer.value.email)
  }

  /** `isValidCustomerForUpdate`, written out separately in the source with the same
      test. */
  predicate IsValidCustomerForUpdate(customer: Option<Customer>)
  {
    if customer.None? then false
    else IsNotNullOrEmpty(customer.value.name) && IsValidEmail(customer.value.email)
  }

  /** Both validators accept the same customers; neither accepts a missing one, one
      without a name or one without an e-mail address. */
  lemma ValidatorsAgree(customer: Option<Customer>)
    ensures IsValidCustomerForCreation(customer) <==> IsValidCustomerForUpdate(customer)
    ensures IsValidCustomerForCreation(customer) ==>
      customer.Some? && customer.value.name.Some? && customer.value.email.Some?
  {
  }

  /** `isValidEmail` accepts exactly the non-null strings the anchored pattern matches. */
  lemma IsValidEmailMatchesPattern(email: Option<string>)
    ensures IsValidEmail(email) <==> email.Some? && EmailShape(email.value)
  {
    if email.Some? {
      EmailShapeIsScanEmail(email.value);
    }
  }

  /** What either validator demands of a customer, spelled out: it is present, its name
      has a character above a blank, and its e-mail address matches the pattern. */
  lemma {:induction false} CustomerValidity(customer: Option<Customer>)
    ensures IsValidCustomerForCreation(customer) <==>
      && customer.Some?
      && customer.value.name.Some?
      && (exists i :: 0 <= i < |customer.value.name.value| && customer.value.name.value[i] > ' ')
      && customer.value.email.Some?
      && EmailShape(customer.value.email.value)
  {
    if customer.Some? {
      NotNullOrEmptyMeansNonBlank(customer.value.name);
      IsValidEmailMatchesPattern(customer.value.email);
    }
  }

  /** `sanitizeString`: the trimmed string, null for null. */
  function SanitizeString(input: Option<string>): (r: Option<string>)
    ensures r.None? <==> input.None?
    ensures r.Some? ==> r.value == [] || (r.value[0] > ' ' && r.value[|r.value| - 1] > ' ')
  {
    match input
    case None => None
    case Some(s) => Some(Trim(s))
  }

  lemma SanitizeIdempotent(input: Option<string>)
    ensures SanitizeString(SanitizeString(input)) == SanitizeString(input)
  {
    if input.Some? {
      TrimIdempotent(input.value);
    }
  }

  /** `normalizeEmail`: trimmed, then lower-cased; null for null. */
  function NormalizeEmail(email: Option<string>): (r: Option<string>)
    ensures r.None? <==> email.None?
    ensures r.Some? ==> |r.value| == |Trim(email.value)|
  {
    match email
    case None => None
    case Some(s) => Some(ToLower(Trim(s)))
  }

  /** A normalised address has no blank at either end and no upper-case letter, and
      normalising it again changes nothing. */
  lemma {:induction false} NormalizeEmailIsNormal(email: Option<string>)
    requires email.Some?
    ensures var n := NormalizeEmail(email).value;
      && (n == [] || (n[0] > ' ' && n[|n| - 1] > ' '))
      && (forall i :: 0 <= i < |n| ==> !IsAsciiUpper(n[i]))
      && NormalizeEmail(NormalizeEmail(email)) == NormalizeEmail(email)
  {
    var t := Trim(email.value);
    var n := ToLower(t);
    ToLowerHasNoUpper(t);
    assert n == [] || (n[0] > ' ' && n[|n| - 1] > ' ') by {
      if n != [] {
        assert n[0] == LowerChar(t[0]) && n[|n| - 1] == LowerChar(t[|t| - 1]);
      }
    }
    TrimOfTrimmed(n);
    ToLowerIdempotent(t);
    assert NormalizeEmail(Some(n)) == Some(ToLower(Trim(n)));
  }
}
