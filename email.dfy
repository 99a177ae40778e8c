/** The sign-up e-mail check: only Gmail addresses are admitted, and the
    three ways an address can be refused are tried in a fixed order. */
module Email {
  import opened Wrappers

  const GmailSuffix: string := "@gmail.com"

  const RequiredError: string := "Email is required"
  const GmailOnlyError: string := "Only Gmail addresses (@gmail.com) are allowed"
  const FormatError: string := "Invalid Gmail format"

  /** `String.prototype.toLowerCase` on one character, for the ASCII letters. */
  function LowerChar(c: char): char
  {
    if 'A' <= c <= 'Z' then (c as int + 32) as char else c
  }

  function ToLower(s: string): (r: string)
    ensures |r| == |s|
    ensures forall i :: 0 <= i < |s| ==> r[i] == LowerChar(s[i])
  {
    seq(|s|, i requires 0 <= i < |s| => LowerChar(s[i]))
  }

  /** Whatever is split off in front, an address of the form
      `local + "@gmail.com"` ends with the suffix. */
  lemma EndsWithSuffix(lower: string)
    ensures forall local: string :: lower == local + GmailSuffix ==>
              |GmailSuffix| <= |lower| && lower[|lower| - |GmailSuffix|..] == GmailSuffix
  {
    forall local: string | lower == local + GmailSuffix
      ensures |GmailSuffix| <= |lower| && lower[|lower| - |GmailSuffix|..] == GmailSuffix
    {
      assert |lower| - |GmailSuffix| == |local|;
    }
  }

  /** `isGmailEmail`: the lower-cased address ends with "@gmail.com". */
  function IsGmailEmail(email: string): (r: bool)
    ensures r <==> exists local: string :: ToLower(email) == local + GmailSuffix
  {
    var lower := ToLower(email);
    EndsWithSuffix(lower);
    if |GmailSuffix| <= |lower| && lower[|lower| - |GmailSuffix|..] == GmailSuffix then
      assert lower == lower[..|lower| - |GmailSuffix|] + GmailSuffix;
      true
    else
      false
  }

  /** The characters of JavaScript's `\s` class. */
  predicate IsJsWhitespace(c: char)
  {
    || c == ' ' || c == '\t' || c == '\n' || c == '\U{000B}' || c == '\U{000C}' || c == '\r'
    || c == '\U{00A0}' || c == '\U{1680}' || ('\U{2000}' <= c <= '\U{200A}')
    || c == '\U{2028}' || c == '\U{2029}' || c == '\U{202F}' || c == '\U{205F}'
    || c == '\U{3000}' || c == '\U{FEFF}'
  }

  /** A character the class `[^\s@]` admits. */
  predicate LocalChar(c: char)
  {
    !IsJsWhitespace(c) && c != '@'
  }

  /** `/^[^\s@]+@gmail\.com$/i`: one or more local characters, then the
      suffix in any letter case. `[^\s@]` cannot match '@', so the only
      way to split the address is in front of its last ten characters. */
  predicate MatchesGmailPattern(email: string)
  {
    && |email| > |GmailSuffix|
    && (forall i :: 0 <= i < |email| - |GmailSuffix| ==> LocalChar(email[i]))
    && ToLower(email[|email| - |GmailSuffix|..]) == GmailSuffix
  }

  /** What is left in front of the Gmail suffix. */
  function LocalPart(email: string): (l: string)
    requires |email| >= |GmailSuffix|
    ensures email == l + email[|email| - |GmailSuffix|..]
  {
    email[..|email| - |GmailSuffix|]
  }

  /** A local part that is non-empty and holds neither '@' nor whitespace. */
  predicate LocalPartOk(email: string)
  {
    |email| >= |GmailSuffix| && |LocalPart(email)| > 0
    && forall c :: c in LocalPart(email) ==> LocalChar(c)
  }

  /** On an address that already passed `isGmailEmail`, the pattern test
      is exactly the local-part test. */
  lemma GmailPatternIsLocalPart(email: string)
    requires IsGmailEmail(email)
    ensures MatchesGmailPattern(email) <==> LocalPartOk(email)
  {
    var lower := ToLower(email);
    var n := |email| - |GmailSuffix|;
    var local: string :| lower == local + GmailSuffix;
    assert lower[|local|..] == GmailSuffix;
    assert ToLower(email[n..]) == lower[n..];
    forall i | 0 <= i < n ensures email[i] == LocalPart(email)[i] { }
  }

  datatype EmailCheck = EmailCheck(valid: bool, error: Option<string>)

  /** `validateEmail`: empty first, then the domain, then the format. */
  function ValidateEmail(email: string): (r: EmailCheck)
    ensures r.valid <==> r.error == None
    ensures email == "" ==> r == EmailCheck(false, Some(RequiredError))
    ensures email != "" && !IsGmailEmail(email) ==> r == EmailCheck(false, Some(GmailOnlyError))
    ensures email != "" && IsGmailEmail(email) && !LocalPartOk(email)
            ==> r == EmailCheck(false, Some(FormatError))
    ensures r.valid <==> email != "" && IsGmailEmail(email) && LocalPartOk(email)
  {
    if email == "" then
      EmailCheck(false, Some(RequiredError))
    else if !IsGmailEmail(email) then
      EmailCheck(false, Some(GmailOnlyError))
    else
      GmailPatternIsLocalPart(email);
      if !MatchesGmailPattern(email) then
        EmailCheck(false, Some(FormatError))
      else
        EmailCheck(true, None)
  }

  /** An accepted address ends with "@gmail.com" in some letter case behind
      a local part without '@' or whitespace. */
  lemma {:induction false} ValidEmailShape(email: string)
    requires ValidateEmail(email).valid
    ensures exists local: string, domain: string ::
              && email == local + domain && ToLower(domain) == GmailSuffix
              && |local| > 0 && (forall c :: c in local ==> LocalChar(c))
  {
    GmailPatternIsLocalPart(email);
    var n := |email| - |GmailSuffix|;
    var local, domain := email[..n], email[n..];
    assert email == local + domain;
  }

  /** An address split as local part and a Gmail domain in any case. */
  lemma {:induction false} SplitAddress(local: string, domain: string)
    requires ToLower(domain) == GmailSuffix
    ensures IsGmailEmail(local + domain)
    ensures LocalPart(local + domain) == local
    ensures ValidateEmail(local + domain)
            == if |local| > 0 && forall c :: c in local ==> LocalChar(c)
               then EmailCheck(true, None) else EmailCheck(false, Some(FormatError))
  {
    var e := local + domain;
    assert ToLower(e) == ToLower(local) + GmailSuffix by {
      assert |ToLower(e)| == |ToLower(local) + GmailSuffix|;
      forall i | 0 <= i < |e| ensures ToLower(e)[i] == (ToLower(local) + GmailSuffix)[i] {
        if i >= |local| {
          assert e[i] == domain[i - |local|];
        }
      }
    }
    assert e[..|local|] == local;
  }

  /** The suffix is already in lower case. */
  lemma SuffixIsLower()
    ensures ToLower(GmailSuffix) == GmailSuffix
  {
    forall i | 0 <= i < |GmailSuffix| ensures LowerChar(GmailSuffix[i]) == GmailSuffix[i] {
      assert !('A' <= GmailSuffix[i] <= 'Z');
    }
  }

  lemma EmptySuffixLocalRefused()
    ensures ValidateEmail("@gmail.com") == EmailCheck(false, Some(FormatError))
  {
    assert "@gmail.com" == [] + GmailSuffix;
    SuffixIsLower();
    SplitAddress([], GmailSuffix);
  }

  lemma SecondAtRefused()
    ensures ValidateEmail("a@b@gmail.com") == EmailCheck(false, Some(FormatError))
  {
    var local := "a@b";
    assert local[1] == '@';
    assert "a@b@gmail.com" == local + GmailSuffix;
    SuffixIsLower();
    SplitAddress(local, GmailSuffix);
  }

  lemma OtherDomainRefused()
    ensures ValidateEmail("ann@yahoo.com") == EmailCheck(false, Some(GmailOnlyError))
  {
    var e := "ann@yahoo.com";
    assert ToLower(e)[4] == 'y';
    assert ToLower(e)[3..][1] != GmailSuffix[1];
  }

  lemma MixedCaseDomain()
    ensures ToLower("@GMail.COM") == GmailSuffix
  {
    var d := "@GMail.COM";
    assert LowerChar(d[1]) == 'g' && LowerChar(d[2]) == 'm' && LowerChar(d[7]) == 'c';
    assert LowerChar(d[8]) == 'o' && LowerChar(d[9]) == 'm';
  }

  lemma MixedCaseAccepted()
    ensures ValidateEmail("Ann@GMail.COM") == EmailCheck(true, None)
  {
    var local, domain := "Ann", "@GMail.COM";
    MixedCaseDomain();
    assert LocalChar('A') && LocalChar('n');
    assert forall c :: c in local ==> c == 'A' || c == 'n';
    assert "Ann@GMail.COM" == local + domain;
    SplitAddress(local, domain);
  }
}
