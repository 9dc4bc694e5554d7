/** The onboarding form: the validation chain run before an organization is created, the
    administrator e-mail pattern, and the error it shows. */
module OnboardingForm {
  import opened Wrappers
  import opened Text
  import opened Forms

  const FillRequired: string := "Please fill in all required fields"
  const InvalidEmail: string := "Please enter a valid email address"
  const ShortPassword: string := "Password must be at least 6 characters long"
  const CreateFallback: string := "Failed to create organization. Please try again."
  const MinPasswordLength: nat := 6

  // ---------------------------------------------------------------- e-mail pattern

  /** One part of `^[^\s@]+@[^\s@]+\.[^\s@]+$`: non-empty, no white space, no '@'. */
  predicate EmailPart(x: string) {
    x != [] && Clean(x)
  }

  ghost predicate SplitsAs(s: string, a: string, b: string, c: string) {
    s == a + "@" + b + "." + c && EmailPart(a) && EmailPart(b) && EmailPart(c)
  }

  /** The regular expression, read as a grammar: a part, '@', a part, '.', a part. */
  ghost predicate MatchesEmailPattern(s: string) {
    exists a, b, c :: SplitsAs(s, a, b, c)
  }

  /** After the '@', a '.' that is neither the first nor the last character. */
  predicate HasInnerDot(d: string) {
    |d| >= 3 && '.' in d[1..|d| - 1]
  }

  /** The e-mail check as a scan: no white space, exactly one '@' with something before it,
      and a '.' inside the part after it. */
  predicate ValidEmail(s: string) {
    NoSpace(s)
    && match IndexOf(s, '@')
       case None => false
       case Some(i) => i > 0 && '@' !in s[i + 1..] && HasInnerDot(s[i + 1..])
  }

  /** No white space anywhere. */
  predicate NoSpace(x: string) {
    forall k :: 0 <= k < |x| ==> !IsSpace(x[k])
  }

  /** No white space and no '@' anywhere (a part, possibly empty). */
  predicate Clean(x: string) {
    NoSpace(x) && forall k :: 0 <= k < |x| ==> x[k] != '@'
  }

  lemma NoSpaceAppend(x: string, y: string)
    requires NoSpace(x) && NoSpace(y)
    ensures NoSpace(x + y)
  {
    forall m | 0 <= m < |x + y| ensures !IsSpace((x + y)[m]) {
      if m >= |x| {
        assert (x + y)[m] == y[m - |x|];
      }
    }
  }

  lemma NoSpaceSlice(x: string, lo: nat, hi: nat)
    requires NoSpace(x) && lo <= hi <= |x|
    ensures NoSpace(x[lo..hi])
  {
    forall m | 0 <= m < hi - lo ensures !IsSpace(x[lo..hi][m]) {
      assert x[lo..hi][m] == x[lo + m];
    }
  }

  lemma CleanAppend(x: string, y: string)
    requires Clean(x) && Clean(y)
    ensures Clean(x + y)
  {
    NoSpaceAppend(x, y);
    forall m | 0 <= m < |x + y| ensures (x + y)[m] != '@' {
      if m >= |x| {
        assert (x + y)[m] == y[m - |x|];
      }
    }
  }

  lemma ValidEmailSound(s: string) returns (a: string, b: string, c: string)
    requires ValidEmail(s)
    ensures SplitsAs(s, a, b, c)
  {
    var d;
    a, d := SplitAtAt(s);
    var inner := d[1..|d| - 1];
    var k :| 0 <= k < |inner| && inner[k] == '.';
    b, c := SplitAtDot(d, k + 1);
    assert a + "@" + d == a + "@" + b + "." + c;
  }

  /** Cutting an accepted address at its '@' gives a part and a clean domain with an inner
      '.'. */
  lemma SplitAtAt(s: string) returns (a: string, d: string)
    requires ValidEmail(s)
    ensures s == a + "@" + d && EmailPart(a) && Clean(d) && HasInnerDot(d)
  {
    var i := IndexOf(s, '@').value;
    a, d := s[..i], s[i + 1..];
    NoSpaceSlice(s, 0, i);
    NoSpaceSlice(s, i + 1, |s|);
    forall m | 0 <= m < |a| ensures a[m] != '@' {
      assert a[m] == s[m];
    }
    forall m | 0 <= m < |d| ensures d[m] != '@' {
      assert d[m] in s[i + 1..];
    }
    assert s == a + "@" + d;
  }

  /** Cutting a clean string at an inner '.' gives two parts. */
  lemma SplitAtDot(d: string, j: nat) returns (b: string, c: string)
    requires Clean(d) && 1 <= j < |d| - 1 && d[j] == '.'
    ensures d == b + "." + c && EmailPart(b) && EmailPart(c)
  {
    b, c := d[..j], d[j + 1..];
    forall m | 0 <= m < |b| ensures b[m] == d[m] {
    }
    forall m | 0 <= m < |c| ensures c[m] == d[j + 1 + m] {
    }
    assert d == b + "." + c;
  }

  lemma ValidEmailComplete(s: string, a: string, b: string, c: string)
    requires SplitsAs(s, a, b, c)
    ensures ValidEmail(s)
  {
    var d := b + "." + c;
    assert Clean(".");
    CleanAppend(b, ".");
    CleanAppend(b + ".", c);
    assert NoSpace("@");
    NoSpaceAppend(a, "@");
    NoSpaceAppend(a + "@", d);
    assert s == a + "@" + d;
    assert s[|a|] == '@';
    assert forall m :: 0 <= m < |a| ==> s[m] == a[m] && s[m] != '@';
    assert IndexOf(s, '@') == Some(|a|);
    assert s[|a| + 1..] == d;
    assert d[1..|d| - 1][|b| - 1] == '.';
  }

  /** The scan accepts exactly the strings the regular expression matches. */
  lemma ValidEmailIff(s: string)
    ensures ValidEmail(s) <==> MatchesEmailPattern(s)
  {
    if ValidEmail(s) {
      var a, b, c := ValidEmailSound(s);
    }
    if MatchesEmailPattern(s) {
      var a, b, c :| SplitsAs(s, a, b, c);
      ValidEmailComplete(s, a, b, c);
    }
  }

  // ---------------------------------------------------------------- validation chain

  /** Required fields, then the e-mail, then the password length; only the first failure
      is reported. */
  function Validate(data: OrganizationRequest): (r: Outcome<string>)
    ensures r.Pass? <==>
      RequiredFilled(data) && ValidEmail(data.adminEmail.value) && Utf16Length(data.adminPassword.value) >= MinPasswordLength
    ensures !RequiredFilled(data) ==> r == Fail(FillRequired)
    ensures RequiredFilled(data) && !ValidEmail(data.adminEmail.value) ==> r == Fail(InvalidEmail)
    ensures RequiredFilled(data) && ValidEmail(data.adminEmail.value) && Utf16Length(data.adminPassword.value) < MinPasswordLength ==>
      r == Fail(ShortPassword)
  {
    if !RequiredFilled(data) then Fail(FillRequired)
    else if !ValidEmail(data.adminEmail.value) then Fail(InvalidEmail)
    else if Utf16Length(data.adminPassword.value) < MinPasswordLength then Fail(ShortPassword)
    else Pass
  }

  /** Six code units are enough; five are not. */
  lemma PasswordBoundary(data: OrganizationRequest)
    requires RequiredFilled(data) && ValidEmail(data.adminEmail.value)
    ensures Utf16Length(data.adminPassword.value) == 6 ==> Validate(data) == Pass
    ensures Utf16Length(data.adminPassword.value) == 5 ==> Validate(data) == Fail(ShortPassword)
  {
  }

  /** The length is counted in UTF-16 code units, so three characters beyond U+FFFF already
      make a long-enough password. */
  lemma ThreeAstralCharactersPass(data: OrganizationRequest)
    requires RequiredFilled(data) && ValidEmail(data.adminEmail.value)
    requires data.adminPassword.value == "\U{1F512}\U{1F512}\U{1F512}"
    ensures Validate(data) == Pass
  {
    var pw := data.adminPassword.value;
    assert pw[..2][..1] == pw[..1];
    assert Utf16Length(pw[..1]) == 2;
    assert Utf16Length(pw[..2]) == 4;
  }

  /** The onboarding form: its own error and the error its parent passes in. */
  class Onboarding {
    var formError: string
    const parentError: Option<string>

    constructor(parentError: Option<string>)
      ensures formError == "" && this.parentError == parentError
    {
      formError := "";
      this.parentError := parentError;
    }

    /** `displayError`: the form's own error when there is one, else the parent's. */
    function DisplayError(): (e: Option<string>)
      reads this
      ensures formError != "" ==> e == Some(formError)
      ensures formError == "" ==> e == parentError
    {
      if formError != "" then Some(formError) else parentError
    }

    /** `handleSubmit`. The previous error is cleared; the payload is submitted only when
        every check passes, exactly as read from the form; a failed check shows its
        message; a failed submission shows its message, else the parent's error, else the
        fixed fallback. `submitResult` is how the parent's `onSubmit` ends. */
    method HandleSubmit(form: FormData, submitResult: Outcome<Option<string>>) returns (submitted: Option<OrganizationRequest>)
      modifies this
      ensures submitted.Some? <==> Validate(BuildOrganizationRequest(form)).Pass?
      ensures submitted.Some? ==> submitted.value == BuildOrganizationRequest(form)
      ensures Validate(BuildOrganizationRequest(form)).Fail? ==> formError == Validate(BuildOrganizationRequest(form)).error
      ensures submitted.Some? && submitResult.Pass? ==> formError == ""
      ensures submitted.Some? && submitResult.Fail? ==>
        formError == Or(submitResult.error, Or(parentError, CreateFallback)) && formError != ""
    {
      formError := "";
      var submitError := Or(parentError, "");
      var data := BuildOrganizationRequest(form);
      var check := Validate(data);
      if check.Fail? {
        formError := check.error;
        submitted := None;
        return;
      }
      submitted := Some(data);
      if submitResult.Fail? {
        formError := Or(submitResult.error, Or(Some(submitError), CreateFallback));
      }
    }
  }
}
