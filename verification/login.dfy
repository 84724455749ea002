/** The phone-number login form (src/pages/LoginPage.js): strip every
    character that is not an ASCII digit and accept exactly when ten digits
    remain. */
module Login {
  import opened State

  const PhoneLength: nat := 10
  const InvalidPhoneMessage: string := "Please enter a valid 10-digit phone number."

  /** The characters the pattern `\d` matches (no Unicode digits). */
  predicate IsDigit(c: char) {
    '0' <= c <= '9'
  }

  predicate AllDigits(s: string) {
    forall i :: 0 <= i < |s| ==> IsDigit(s[i])
  }

  /** Removal of every non-digit character, keeping the digits in order. */
  function StripNonDigits(s: string): (d: string)
    ensures AllDigits(d)
    ensures |d| <= |s|
  {
    if s == [] then []
    else
      (if IsDigit(s[0]) then [s[0]] else []) + StripNonDigits(s[1..])
  }

  /** Every digit of the input is kept, as often as it occurs, and nothing
      else is. */
  lemma {:induction false} StripKeepsEveryDigit(s: string)
    ensures forall c :: multiset(StripNonDigits(s))[c] == if IsDigit(c) then multiset(s)[c] else 0
    decreases |s|
  {
    if s != [] {
      StripKeepsEveryDigit(s[1..]);
      assert s == [s[0]] + s[1..];
      assert multiset(s) == multiset{s[0]} + multiset(s[1..]);
    }
  }

  /** `sub` can be obtained from `s` by deleting characters. */
  ghost predicate IsSubsequence(sub: string, s: string)
    decreases |s|
  {
    if sub == [] then true
    else if s == [] then false
    else (sub[0] == s[0] && IsSubsequence(sub[1..], s[1..])) || IsSubsequence(sub, s[1..])
  }

  lemma {:induction false} StripIsSubsequence(s: string)
    ensures IsSubsequence(StripNonDigits(s), s)
    decreases |s|
  {
    if s != [] {
      StripIsSubsequence(s[1..]);
      var d := StripNonDigits(s);
      if IsDigit(s[0]) {
        assert d[0] == s[0] && d[1..] == StripNonDigits(s[1..]);
      } else {
        assert d == StripNonDigits(s[1..]);
      }
    }
  }

  lemma {:induction false} StripAppend(a: string, b: string)
    ensures StripNonDigits(a + b) == StripNonDigits(a) + StripNonDigits(b)
    decreases |a|
  {
    if a == [] {
      assert a + b == b;
    } else {
      var kept: string := if IsDigit(a[0]) then [a[0]] else [];
      assert (a + b)[0] == a[0];
      assert (a + b)[1..] == a[1..] + b;
      assert StripNonDigits(a + b) == kept + StripNonDigits(a[1..] + b);
      assert StripNonDigits(a) == kept + StripNonDigits(a[1..]);
      StripAppend(a[1..], b);
      assert kept + (StripNonDigits(a[1..]) + StripNonDigits(b))
          == (kept + StripNonDigits(a[1..])) + StripNonDigits(b);
    }
  }

  /** A string of digits passes through unchanged. */
  lemma {:induction false} StripKeepsDigitStrings(s: string)
    requires AllDigits(s)
    ensures StripNonDigits(s) == s
    decreases |s|
  {
    if s != [] {
      StripKeepsDigitStrings(s[1..]);
    }
  }

  /** Stripping twice is stripping once. */
  lemma StripIdempotent(s: string)
    ensures StripNonDigits(StripNonDigits(s)) == StripNonDigits(s)
  {
    StripKeepsDigitStrings(StripNonDigits(s));
  }

  /** The form's own state: the text typed and the error shown. */
  datatype LoginForm = LoginForm(input: string, error: string)

  /** The state the form mounts with. */
  const InitialForm: LoginForm := LoginForm("", "")

  /** Typing into the phone field. */
  function EditInput(form: LoginForm, text: string): (r: LoginForm)
    ensures r.input == text && r.error == form.error
  {
    form.(input := text)
  }

  /** Submitting the form: the error is cleared first, then either the
      stripped digits become the phone number and the home page opens, or
      the error message is set. */
  function HandleLogin(form: LoginForm, app: AppState): (LoginForm, AppState) {
    var cleared := form.(error := "");
    var digits := StripNonDigits(form.input);
    if |digits| == PhoneLength then
      (cleared, app.(phoneNumber := digits, page := PageHome))
    else
      (cleared.(error := InvalidPhoneMessage), app)
  }

  /** A submit succeeds exactly when ten digits remain. On success the phone
      becomes those ten digits, taken in order from the input, the page
      becomes home and the error is empty; on failure the error message is
      shown and the application state is left alone. The answers and the
      loading flag are never touched. */
  lemma HandleLoginOutcome(form: LoginForm, app: AppState)
    ensures var r := HandleLogin(form, app);
      && r.0.input == form.input
      && (r.0.error == [] <==> |StripNonDigits(form.input)| == PhoneLength)
      && (r.0.error != [] ==> r.0.error == InvalidPhoneMessage && r.1 == app)
      && (r.0.error == [] ==>
            && r.1.page == PageHome
            && r.1.phoneNumber == StripNonDigits(form.input)
            && |r.1.phoneNumber| == PhoneLength && AllDigits(r.1.phoneNumber)
            && IsSubsequence(r.1.phoneNumber, form.input))
      && r.1.quizAnswers == app.quizAnswers && r.1.isLoading == app.isLoading
  {
    StripIsSubsequence(form.input);
  }

  /** Punctuation and spaces around the digits do not matter: an input is
      accepted exactly when its digits would be accepted on their own, and
      yields the same phone number. */
  lemma LoginIgnoresSeparators(form: LoginForm, app: AppState)
    ensures HandleLogin(form, app).1
         == HandleLogin(form.(input := StripNonDigits(form.input)), app).1
  {
    StripIdempotent(form.input);
  }

  /** A string without digits strips to nothing. */
  lemma {:induction false} StripDropsNonDigits(s: string)
    requires forall i :: 0 <= i < |s| ==> !IsDigit(s[i])
    ensures StripNonDigits(s) == []
    decreases |s|
  {
    if s != [] {
      StripDropsNonDigits(s[1..]);
    }
  }

  /** Ten digits with separators inserted anywhere (a dash, spaces,
      brackets) are accepted as those ten digits. */
  lemma SeparatedNumberAccepted(digits: string, separator: string, k: nat, app: AppState)
    requires |digits| == PhoneLength && AllDigits(digits) && k <= |digits|
    requires forall i :: 0 <= i < |separator| ==> !IsDigit(separator[i])
    ensures var input := digits[..k] + separator + digits[k..];
      && HandleLogin(LoginForm(input, ""), app).0.error == []
      && HandleLogin(LoginForm(input, ""), app).1.phoneNumber == digits
  {
    var head, tail := digits[..k], digits[k..];
    StripKeepsDigitStrings(head);
    StripKeepsDigitStrings(tail);
    StripDropsNonDigits(separator);
    StripAppend(head, separator);
    StripAppend(head + separator, tail);
    assert head + tail == digits;
  }
}
