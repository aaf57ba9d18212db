/** The sign-in / sign-up form: the three field validators, the order in
    which a submit checks them, and the mode and feedback state around an
    authentication call. */
module Auth {
  import opened Optional
  import opened Text

  datatype Mode = SignIn | SignUp

  datatype FeedbackKind = SuccessFeedback | ErrorFeedback

  datatype Feedback = Feedback(kind: FeedbackKind, text: string)

  /** The minimum (trimmed) password length. */
  const MinPasswordLength: nat := 6

  /** Characters of the class `[^\s@]`, all of them. */
  predicate Plain(s: string) {
    forall k :: 0 <= k < |s| ==> !IsSpace(s[k]) && s[k] != '@'
  }

  /** The e-mail pattern `^[^\s@]+@[^\s@]+\.[^\s@]+$`, read as three non-empty
      runs of `[^\s@]` joined by an '@' and a '.'. */
  predicate EmailPattern(s: string) {
    exists i, j :: 0 < i && i + 1 < j && j + 1 < |s| && s[i] == '@' && s[j] == '.'
      && Plain(s[..i]) && Plain(s[i + 1..j]) && Plain(s[j + 1..])
  }

  /** A '.' that is neither the first nor the last character of `d`. */
  predicate InnerDot(d: string) {
    exists k :: 0 < k < |d| - 1 && d[k] == '.'
  }

  /** The e-mail check, stated character by character: no white space, one
      '@' with something before it, and after it a '.' that is neither the
      first nor the last character. */
  predicate EmailShape(s: string) {
    ShapeAt(s, FirstIndex(s, '@'))
  }

  /** The check, for the '@' at index `at`. */
  predicate ShapeAt(s: string, at: nat) {
    0 < at < |s| && Plain(s[..at]) && Plain(s[at + 1..]) && InnerDot(s[at + 1..])
  }

  /** `emailValid`: the trimmed e-mail has the pattern's shape. */
  predicate EmailValid(email: string) {
    EmailShape(Trim(email))
  }

  /** `passwordValid`: the trimmed password's `length`, in UTF-16 code
      units, is at least the minimum. */
  predicate PasswordValid(password: string) {
    Utf16Length(Trim(password)) >= MinPasswordLength
  }

  /** `confirmValid`: nothing to confirm when signing in; when signing up,
      the confirmation equals the password exactly (untrimmed) and is long
      enough once trimmed. */
  predicate ConfirmValid(mode: Mode, password: string, confirm: string) {
    mode == SignUp ==> password == confirm && Utf16Length(Trim(confirm)) >= MinPasswordLength
  }

  /** `canSubmit`. */
  predicate CanSubmit(loading: bool, mode: Mode, email: string, password: string, confirm: string) {
    !loading && EmailValid(email) && PasswordValid(password) && ConfirmValid(mode, password, confirm)
  }

  const InvalidEmailMessage := "Introduce un correo v\U{00E1}lido."
  const ShortPasswordMessage := "La contrase\U{00F1}a debe tener al menos 6 caracteres."
  const MismatchMessage := "Las contrase\U{00F1}as no coinciden."

  /** The message of the first check `handleSubmit` finds failing: e-mail,
      then password, then confirmation. */
  function FirstFailure(mode: Mode, email: string, password: string, confirm: string): (r: Option<string>)
    ensures r == None <==> EmailValid(email) && PasswordValid(password) && ConfirmValid(mode, password, confirm)
    ensures !EmailValid(email) ==> r == Some(InvalidEmailMessage)
    ensures EmailValid(email) && !PasswordValid(password) ==> r == Some(ShortPasswordMessage)
    ensures EmailValid(email) && PasswordValid(password) && !ConfirmValid(mode, password, confirm)
            ==> r == Some(MismatchMessage)
  {
    if !EmailValid(email) then Some(InvalidEmailMessage)
    else if !PasswordValid(password) then Some(ShortPasswordMessage)
    else if !ConfirmValid(mode, password, confirm) then Some(MismatchMessage)
    else None
  }

  /** The length test counts UTF-16 code units, as `length` does: three
      characters outside the Basic Multilingual Plane make a long enough
      password. */
  lemma AstralPasswordAccepted()
    ensures var password := "\U{1F600}\U{1F600}\U{1F600}";
            |password| == 3 && Utf16Length(password) == 6 && PasswordValid(password)
  {
    var password := "\U{1F600}\U{1F600}\U{1F600}";
    assert TrimStart(password) == password;
    assert TrimEnd(password) == password;
    assert Utf16Length(password[..2]) == 4;
  }

  /** The enabled submit button is exactly a form that passes every check
      and is not already loading. */
  lemma CanSubmitIffNoFailure(loading: bool, mode: Mode, email: string, password: string, confirm: string)
    ensures CanSubmit(loading, mode, email, password, confirm)
            <==> !loading && FirstFailure(mode, email, password, confirm) == None
  {
  }

  /** When signing in the confirmation field plays no part. */
  lemma SignInIgnoresConfirm(email: string, password: string, confirm: string, other: string)
    ensures FirstFailure(SignIn, email, password, confirm) == FirstFailure(SignIn, email, password, other)
  {
  }

  /** `c` first occurs at `i`. */
  lemma FirstIndexAt(s: string, c: char, i: nat)
    requires i < |s| && s[i] == c
    requires forall k :: 0 <= k < i ==> s[k] != c
    ensures FirstIndex(s, c) == i
  {
  }

  /** The character-by-character check accepts only strings of the pattern. */
  lemma EmailShapeMatches(s: string)
    requires EmailShape(s)
    ensures EmailPattern(s)
  {
    var i := FirstIndex(s, '@');
    var d := s[i + 1..];
    var k :| 0 < k < |d| - 1 && d[k] == '.';
    var j := i + 1 + k;
    assert s[i + 1..j] == d[..k];
    assert s[j + 1..] == d[k + 1..];
    assert s[j] == d[k];
    assert Plain(s[i + 1..j]) by {
      forall n | 0 <= n < k ensures !IsSpace(d[..k][n]) && d[..k][n] != '@' {
        assert d[..k][n] == d[n];
      }
    }
    assert Plain(s[j + 1..]) by {
      var e := d[k + 1..];
      forall n | 0 <= n < |e| ensures !IsSpace(e[n]) && e[n] != '@' {
        assert e[n] == d[k + 1 + n];
      }
    }
  }

  /** Every string of the pattern passes the character-by-character check. */
  lemma PatternHasShape(s: string)
    requires EmailPattern(s)
    ensures EmailShape(s)
  {
    var i, j :| 0 < i && i + 1 < j && j + 1 < |s| && s[i] == '@' && s[j] == '.'
      && Plain(s[..i]) && Plain(s[i + 1..j]) && Plain(s[j + 1..]);
    PatternShapeAt(s, i, j);
    FirstAtAfterPlain(s, i);
  }

  /** The pattern's pieces around `i` and `j` pass the check at `i`. */
  lemma PatternShapeAt(s: string, i: nat, j: nat)
    requires 0 < i && i + 1 < j && j + 1 < |s| && s[i] == '@' && s[j] == '.'
    requires Plain(s[..i]) && Plain(s[i + 1..j]) && Plain(s[j + 1..])
    ensures ShapeAt(s, i)
  {
    var d := s[i + 1..];
    assert d == s[i + 1..j] + ['.'] + s[j + 1..];
    PlainJoin(s[i + 1..j], s[j + 1..]);
    assert d[j - i - 1] == '.';
  }

  /** An '@' after a run of `[^\s@]` is the first '@'. */
  lemma FirstAtAfterPlain(s: string, i: nat)
    requires i < |s| && s[i] == '@' && Plain(s[..i])
    ensures FirstIndex(s, '@') == i
  {
    forall k | 0 <= k < i ensures s[k] != '@' {
      assert s[..i][k] == s[k];
    }
    FirstIndexAt(s, '@', i);
  }

  /** Two runs of `[^\s@]` joined by a '.' form one run. */
  lemma PlainJoin(a: string, b: string)
    requires Plain(a) && Plain(b)
    ensures Plain(a + ['.'] + b)
  {
    var d := a + ['.'] + b;
    forall n | 0 <= n < |d| ensures !IsSpace(d[n]) && d[n] != '@' {
      if n < |a| {
        assert d[n] == a[n];
      } else if n > |a| {
        assert d[n] == b[n - |a| - 1];
      }
    }
  }

  /** The character-by-character check accepts exactly the strings of the
      pattern. */
  lemma EmailShapeIffPattern(s: string)
    ensures EmailShape(s) <==> EmailPattern(s)
  {
    if EmailShape(s) {
      EmailShapeMatches(s);
    }
    if EmailPattern(s) {
      PatternHasShape(s);
    }
  }

  /** A valid e-mail, once trimmed, has no white space and exactly one '@'. */
  lemma EmailValidOneAt(email: string)
    requires EmailValid(email)
    ensures !HasSpace(Trim(email))
    ensures var s := Trim(email);
            exists i :: 0 < i < |s| && s[i] == '@' && forall k :: 0 <= k < |s| && s[k] == '@' ==> k == i
  {
    var s := Trim(email);
    ShapeOneAt(s, FirstIndex(s, '@'));
  }

  /** A string of the checked shape around index `i` has no white space and
      its only '@' at `i`. */
  lemma ShapeOneAt(s: string, i: nat)
    requires 0 < i < |s| && s[i] == '@' && Plain(s[..i]) && Plain(s[i + 1..])
    ensures !HasSpace(s)
    ensures forall k :: 0 <= k < |s| && s[k] == '@' ==> k == i
  {
    forall k | 0 <= k < |s| ensures !IsSpace(s[k]) && (s[k] == '@' ==> k == i) {
      if k < i {
        assert s[..i][k] == s[k];
      } else if k > i {
        assert s[i + 1..][k - i - 1] == s[k];
      }
    }
  }

  /** The auth call's outcome: an error (with its message, when it is an
      `Error`), or a success; `hasSession` tells whether a sign-up came back
      with a session. */
  datatype AuthOutcome = Failed(errorMessage: Option<string>) | Succeeded(hasSession: bool)

  const DefaultErrorMessage := "No pudimos completar la acci\U{00F3}n. Intenta de nuevo."

  /** The feedback a submit that passed the checks ends with. */
  function OutcomeFeedback(mode: Mode, outcome: AuthOutcome): (r: Feedback)
    ensures r.kind == ErrorFeedback <==> outcome.Failed?
    ensures outcome.Failed? && outcome.errorMessage.Some? ==> r.text == outcome.errorMessage.value
  {
    match outcome
    case Failed(message) => Feedback(ErrorFeedback, message.GetOr(DefaultErrorMessage))
    case Succeeded(hasSession) =>
      if mode == SignIn then Feedback(SuccessFeedback, "\U{00A1}Bienvenido de nuevo! Tu panel te espera.")
      else if hasSession then Feedback(SuccessFeedback, "Cuenta creada. Vamos a dise\U{00F1}ar tu ritmo financiero.")
      else Feedback(SuccessFeedback, "Te enviamos un correo de verificaci\U{00F3}n para activar tu cuenta.")
  }

  class AuthForm {
    var mode: Mode
    var email: string
    var password: string
    var confirmPassword: string
    var loading: bool
    var feedback: Option<Feedback>

    constructor ()
      ensures mode == SignIn && email == "" && password == "" && confirmPassword == ""
      ensures !loading && feedback == None
    {
      mode, email, password, confirmPassword := SignIn, "", "", "";
      loading, feedback := false, None;
    }

    /** `setMode` with the effect that follows a change of mode: entering
        sign-in empties the confirmation. */
    method EnterMode(value: Mode)
      modifies this
      ensures mode == value
      ensures confirmPassword == (if value == SignIn && old(mode) != SignIn then [] else old(confirmPassword))
      ensures email == old(email) && password == old(password)
      ensures loading == old(loading) && feedback == old(feedback)
    {
      var previous := mode;
      mode := value;
      if value == SignIn && previous != SignIn {
        confirmPassword := "";
      }
    }

    /** `handleModeChange`: the new mode and no feedback. */
    method HandleModeChange(value: Mode)
      modifies this
      ensures mode == value && feedback == None
      ensures confirmPassword == (if value == SignIn && old(mode) != SignIn then [] else old(confirmPassword))
      ensures email == old(email) && password == old(password) && loading == old(loading)
    {
      EnterMode(value);
      feedback := None;
    }

    /** `handleSubmit`. A failing check sets its message and sends nothing;
        otherwise the trimmed e-mail and the untrimmed password are sent
        (`request`), and the outcome decides the feedback; a successful
        sign-up ends in sign-in mode. */
    method HandleSubmit(outcome: AuthOutcome) returns (request: Option<(Mode, string, string)>)
      modifies this
      ensures var failure := FirstFailure(old(mode), old(email), old(password), old(confirmPassword));
              var signedUp := failure == None && old(mode) == SignUp && outcome.Succeeded?;
              (failure.Some? ==>
                 request == None && feedback == Some(Feedback(ErrorFeedback, failure.value)) && loading == old(loading))
              && (failure == None ==>
                    request == Some((old(mode), Trim(old(email)), old(password)))
                    && feedback == Some(OutcomeFeedback(old(mode), outcome)) && !loading)
              && (signedUp ==> mode == SignIn && confirmPassword == [])
              && (!signedUp ==> mode == old(mode) && confirmPassword == old(confirmPassword))
      ensures email == old(email) && password == old(password)
    {
      var failure := FirstFailure(mode, email, password, confirmPassword);
      var sentEmail := Trim(email);
      request := Proceed(failure, sentEmail, outcome);
    }

    /** `handleSubmit` once the first failing check (if any) is known: the
        failure is reported, or `sentEmail` is sent. */
    method Proceed(failure: Option<string>, sentEmail: string, outcome: AuthOutcome)
      returns (request: Option<(Mode, string, string)>)
      modifies this
      ensures var signedUp := failure == None && old(mode) == SignUp && outcome.Succeeded?;
              (failure.Some? ==>
                 request == None && feedback == Some(Feedback(ErrorFeedback, failure.value)) && loading == old(loading))
              && (failure == None ==>
                    request == Some((old(mode), sentEmail, old(password)))
                    && feedback == Some(OutcomeFeedback(old(mode), outcome)) && !loading)
              && (signedUp ==> mode == SignIn && confirmPassword == [])
              && (!signedUp ==> mode == old(mode) && confirmPassword == old(confirmPassword))
      ensures email == old(email) && password == old(password)
    {
      if failure.Some? {
        feedback := Some(Feedback(ErrorFeedback, failure.value));
        return None;
      }
      request := Authenticate(outcome, sentEmail);
    }

    /** The `try` part of `handleSubmit`, once the checks have passed;
        `sentEmail` is the trimmed e-mail. */
    method Authenticate(outcome: AuthOutcome, sentEmail: string) returns (request: Option<(Mode, string, string)>)
      modifies this
      ensures request == Some((old(mode), sentEmail, old(password)))
      ensures feedback == Some(OutcomeFeedback(old(mode), outcome)) && !loading
      ensures old(mode) == SignUp && outcome.Succeeded? ==> mode == SignIn && confirmPassword == []
      ensures !(old(mode) == SignUp && outcome.Succeeded?) ==>
                mode == old(mode) && confirmPassword == old(confirmPassword)
      ensures email == old(email) && password == old(password)
    {
      var submitted := mode;
      var signedUp := submitted == SignUp && outcome.Succeeded?;
      var result := OutcomeFeedback(submitted, outcome);
      loading := true;
      feedback := None;
      request := Some((submitted, sentEmail, password));
      feedback := Some(result);
      if signedUp {
        EnterMode(SignIn);
      }
      loading := false;
    }
  }
}
