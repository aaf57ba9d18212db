/** The new-password form reached from a recovery link: its two checks,
    and what a submit sends and leaves behind. */
module ResetPassword {
  import opened Optional
  import opened Text

  /** `MIN_PASSWORD_LENGTH`. */
  const MinPasswordLength: nat := 6

  datatype FeedbackKind = SuccessFeedback | ErrorFeedback

  datatype Feedback = Feedback(kind: FeedbackKind, text: string)

  const ShortPasswordMessage := "Tu contrase\U{00F1}a debe tener al menos 6 caracteres."
  const MismatchMessage := "Las contrase\U{00F1}as no coinciden."
  const UpdatedMessage := "Tu contrase\U{00F1}a fue actualizada. \U{00A1}Bienvenido de nuevo!"
  const DefaultErrorMessage := "No pudimos actualizar tu contrase\U{00F1}a."

  /** The message `validate` shows, if any: the trimmed length (in UTF-16
      code units, as `length` counts) is checked first, then the untrimmed
      equality of the two fields. */
  function ValidationFailure(newPassword: string, confirm: string): (r: Option<string>)
    ensures r == None <==> Utf16Length(Trim(newPassword)) >= MinPasswordLength && newPassword == confirm
    ensures Utf16Length(Trim(newPassword)) < MinPasswordLength ==> r == Some(ShortPasswordMessage)
    ensures Utf16Length(Trim(newPassword)) >= MinPasswordLength && newPassword != confirm ==> r == Some(MismatchMessage)
  {
    if Utf16Length(Trim(newPassword)) < MinPasswordLength then Some(ShortPasswordMessage)
    else if newPassword != confirm then Some(MismatchMessage)
    else None
  }

  /** Equality is compared untrimmed: a confirmation that differs only in
      surrounding white space is refused, although the trimmed passwords
      are the same. */
  lemma UntrimmedComparison()
    ensures ValidationFailure("secret1 ", "secret1") == Some(MismatchMessage)
    ensures Trim("secret1 ") == Trim("secret1")
  {
    var p := "secret1";
    assert Utf16Length(p) == 7;
    TrailingSpaceRefused(p);
    assert p + " " == "secret1 ";
  }

  /** A long enough password typed with a trailing space in one field only
      is refused as a mismatch, although both fields trim to the same text. */
  lemma TrailingSpaceRefused(p: string)
    requires p != [] && !IsSpace(p[0]) && !IsSpace(p[|p| - 1])
    requires Utf16Length(p) >= MinPasswordLength
    ensures Trim(p + " ") == Trim(p) == p
    ensures ValidationFailure(p + " ", p) == Some(MismatchMessage)
  {
    TrimUnspaced(p);
    TrimTrailingSpace(p);
    assert |p + " "| != |p|;
  }

  /** Three characters outside the Basic Multilingual Plane are six UTF-16
      code units, so they pass the length check. */
  lemma AstralPasswordAccepted()
    ensures var password := "\U{1F600}\U{1F600}\U{1F600}";
            |password| == 3 && ValidationFailure(password, password) == None
  {
    var password := "\U{1F600}\U{1F600}\U{1F600}";
    assert TrimStart(password) == password;
    assert TrimEnd(password) == password;
    assert Utf16Length(password[..2]) == 4;
  }

  /** The outcome of `updateUser`: an error (with its message, when it is an
      `Error`), or success. */
  datatype UpdateOutcome = UpdateFailed(errorMessage: Option<string>) | Updated

  class ResetPasswordForm {
    var newPassword: string
    var confirmPassword: string
    var loading: bool
    var feedback: Option<Feedback>

    constructor ()
      ensures newPassword == "" && confirmPassword == "" && !loading && feedback == None
    {
      newPassword, confirmPassword := "", "";
      loading, feedback := false, None;
    }

    /** `validate`: on a failing check the message is shown and false is
        returned; nothing else changes. */
    method Validate() returns (ok: bool)
      modifies this
      ensures ok <==> ValidationFailure(old(newPassword), old(confirmPassword)) == None
      ensures !ok ==> feedback == Some(Feedback(ErrorFeedback, ValidationFailure(old(newPassword), old(confirmPassword)).value))
      ensures ok ==> feedback == old(feedback)
      ensures newPassword == old(newPassword) && confirmPassword == old(confirmPassword) && loading == old(loading)
    {
      var failure := ValidationFailure(newPassword, confirmPassword);
      if failure.Some? {
        feedback := Some(Feedback(ErrorFeedback, failure.value));
        return false;
      }
      return true;
    }

    /** `handleSubmit`. When `validate` fails nothing is sent; otherwise the
        trimmed password goes to `updateUser` (`sent`). Success shows its
        message, clears both fields and schedules `onComplete`
        (`completes`); an error shows its message and keeps the fields. */
    method HandleSubmit(outcome: UpdateOutcome) returns (sent: Option<string>, completes: bool)
      modifies this
      ensures var failure := ValidationFailure(old(newPassword), old(confirmPassword));
              failure.Some? ==>
                sent == None && !completes && feedback == Some(Feedback(ErrorFeedback, failure.value))
                && newPassword == old(newPassword) && confirmPassword == old(confirmPassword)
                && loading == old(loading)
      ensures ValidationFailure(old(newPassword), old(confirmPassword)) == None ==>
                sent == Some(Trim(old(newPassword))) && !loading && (completes <==> outcome == Updated)
      ensures sent.Some? ==> Trim(sent.value) == sent.value && Utf16Length(sent.value) >= MinPasswordLength
      ensures ValidationFailure(old(newPassword), old(confirmPassword)) == None && outcome == Updated ==>
                feedback == Some(Feedback(SuccessFeedback, UpdatedMessage))
                && newPassword == [] && confirmPassword == []
      ensures ValidationFailure(old(newPassword), old(confirmPassword)) == None && outcome.UpdateFailed? ==>
                feedback == Some(Feedback(ErrorFeedback, outcome.errorMessage.GetOr(DefaultErrorMessage)))
                && newPassword == old(newPassword) && confirmPassword == old(confirmPassword)
    {
      var ok := Validate();
      if !ok {
        return None, false;
      }
      var trimmed := Trim(newPassword);
      TrimIdempotent(newPassword);
      sent, completes := Update(trimmed, outcome);
    }

    /** The `try` part of `handleSubmit`, once `validate` has passed;
        `trimmed` is the trimmed new password. */
    method Update(trimmed: string, outcome: UpdateOutcome) returns (sent: Option<string>, completes: bool)
      modifies this
      ensures sent == Some(trimmed) && !loading && (completes <==> outcome == Updated)
      ensures outcome == Updated ==>
                feedback == Some(Feedback(SuccessFeedback, UpdatedMessage))
                && newPassword == [] && confirmPassword == []
      ensures outcome.UpdateFailed? ==>
                feedback == Some(Feedback(ErrorFeedback, outcome.errorMessage.GetOr(DefaultErrorMessage)))
                && newPassword == old(newPassword) && confirmPassword == old(confirmPassword)
    {
      loading := true;
      feedback := None;
      sent := Some(trimmed);
      match outcome {
        case UpdateFailed(message) =>
          feedback := Some(Feedback(ErrorFeedback, message.GetOr(DefaultErrorMessage)));
          completes := false;
        case Updated =>
          feedback := Some(Feedback(SuccessFeedback, UpdatedMessage));
          newPassword, confirmPassword := [], [];
          completes := true;
      }
      loading := false;
    }
  }
}
