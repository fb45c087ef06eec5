/** The password update form (`/update-password`): a new password and its confirmation,
    each with an error text that is recomputed whenever either field changes, and a
    submit that updates the account only when both checks pass. */
module UpdatePassword {
  import opened Text

  const TooShort := "Must be 16 or more characters"
  const Mismatch := "Passwords do not match"
  const MinLength := 16

  /** `passwordVerifier` applied to the password with every space removed; its minimum
      counts UTF-16 code units, as JavaScript's `length` does. */
  predicate PasswordAccepted(pw: string)
  {
    Utf16Length(RemoveAll(pw, ' ')) >= MinLength
  }

  /** The error text `validatePassword` leaves: cleared exactly when the password is
      accepted. */
  function PasswordError(pw: string): (e: string)
    ensures e == "" <==> PasswordAccepted(pw)
    ensures e != "" ==> e == TooShort
  {
    if PasswordAccepted(pw) then "" else TooShort
  }

  /** The error text `validateConfirmPassword` leaves: cleared exactly when the two
      entries are the same text, spaces included. */
  function ConfirmError(pw: string, confirm: string): (e: string)
    ensures e == "" <==> pw == confirm
    ensures e != "" ==> e == Mismatch
  {
    if pw != confirm then Mismatch else ""
  }

  // ---------------------------------------------------------------- properties

  /** Spaces never count towards the length, wherever they are added. */
  lemma SpacesDoNotCount(pw: string)
    ensures PasswordAccepted(pw + " ") <==> PasswordAccepted(pw)
    ensures PasswordAccepted(" " + pw) <==> PasswordAccepted(pw)
  {
    RemoveAllAppend(pw, ' ', ' ');
    assert RemoveAll(pw + " ", ' ') == RemoveAll(pw, ' ');
    assert (" " + pw)[0] == ' ' && (" " + pw)[1..] == pw;
    assert RemoveAll(" " + pw, ' ') == RemoveAll(pw, ' ');
  }

  /** An accepted password is at least 16 UTF-16 code units long. */
  lemma AcceptedIsLong(pw: string)
    requires PasswordAccepted(pw)
    ensures Utf16Length(pw) >= MinLength
  {
    RemoveAllShortens(pw, ' ');
  }

  /** The minimum counts code units, not characters: eight characters from outside the
      Basic Multilingual Plane (an emoji each) make an accepted password. */
  lemma EightEmojiAccepted()
    ensures var pw := seq(8, _ => '\U{1F600}');
            |pw| == 8 && PasswordAccepted(pw)
  {
    var pw := seq(8, _ => '\U{1F600}');
    assert forall i :: 0 <= i < |pw| ==> pw[i] != ' ';
    assert RemoveAll(pw, ' ') == pw;
  }

  /** Without spaces, the rule is plain length in code units: 16 pass and 15 do not. */
  lemma WithoutSpacesLengthDecides(pw: string)
    requires ' ' !in pw
    ensures PasswordAccepted(pw) <==> Utf16Length(pw) >= MinLength
  {
    assert forall i :: 0 <= i < |pw| ==> pw[i] != ' ';
  }

  /** A password of spaces only is refused, whatever its length. */
  lemma {:induction false} OnlySpacesRefused(pw: string)
    requires forall i :: 0 <= i < |pw| ==> pw[i] == ' '
    ensures RemoveAll(pw, ' ') == []
    ensures !PasswordAccepted(pw)
  {
    if pw != [] {
      var init := pw[..|pw| - 1];
      assert pw == init + [' '];
      RemoveAllAppend(init, ' ', ' ');
      OnlySpacesRefused(init);
    }
  }

  /** The confirmation compares the raw entries: a trailing space that the length rule
      ignores still makes the confirmation fail. */
  lemma ConfirmationCountsSpaces(pw: string)
    ensures ConfirmError(pw, pw + " ") == Mismatch
    ensures PasswordAccepted(pw + " ") == PasswordAccepted(pw)
  {
    assert |pw + " "| != |pw|;
    SpacesDoNotCount(pw);
  }

  class PasswordForm {
    var password: string
    var confirmPassword: string
    var passwordError: string
    var confirmPasswordError: string
    var hasAttemptedToSubmit: bool

    /** Both error texts agree with the current entries. */
    predicate Valid()
      reads this
    {
      passwordError == PasswordError(password) && confirmPasswordError == ConfirmError(password, confirmPassword)
    }

    /** The form as first shown: empty entries, after the effect that validates them
        once. */
    constructor ()
      ensures Valid() && password == "" && confirmPassword == "" && !hasAttemptedToSubmit
      ensures passwordError == TooShort && confirmPasswordError == ""
    {
      password := "";
      confirmPassword := "";
      passwordError := "";
      confirmPasswordError := "";
      hasAttemptedToSubmit := false;
      new;
      var _ := ValidatePassword();
      var _ := ValidateConfirmPassword();
    }

    /** `validatePassword`. */
    method ValidatePassword() returns (ok: bool)
      modifies this
      ensures ok == PasswordAccepted(password) && passwordError == PasswordError(password)
      ensures password == old(password) && confirmPassword == old(confirmPassword)
      ensures confirmPasswordError == old(confirmPasswordError) && hasAttemptedToSubmit == old(hasAttemptedToSubmit)
    {
      if Utf16Length(RemoveAll(password, ' ')) >= MinLength {
        passwordError := "";
        return true;
      }
      passwordError := TooShort;
      return false;
    }

    /** `validateConfirmPassword`. */
    method ValidateConfirmPassword() returns (ok: bool)
      modifies this
      ensures ok == (password == confirmPassword) && confirmPasswordError == ConfirmError(password, confirmPassword)
      ensures password == old(password) && confirmPassword == old(confirmPassword)
      ensures passwordError == old(passwordError) && hasAttemptedToSubmit == old(hasAttemptedToSubmit)
    {
      if password != confirmPassword {
        confirmPasswordError := Mismatch;
        return false;
      }
      confirmPasswordError := "";
      return true;
    }

    /** `onChange` of the input named `name`, followed by the effect that validates both
        entries again. */
    method OnChange(name: string, value: string)
      requires Valid()
      modifies this
      ensures Valid() && hasAttemptedToSubmit == old(hasAttemptedToSubmit)
      ensures password == (if name == "password" then value else old(password))
      ensures confirmPassword == (if name == "confirmPassword" then value else old(confirmPassword))
    {
      if name == "password" {
        password := value;
      } else if name == "confirmPassword" {
        confirmPassword := value;
      }
      var _ := ValidatePassword();
      var _ := ValidateConfirmPassword();
    }

    /** `onSubmit`: the account update is requested only when both checks pass; the
        second check runs only when the first passed. */
    method OnSubmit() returns (updateRequested: bool)
      requires Valid()
      modifies this
      ensures Valid() && hasAttemptedToSubmit
      ensures updateRequested <==> PasswordAccepted(password) && password == confirmPassword
      ensures password == old(password) && confirmPassword == old(confirmPassword)
    {
      hasAttemptedToSubmit := true;
      var passwordOk := ValidatePassword();
      if !passwordOk {
        return false;
      }
      var confirmOk := ValidateConfirmPassword();
      if !confirmOk {
        return false;
      }
      updateRequested := true;
    }
  }
}
