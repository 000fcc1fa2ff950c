/** The sign-in page. There is no password field: the password is derived
    from the e-mail address, and the same derivation serves sign-up and
    sign-in. The form is in login or register mode. */
module Auth {
  import opened Js
  import opened Ui
  import opened Text
  import Seqs

  predicate IsPasswordChar(c: char) { IsLowerAscii(c) || IsDigit(c) }

  /** `email.toLowerCase().replace(/[^a-z0-9]/g, '')`. */
  function PasswordCore(email: string): (r: string)
    ensures forall i :: 0 <= i < |r| ==> IsPasswordChar(r[i])
    ensures Seqs.IsSubsequence(r, ToLower(email))
  {
    Seqs.Filter(ToLower(email), IsPasswordChar)
  }

  /** `generatePassword(email)`. */
  function GeneratePassword(email: string): (r: string)
    ensures StartsWith(r, "HSS_")
    ensures |r| >= 10 && r[|r| - 6..] == "#2024!"
    ensures r[4..|r| - 6] == PasswordCore(email)
  {
    "HSS_" + PasswordCore(email) + "#2024!"
  }

  /** Addresses that differ only in the case of ASCII letters give the same
      password. */
  lemma PasswordIgnoresCase(a: string, b: string)
    requires SameUpToCase(a, b)
    ensures GeneratePassword(a) == GeneratePassword(b)
  {
    SameUpToCaseLower(a, b);
  }

  /** Inserting a character that is neither an ASCII letter nor a digit
      (such as `.`, `@` or `+`) anywhere leaves the password as it was. */
  lemma PasswordIgnoresPunctuation(a: string, c: char, b: string)
    requires !IsPasswordChar(LowerChar(c))
    ensures GeneratePassword(a + [c] + b) == GeneratePassword(a + b)
  {
    LowerAround(a, c, b);
    ToLowerAppend(a, b);
    FilterSkips(ToLower(a), LowerChar(c), ToLower(b));
  }

  /** Lower-casing works character by character around one character. */
  lemma LowerAround(a: string, c: char, b: string)
    ensures ToLower(a + [c] + b) == ToLower(a) + [LowerChar(c)] + ToLower(b)
  {
    ToLowerAppend(a + [c], b);
    ToLowerAppend(a, [c]);
  }

  /** The filter drops a character it does not keep. */
  lemma FilterSkips(la: string, lc: char, lb: string)
    requires !IsPasswordChar(lc)
    ensures Seqs.Filter(la + [lc] + lb, IsPasswordChar) == Seqs.Filter(la + lb, IsPasswordChar)
  {
    Seqs.FilterAppend(la + [lc], lb, IsPasswordChar);
    Seqs.FilterSnoc(la, lc, IsPasswordChar);
    Seqs.FilterAppend(la, lb, IsPasswordChar);
  }

  datatype Mode = Login | Register

  datatype FormField = FullName | Email | Phone | Location

  datatype FormData = FormData(fullName: string, email: string, phone: string, location: string)

  /** The calls made to the auth client. */
  datatype AuthRequest =
    | SignUp(email: string, password: string, fullName: string, phone: string, location: string)
    | SignIn(email: string, password: string)

  /** What a submit shows and where it goes. */
  datatype SubmitResult = SubmitResult(toast: Toast, navigateTo: Option<string>)

  function OtherMode(m: Mode): (r: Mode)
    ensures r != m
  {
    if m == Login then Register else Login
  }

  class AuthForm {
    var mode: Mode
    var loading: bool
    var form: FormData
    var requests: seq<AuthRequest>

    /** The page as opened: register mode exactly when the query has
        `register=true`. */
    constructor (registerParam: Option<string>)
      ensures mode == (if registerParam == Some("true") then Register else Login)
      ensures !loading && form == FormData("", "", "", "") && requests == []
    {
      mode := if registerParam == Some("true") then Register else Login;
      loading := false;
      form := FormData("", "", "", "");
      requests := [];
    }

    /** `handleInputChange`: the named field takes the value. */
    method SetField(field: FormField, value: string)
      modifies this
      ensures form == match field
        case FullName => old(form).(fullName := value)
        case Email => old(form).(email := value)
        case Phone => old(form).(phone := value)
        case Location => old(form).(location := value)
      ensures mode == old(mode) && loading == old(loading) && requests == old(requests)
    {
      match field
      case FullName => form := form.(fullName := value);
      case Email => form := form.(email := value);
      case Phone => form := form.(phone := value);
      case Location => form := form.(location := value);
    }

    /** The "Register now" / "Sign in" link. */
    method ToggleMode()
      modifies this
      ensures mode == OtherMode(old(mode))
      ensures loading == old(loading) && form == old(form) && requests == old(requests)
    {
      mode := OtherMode(mode);
    }

    /** `handleSubmit`: register mode signs up with the profile fields,
        login mode signs in; both use the derived password. `outcome` is the
        auth client's answer. `loading` is false again afterwards. */
    method Submit(outcome: WriteOutcome) returns (r: SubmitResult)
      modifies this
      ensures requests == old(requests) + [
        if mode == Register
        then SignUp(form.email, GeneratePassword(form.email), form.fullName, form.phone, form.location)
        else SignIn(form.email, GeneratePassword(form.email))]
      ensures outcome.WriteFailed? ==>
        r == SubmitResult(Toast("Error", if outcome.error.message != "" then outcome.error.message else "Something went wrong", true), None)
      ensures outcome.Written? ==>
        r == SubmitResult(if mode == Register then Toast("Account created!", "You are now logged in.", false)
                          else Toast("Welcome back!", "You are now logged in.", false), Some("/dashboard"))
      ensures !loading && mode == old(mode) && form == old(form)
    {
      loading := true;
      var password := GeneratePassword(form.email);
      if mode == Register {
        requests := requests + [SignUp(form.email, password, form.fullName, form.phone, form.location)];
      } else {
        requests := requests + [SignIn(form.email, password)];
      }
      if outcome.WriteFailed? {
        r := SubmitResult(Toast("Error", if outcome.error.message != "" then outcome.error.message else "Something went wrong", true), None);
      } else if mode == Register {
        r := SubmitResult(Toast("Account created!", "You are now logged in.", false), Some("/dashboard"));
      } else {
        r := SubmitResult(Toast("Welcome back!", "You are now logged in.", false), Some("/dashboard"));
      }
      loading := false;
    }
  }
}
