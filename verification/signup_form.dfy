/** The signup form: its four fields with one error message each, the
    change handler, the validator and the request it submits. */
module SignupForm {
  import opened Wrappers
  import opened Text

  datatype Field = Username | Password | ConfirmPassword | Name

  datatype FormData = FormData(username: string, password: string, confirmPassword: string, name: string)

  /** One message per field; `""` means no error. */
  datatype FormErrors = FormErrors(username: string, password: string, confirmPassword: string, name: string)

  const EmptyForm := FormData("", "", "", "")
  const NoErrors := FormErrors("", "", "", "")

  function FieldOf(form: FormData, f: Field): string {
    match f
    case Username => form.username
    case Password => form.password
    case ConfirmPassword => form.confirmPassword
    case Name => form.name
  }

  function ErrorOf(errors: FormErrors, f: Field): string {
    match f
    case Username => errors.username
    case Password => errors.password
    case ConfirmPassword => errors.confirmPassword
    case Name => errors.name
  }

  /** `handleChange`: the named field takes the typed value and its error,
      if any, is cleared; every other field and error stays. */
  function HandleChange(form: FormData, errors: FormErrors, f: Field, value: string): (r: (FormData, FormErrors))
    ensures forall g :: FieldOf(r.0, g) == (if g == f then value else FieldOf(form, g))
    ensures forall g :: ErrorOf(r.1, g) == (if g == f then "" else ErrorOf(errors, g))
  {
    var newForm := match f
      case Username => form.(username := value)
      case Password => form.(password := value)
      case ConfirmPassword => form.(confirmPassword := value)
      case Name => form.(name := value);
    var newErrors :=
      if ErrorOf(errors, f) == "" then errors
      else match f
        case Username => errors.(username := "")
        case Password => errors.(password := "")
        case ConfirmPassword => errors.(confirmPassword := "")
        case Name => errors.(name := "");
    (newForm, newErrors)
  }

  /** The username has text and, untrimmed, at least 3 UTF-16 code units. */
  predicate UsernameOk(username: string) {
    HasText(username) && Utf16Length(username) >= 3
  }

  /** The password has at least 6 UTF-16 code units. */
  predicate PasswordOk(password: string) {
    Utf16Length(password) >= 6
  }

  predicate ConfirmationOk(password: string, confirmPassword: string) {
    confirmPassword != "" && confirmPassword == password
  }

  predicate NameOk(name: string) {
    HasText(name)
  }

  /** What the validator accepts. */
  predicate IsValid(form: FormData) {
    UsernameOk(form.username) && PasswordOk(form.password) &&
    ConfirmationOk(form.password, form.confirmPassword) && NameOk(form.name)
  }

  /** `validateForm`: field by field, the first failing check sets the
      field's message and clears the valid flag. */
  method ValidateForm(form: FormData) returns (valid: bool, errors: FormErrors)
    ensures valid <==> IsValid(form)
    ensures valid <==> errors == NoErrors
    ensures errors.username == "" <==> UsernameOk(form.username)
    ensures errors.password == "" <==> PasswordOk(form.password)
    ensures errors.confirmPassword == "" <==> ConfirmationOk(form.password, form.confirmPassword)
    ensures errors.name == "" <==> NameOk(form.name)
    ensures !HasText(form.username) ==> errors.username == "Username is required"
    ensures HasText(form.username) && Utf16Length(form.username) < 3 ==>
              errors.username == "Username must be at least 3 characters"
    ensures form.password == "" ==> errors.password == "Password is required"
    ensures form.password != "" && Utf16Length(form.password) < 6 ==>
              errors.password == "Password must be at least 6 characters"
    ensures form.confirmPassword == "" ==> errors.confirmPassword == "Please confirm your password"
    ensures form.confirmPassword != "" && form.confirmPassword != form.password ==>
              errors.confirmPassword == "Passwords do not match"
    ensures !HasText(form.name) ==> errors.name == "Name is required"
  {
    valid := true;
    var usernameError, passwordError, confirmError, nameError := "", "", "", "";

    TrimEmptyIffNoText(form.username);
    if Trim(form.username) == "" {
      usernameError := "Username is required";
      valid := false;
    } else if Utf16Length(form.username) < 3 {
      usernameError := "Username must be at least 3 characters";
      valid := false;
    }

    if form.password == "" {
      passwordError := "Password is required";
      valid := false;
    } else if Utf16Length(form.password) < 6 {
      passwordError := "Password must be at least 6 characters";
      valid := false;
    }

    if form.confirmPassword == "" {
      confirmError := "Please confirm your password";
      valid := false;
    } else if form.password != form.confirmPassword {
      confirmError := "Passwords do not match";
      valid := false;
    }

    TrimEmptyIffNoText(form.name);
    if Trim(form.name) == "" {
      nameError := "Name is required";
      valid := false;
    }

    errors := FormErrors(usernameError, passwordError, confirmError, nameError);
  }

  /** The body of the signup request: `confirmPassword` is not part of it. */
  datatype SignupRequest = SignupRequest(username: string, password: string, name: string)

  function NewUser(form: FormData): SignupRequest {
    SignupRequest(form.username, form.password, form.name)
  }

  /** `handleSubmit`: the form is validated and the signup request is
      dispatched only when it is valid. */
  method HandleSubmit(form: FormData) returns (errors: FormErrors, dispatched: Option<SignupRequest>)
    ensures dispatched.Some? <==> IsValid(form)
    ensures dispatched.Some? <==> errors == NoErrors
    ensures dispatched.Some? ==> dispatched.value == SignupRequest(form.username, form.password, form.name)
  {
    var valid;
    valid, errors := ValidateForm(form);
    if valid {
      dispatched := Some(NewUser(form));
    } else {
      dispatched := None;
    }
  }

  /** The form filled in by the signup test is valid, and the request it
      submits is exactly the username, password and name typed in. */
  lemma TestFormIsSubmitted()
    ensures var form := FormData("testuser", "password123", "password123", "Test User");
      IsValid(form) && NewUser(form) == SignupRequest("testuser", "password123", "Test User")
  {
    assert !IsWhitespace("testuser"[0]);
    assert !IsWhitespace("Test User"[0]);
  }

  /** Leading or trailing blanks count towards the username's length: two
      spaces and one letter pass the length check. */
  lemma UsernameLengthIsUntrimmed()
    ensures UsernameOk("  a") && |Trim("  a")| == 1
  {
    assert !IsWhitespace("  a"[2]);
    assert TrimStart("  a") == "a";
  }

  /** A character outside the Basic Multilingual Plane counts as two: a
      letter followed by an emoji is long enough for a username. */
  lemma AstralCharacterCountsTwice()
    ensures UsernameOk("a\U{1F600}") && Utf16Length("a\U{1F600}") == 3
  {
    assert !IsWhitespace("a\U{1F600}"[0]);
  }
}
