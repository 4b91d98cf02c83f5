/**
 * The sign-up page: the six-field form and its per-field updates, the
 * ordered validation chain whose first failing check wins, the submit gate,
 * and the password-strength meter.
 */
module SignUp {
  import opened Wrappers
  import opened Text

  /** `formData`: the six text inputs of the form. */
  datatype SignUpForm = SignUpForm(
    firstName: string,
    lastName: string,
    email: string,
    company: string,
    password: string,
    confirmPassword: string)

  const EmptyForm := SignUpForm("", "", "", "", "", "")

  /** The `name` attribute of each input, which `handleChange` uses as the key. */
  datatype Field = FirstName | LastName | Email | Company | Password | ConfirmPassword

  /** The value of one field. */
  function Get(form: SignUpForm, f: Field): string {
    match f
    case FirstName => form.firstName
    case LastName => form.lastName
    case Email => form.email
    case Company => form.company
    case Password => form.password
    case ConfirmPassword => form.confirmPassword
  }

  /** `{ ...prev, [name]: value }`: the named field takes the value, every other field keeps its own. */
  function Set(form: SignUpForm, f: Field, value: string): (r: SignUpForm)
    ensures Get(r, f) == value
    ensures forall g :: g != f ==> Get(r, g) == Get(form, g)
  {
    match f
    case FirstName => form.(firstName := value)
    case LastName => form.(lastName := value)
    case Email => form.(email := value)
    case Company => form.(company := value)
    case Password => form.(password := value)
    case ConfirmPassword => form.(confirmPassword := value)
  }

  /** A form is determined by the values of its fields. */
  lemma FormExtensional(a: SignUpForm, b: SignUpForm)
    requires forall f :: Get(a, f) == Get(b, f)
    ensures a == b
  {
    assert Get(a, FirstName) == Get(b, FirstName) && Get(a, LastName) == Get(b, LastName);
    assert Get(a, Email) == Get(b, Email) && Get(a, Company) == Get(b, Company);
    assert Get(a, Password) == Get(b, Password) && Get(a, ConfirmPassword) == Get(b, ConfirmPassword);
  }

  /** Writing a field its own value changes nothing. */
  lemma SetOwnValue(form: SignUpForm, f: Field)
    ensures Set(form, f, Get(form, f)) == form
  {
    FormExtensional(Set(form, f, Get(form, f)), form);
  }

  /** A second change of the same field overrides the first. */
  lemma SetTwice(form: SignUpForm, f: Field, v: string, w: string)
    ensures Set(Set(form, f, v), f, w) == Set(form, f, w)
  {
    FormExtensional(Set(Set(form, f, v), f, w), Set(form, f, w));
  }

  /** Changes of two different fields can be made in either order. */
  lemma SetCommutes(form: SignUpForm, f: Field, v: string, g: Field, w: string)
    requires f != g
    ensures Set(Set(form, f, v), g, w) == Set(Set(form, g, w), f, v)
  {
    FormExtensional(Set(Set(form, f, v), g, w), Set(Set(form, g, w), f, v));
  }

  // ---------------------------------------------------------------------------
  // Validation

  /** The checks of `validateForm`, in the order it makes them. */
  datatype ValidationError = MissingField | InvalidEmail | ShortPassword | PasswordMismatch | TermsNotAccepted

  /** The text shown for each failed check; every one is non-empty, so it is truthy. */
  function Message(e: ValidationError): (r: string)
    ensures r != []
  {
    match e
    case MissingField => "Please fill in all fields"
    case InvalidEmail => "Please enter a valid email address"
    case ShortPassword => "Password must be at least 8 characters long"
    case PasswordMismatch => "Passwords do not match"
    case TermsNotAccepted => "Please accept the terms and conditions"
  }

  /** No field is the empty string, the only falsy string. */
  predicate AllFilled(form: SignUpForm) {
    forall f :: Get(form, f) != []
  }

  /** The minimum password length the form demands. */
  const MinPasswordLength := 8

  /** Whether the check named by `e` passes. */
  predicate Passes(form: SignUpForm, acceptTerms: bool, e: ValidationError) {
    match e
    case MissingField => AllFilled(form)
    case InvalidEmail => '@' in form.email
    case ShortPassword => |form.password| >= MinPasswordLength
    case PasswordMismatch => form.password == form.confirmPassword
    case TermsNotAccepted => acceptTerms
  }

  /** Position of each check in the chain. */
  function Rank(e: ValidationError): nat {
    match e
    case MissingField => 0
    case InvalidEmail => 1
    case ShortPassword => 2
    case PasswordMismatch => 3
    case TermsNotAccepted => 4
  }

  /**
   * `validateForm`: the first failing check, or `None` (`null`) when all pass.
   * `'@' in email` is `email.includes('@')` for a one-character pattern.
   */
  function ValidateForm(form: SignUpForm, acceptTerms: bool): (r: Option<ValidationError>)
    ensures r.None? ==> forall e :: Passes(form, acceptTerms, e)
    ensures r.Some? ==> !Passes(form, acceptTerms, r.value)
    ensures r.Some? ==> forall e :: Rank(e) < Rank(r.value) ==> Passes(form, acceptTerms, e)
  {
    if !AllFilled(form) then Some(MissingField)
    else if '@' !in form.email then Some(InvalidEmail)
    else if |form.password| < MinPasswordLength then Some(ShortPassword)
    else if form.password != form.confirmPassword then Some(PasswordMismatch)
    else if !acceptTerms then Some(TermsNotAccepted)
    else None
  }

  /** An empty field is reported before anything else. */
  lemma EmptyFieldFirst(form: SignUpForm, acceptTerms: bool, f: Field)
    requires Get(form, f) == []
    ensures ValidateForm(form, acceptTerms) == Some(MissingField)
  {
  }

  /** With every field filled, an email without '@' is the error. */
  lemma MissingAtSign(form: SignUpForm, acceptTerms: bool)
    requires AllFilled(form) && '@' !in form.email
    ensures ValidateForm(form, acceptTerms) == Some(InvalidEmail)
  {
  }

  /** The chain names a check exactly when that check fails and every earlier one passes. */
  lemma FirstFailureWins(form: SignUpForm, acceptTerms: bool, e: ValidationError)
    ensures ValidateForm(form, acceptTerms) == Some(e) <==>
              !Passes(form, acceptTerms, e) && forall d :: Rank(d) < Rank(e) ==> Passes(form, acceptTerms, d)
  {
    var r := ValidateForm(form, acceptTerms);
    if !Passes(form, acceptTerms, e) && forall d :: Rank(d) < Rank(e) ==> Passes(form, acceptTerms, d) {
      assert r.Some?;
    }
  }

  // ---------------------------------------------------------------------------
  // Password strength

  /** `/[A-Z]/.test(p)`. */
  predicate HasUpper(p: string) {
    exists i :: 0 <= i < |p| && IsUpperAscii(p[i])
  }

  /** `/[0-9]/.test(p)`. */
  predicate HasDigit(p: string) {
    exists i :: 0 <= i < |p| && '0' <= p[i] <= '9'
  }

  /** The meter's reading: a level out of three, its label and its bar colour (absent for an empty password). */
  datatype Strength = Strength(level: nat, text: string, color: Option<string>)

  /** `passwordStrength`. */
  function PasswordStrength(p: string): (r: Strength)
    ensures r.level <= 3
    ensures r.level == 0 <==> p == []
    ensures r.level == 1 <==> 0 < |p| < 6
    ensures r.level == 3 <==> |p| >= 10 && HasUpper(p) && HasDigit(p)
    ensures r.text == "" <==> r.color.None?
    ensures r.text == (if r.level == 0 then "" else if r.level == 1 then "Weak" else if r.level == 2 then "Fair" else "Strong")
  {
    if |p| == 0 then Strength(0, "", None)
    else if |p| < 6 then Strength(1, "Weak", Some("bg-red-500"))
    else if |p| < 10 then Strength(2, "Fair", Some("bg-yellow-500"))
    else if |p| >= 10 && HasUpper(p) && HasDigit(p) then Strength(3, "Strong", Some("bg-green-500"))
    else Strength(2, "Fair", Some("bg-yellow-500"))
  }

  /** Lengthening a password never lowers its level. */
  lemma StrengthMonotone(p: string, q: string)
    requires p <= q
    ensures PasswordStrength(p).level <= PasswordStrength(q).level
  {
    if PasswordStrength(p).level == 3 {
      var i :| 0 <= i < |p| && IsUpperAscii(p[i]);
      var j :| 0 <= j < |p| && '0' <= p[j] <= '9';
      assert q[i] == p[i] && q[j] == p[j];
    }
  }

  /** A form that passes validation has a password rated at least "Fair". */
  lemma ValidFormIsAtLeastFair(form: SignUpForm, acceptTerms: bool)
    requires ValidateForm(form, acceptTerms).None?
    ensures PasswordStrength(form.password).level >= 2
    ensures PasswordStrength(form.password).text in {"Fair", "Strong"}
  {
    assert Passes(form, acceptTerms, ShortPassword);
  }

  // ---------------------------------------------------------------------------
  // The page's state

  class SignUpPage {
    var formData: SignUpForm
    var showPassword: bool
    var showConfirmPassword: bool
    var isLoading: bool
    var error: string
    var acceptTerms: bool

    constructor()
      ensures formData == EmptyForm
      ensures !showPassword && !showConfirmPassword && !isLoading && !acceptTerms
      ensures error == ""
    {
      formData := EmptyForm;
      showPassword := false;
      showConfirmPassword := false;
      isLoading := false;
      error := "";
      acceptTerms := false;
    }

    /** `handleChange`: only the named field of the form changes. */
    method HandleChange(name: Field, value: string)
      modifies this
      ensures formData == Set(old(formData), name, value)
      ensures showPassword == old(showPassword) && showConfirmPassword == old(showConfirmPassword)
      ensures isLoading == old(isLoading) && error == old(error) && acceptTerms == old(acceptTerms)
    {
      formData := Set(formData, name, value);
    }

    /**
     * `handleSubmit`: on a validation error, shows its message and returns
     * with nothing submitted and the loading flag untouched; otherwise
     * hands the form to `onSignUp` (returned as `submitted`) and ends with
     * the error cleared and loading over.
     */
    method HandleSubmit() returns (submitted: Option<SignUpForm>)
      modifies this
      ensures submitted.Some? <==> ValidateForm(formData, acceptTerms).None?
      ensures submitted.Some? ==> submitted.value == formData
      ensures ValidateForm(formData, acceptTerms).Some? ==>
                error == Message(ValidateForm(formData, acceptTerms).value) && isLoading == old(isLoading)
      ensures ValidateForm(formData, acceptTerms).None? ==> error == "" && !isLoading
      ensures formData == old(formData) && acceptTerms == old(acceptTerms)
      ensures showPassword == old(showPassword) && showConfirmPassword == old(showConfirmPassword)
    {
      error := "";
      var validationError := ValidateForm(formData, acceptTerms);
      if validationError.Some? {
        error := Message(validationError.value);
        submitted := None;
        return;
      }
      isLoading := true;
      submitted := Some(formData);
      isLoading := false;
    }

    /** The eye button of the password field. */
    method TogglePassword()
      modifies this
      ensures showPassword == !old(showPassword)
      ensures formData == old(formData) && showConfirmPassword == old(showConfirmPassword)
      ensures isLoading == old(isLoading) && error == old(error) && acceptTerms == old(acceptTerms)
    {
      showPassword := !showPassword;
    }

    /** The eye button of the confirmation field. */
    method ToggleConfirmPassword()
      modifies this
      ensures showConfirmPassword == !old(showConfirmPassword)
      ensures formData == old(formData) && showPassword == old(showPassword)
      ensures isLoading == old(isLoading) && error == old(error) && acceptTerms == old(acceptTerms)
    {
      showConfirmPassword := !showConfirmPassword;
    }

    /** The terms checkbox. */
    method SetAcceptTerms(checked: bool)
      modifies this
      ensures acceptTerms == checked
      ensures formData == old(formData) && showPassword == old(showPassword)
      ensures showConfirmPassword == old(showConfirmPassword)
      ensures isLoading == old(isLoading) && error == old(error)
    {
      acceptTerms := checked;
    }
  }
}
