/** The client-side registration form: field-wise change, the validation that
    records one message per failing field, and the reset after a valid submit. */
module RegistrationForm {
  import opened JsText
  import opened EmailFormat

  datatype RegistrationData = RegistrationData(username: string, email: string, password: string)

  datatype Field = Username | Email | Password

  const EmptyForm := RegistrationData("", "", "")

  const UsernameRequired := "Username is required."
  const EmailRequired := "Email is required."
  const EmailInvalid := "Enter a valid email address."
  const PasswordRequired := "Password is required."
  const PasswordTooShort := "Password must be at least 6 characters."
  const MinPasswordLength := 6

  function Get(d: RegistrationData, f: Field): string {
    match f
    case Username => d.username
    case Email => d.email
    case Password => d.password
  }

  /** `{ ...prev, [name]: value }`. */
  function WithField(d: RegistrationData, name: Field, value: string): (r: RegistrationData)
    ensures Get(r, name) == value
    ensures forall f :: f != name ==> Get(r, f) == Get(d, f)
  {
    match name
    case Username => d.(username := value)
    case Email => d.(email := value)
    case Password => d.(password := value)
  }

  /** Writing back a field's own value changes nothing. */
  lemma WithOwnValue(d: RegistrationData, name: Field)
    ensures WithField(d, name, Get(d, name)) == d
  {
  }

  /** What every check of `validate` lets through. */
  predicate Acceptable(d: RegistrationData) {
    !Blank(d.username) && !Blank(d.email) && RegexTest(d.email) && Utf16Length(d.password) >= MinPasswordLength
  }

  /** The error map `validate` builds for `d`: a username error when it is
      blank; an e-mail error when the untrimmed address fails the pattern,
      which says "required" for a blank address and "invalid" otherwise; a
      password error when it is shorter than six UTF-16 units, which says
      "required" for the empty password and "too short" otherwise. */
  predicate Describes(errors: map<Field, string>, d: RegistrationData) {
    && (Username in errors <==> Blank(d.username))
    && (Username in errors ==> errors[Username] == UsernameRequired)
    && (Email in errors <==> !RegexTest(d.email))
    && (Email in errors ==> errors[Email] == if Blank(d.email) then EmailRequired else EmailInvalid)
    && (Password in errors <==> Utf16Length(d.password) < MinPasswordLength)
    && (Password in errors ==> errors[Password] == if d.password == [] then PasswordRequired else PasswordTooShort)
  }

  /** The checks of `validate`: each failing check records its message and
      clears `valid`; the pattern is tried only on a non-blank address. */
  method CollectErrors(d: RegistrationData) returns (newErrors: map<Field, string>, valid: bool)
    ensures Describes(newErrors, d)
    ensures valid <==> newErrors == map[]
    ensures valid <==> Acceptable(d)
  {
    valid := true;
    newErrors := map[];
    if Blank(d.username) {
      newErrors := newErrors[Username := UsernameRequired];
      valid := false;
    }
    if Blank(d.email) {
      BlankRejected(d.email);
      newErrors := newErrors[Email := EmailRequired];
      valid := false;
    } else if !RegexTest(d.email) {
      newErrors := newErrors[Email := EmailInvalid];
      valid := false;
    }
    if d.password == [] {
      newErrors := newErrors[Password := PasswordRequired];
      valid := false;
    } else if Utf16Length(d.password) < MinPasswordLength {
      newErrors := newErrors[Password := PasswordTooShort];
      valid := false;
    }
  }

  class Form {
    var formData: RegistrationData
    var errors: map<Field, string>

    constructor ()
      ensures formData == EmptyForm && errors == map[]
    {
      formData := EmptyForm;
      errors := map[];
    }

    method HandleChange(name: Field, value: string)
      modifies this`formData
      ensures formData == WithField(old(formData), name, value)
    {
      formData := WithField(formData, name, value);
    }

    /** `validate`: collects the errors and commits them with `setErrors`. */
    method Validate() returns (valid: bool)
      modifies this`errors
      ensures Describes(errors, formData)
      ensures valid <==> errors == map[]
      ensures valid <==> Acceptable(formData)
    {
      var newErrors;
      newErrors, valid := CollectErrors(formData);
      errors := newErrors;
    }

    /** `handleSubmit`: a valid form is cleared to empty fields and no errors;
        an invalid one keeps its data and shows its errors. */
    method HandleSubmit() returns (submitted: bool)
      modifies this
      ensures submitted <==> Acceptable(old(formData))
      ensures submitted ==> formData == EmptyForm && errors == map[]
      ensures !submitted ==> formData == old(formData) && errors != map[] && Describes(errors, formData)
    {
      submitted := Validate();
      if submitted {
        formData := EmptyForm;
        errors := map[];
      }
    }
  }

  /** A password is accepted exactly when it has at least six UTF-16 units; for
      text without astral characters that is six characters. */
  lemma PasswordLengthRule(password: string)
    requires forall i :: 0 <= i < |password| ==> password[i] as int < 0x1_0000
    ensures Utf16Length(password) < MinPasswordLength <==> |password| < MinPasswordLength
  {
    BasicPlaneLength(password);
  }

  lemma {:induction false} BasicPlaneLength(s: string)
    requires forall i :: 0 <= i < |s| ==> s[i] as int < 0x1_0000
    ensures Utf16Length(s) == |s|
    decreases |s|
  {
    if s != [] {
      BasicPlaneLength(s[1..]);
    }
  }
}
