/** src/pages/Auth/Register.js: the registration form, its validation schema and the
    submit handler. */
module Register {
  import opened Wrappers
  import opened JsValues

  /** The form values. `age` is the number the schema reads from its field, None when the
      field does not read as a number (it starts empty). */
  datatype RegisterForm = RegisterForm(firstName: string, lastName: string, emailId: string,
                                       age: Option<int>, phoneNumber: string, password: string,
                                       username: string, role: string)

  datatype Field = FirstName | LastName | EmailId | Age | PhoneNumber | Password | Username | Role

  const InitialValues := RegisterForm("", "", "", None, "", "", "", "USER")

  /** The option values of the (disabled) role select. */
  const RoleOptions: seq<string> := ["User", "Admin"]

  /** The pattern `^\d{n}$`, matched one character at a time. */
  predicate MatchesDigits(p: string, n: nat)
    decreases n
  {
    if n == 0 then p == [] else p != [] && IsDigit(p[0]) && MatchesDigits(p[1..], n - 1)
  }

  /** The pattern accepts exactly the strings of n digits. */
  lemma {:induction false} MatchesDigitsIff(p: string, n: nat)
    ensures MatchesDigits(p, n) <==> |p| == n && AllDigits(p)
    decreases n
  {
    if n > 0 && p != [] {
      MatchesDigitsIff(p[1..], n - 1);
      if AllDigits(p) {
        assert AllDigits(p[1..]);
      }
      if IsDigit(p[0]) && AllDigits(p[1..]) {
        assert forall i :: 1 <= i < |p| ==> p[i] == p[1..][i - 1];
      }
    }
  }

  /** One rule of the schema; `isEmail` is the schema's e-mail test. */
  predicate FieldValid(f: RegisterForm, field: Field, isEmail: string -> bool) {
    match field
    case FirstName => f.firstName != ""
    case LastName => f.lastName != ""
    case EmailId => f.emailId != "" && isEmail(f.emailId)
    case Age => f.age.Some? && f.age.value >= 0
    case PhoneNumber => f.phoneNumber != "" && MatchesDigits(f.phoneNumber, 10)
    case Password => f.password != "" && |f.password| >= 8
    case Username => f.username != ""
    case Role => f.role == "USER" || f.role == "ADMIN"
  }

  /** The whole schema. */
  predicate SchemaAccepts(f: RegisterForm, isEmail: string -> bool) {
    forall field: Field :: FieldValid(f, field, isEmail)
  }

  /** The rules spelled out: ten digits, eight characters, a non-negative age, one of the
      two roles, and the three names present. */
  lemma Rules(f: RegisterForm, isEmail: string -> bool)
    ensures FieldValid(f, PhoneNumber, isEmail) <==> |f.phoneNumber| == 10 && AllDigits(f.phoneNumber)
    ensures FieldValid(f, Password, isEmail) <==> |f.password| >= 8
    ensures FieldValid(f, Age, isEmail) <==> f.age.Some? && f.age.value >= 0
    ensures FieldValid(f, Role, isEmail) <==> f.role in ["USER", "ADMIN"]
    ensures FieldValid(f, FirstName, isEmail) && FieldValid(f, LastName, isEmail)
            && FieldValid(f, Username, isEmail)
            <==> f.firstName != "" && f.lastName != "" && f.username != ""
  {
    MatchesDigitsIff(f.phoneNumber, 10);
  }

  /** The initial values pass the role rule and fail the others that need input. */
  lemma InitialValuesIncomplete(isEmail: string -> bool)
    ensures FieldValid(InitialValues, Role, isEmail)
    ensures !FieldValid(InitialValues, FirstName, isEmail) && !FieldValid(InitialValues, Age, isEmail)
    ensures !SchemaAccepts(InitialValues, isEmail)
  {
    assert !FieldValid(InitialValues, FirstName, isEmail);
  }

  /** The values of the select's options are not among the roles the schema accepts. */
  lemma SelectOptionsRejected(f: RegisterForm, option: string, isEmail: string -> bool)
    requires option in RoleOptions
    ensures !FieldValid(f.(role := option), Role, isEmail)
  {
  }

  /** A filled-in form the schema accepts. */
  lemma CompleteFormAccepted(isEmail: string -> bool)
    requires isEmail("ada@example.org")
    ensures SchemaAccepts(RegisterForm("Ada", "Lovelace", "ada@example.org", Some(36), "0123456789",
                               "analytical", "ada", "USER"), isEmail)
  {
    var f := RegisterForm("Ada", "Lovelace", "ada@example.org", Some(36), "0123456789",
                          "analytical", "ada", "USER");
    assert |f.phoneNumber| == 10 && AllDigits(f.phoneNumber);
    MatchesDigitsIff(f.phoneNumber, 10);
    forall field: Field
      ensures FieldValid(f, field, isEmail)
    {
    }
  }

  const Registered := "User registered successfully!"
  const RegisterFailed := "Failed to register user. Please try again later."

  class RegisterPage {
    var values: RegisterForm

    /** The role select is disabled, so the role keeps its initial value. */
    predicate Valid()
      reads this
    {
      values.role == "USER"
    }

    constructor()
      ensures values == InitialValues && Valid()
    {
      values := InitialValues;
    }

    /** Typing into the enabled fields. */
    method Change(newValues: RegisterForm)
      requires Valid() && newValues.role == values.role
      modifies this
      ensures values == newValues && Valid()
    {
      values := newValues;
    }

    /** Submitting: the form library calls `handleSubmit` only when the schema accepts the
        values; `created` is whether the create request succeeded. Success alerts, resets
        the form and goes to /login; failure only alerts. */
    method Submit(isEmail: string -> bool, created: bool)
      returns (request: Option<RegisterForm>, target: Option<string>, alert: Option<string>)
      requires Valid()
      modifies this
      ensures Valid()
      ensures !SchemaAccepts(old(values), isEmail) ==>
                request == None && target == None && alert == None && values == old(values)
      ensures SchemaAccepts(old(values), isEmail) ==> request == Some(old(values))
      ensures SchemaAccepts(old(values), isEmail) && created ==>
                values == InitialValues && target == Some("/login") && alert == Some(Registered)
      ensures SchemaAccepts(old(values), isEmail) && !created ==>
                values == old(values) && target == None && alert == Some(RegisterFailed)
    {
      request, target, alert := None, None, None;
      if FieldValid(values, FirstName, isEmail) && FieldValid(values, LastName, isEmail)
         && FieldValid(values, EmailId, isEmail) && FieldValid(values, Age, isEmail)
         && FieldValid(values, PhoneNumber, isEmail) && FieldValid(values, Password, isEmail)
         && FieldValid(values, Username, isEmail) && FieldValid(values, Role, isEmail)
      {
        request := Some(values);
        if created {
          alert := Some(Registered);
          values := InitialValues;
          target := Some("/login");
        } else {
          alert := Some(RegisterFailed);
        }
      } else {
        assert !SchemaAccepts(values, isEmail);
      }
    }
  }
}
