/** The account serializers: the password field's flags, sign-up with its
    password-match check and the row it stores, login, and the password
    change. Hashing, the password strength check, credential checking and
    authentication are library calls whose workings are not modelled: each is
    a function passed in as a parameter. */
module Accounts {
  import opened Model

  const PASSWORDS_MUST_MATCH := "Passwords must match "
  const OLD_PASSWORD_WRONG := "Password is not  correct"

  /** A field validator: the password strength check, or one the base field brings. */
  datatype Validator = ValidatePassword | Inherited(name: string)

  /** The options a serializer field is built with. */
  datatype FieldOptions = FieldOptions(required: bool, writeOnly: bool, inputType: string, validators: seq<Validator>)

  /** The keyword arguments a `PasswordField` is given; an omitted
      `write_only` is `None`. `validators` are those the base field sets up. */
  datatype FieldKwargs = FieldKwargs(required: bool, writeOnly: Option<bool>, inputType: Option<string>, validators: seq<Validator>)

  /** `PasswordField`: the input is styled as a password whatever was asked,
      `write_only` defaults to true, and the strength validator is appended
      to the validators. */
  function PasswordField(kwargs: FieldKwargs): (f: FieldOptions)
    ensures f.inputType == "password"
    ensures kwargs.writeOnly.None? ==> f.writeOnly
    ensures kwargs.writeOnly.Some? ==> f.writeOnly == kwargs.writeOnly.value
    ensures f.required == kwargs.required
    ensures |f.validators| == |kwargs.validators| + 1 && f.validators[..|kwargs.validators|] == kwargs.validators
    ensures ValidatePassword in f.validators && f.validators[|f.validators| - 1] == ValidatePassword
  {
    var writeOnly := if kwargs.writeOnly.Some? then kwargs.writeOnly.value else true;
    FieldOptions(kwargs.required, writeOnly, "password", kwargs.validators + [ValidatePassword])
  }

  /** A `PasswordField(required=True)` over the base field's validators. */
  function RequiredPassword(base: seq<Validator>): (f: FieldOptions)
    ensures f.required && f.writeOnly && ValidatePassword in f.validators
  {
    PasswordField(FieldKwargs(true, None, None, base))
  }

  /** A plain field, readable and writable. */
  function Plain(required: bool, base: seq<Validator>): FieldOptions {
    FieldOptions(required, false, "text", base)
  }

  /** The output of a serializer: every field of the row that is not write-only. */
  function Represent(fields: map<string, FieldOptions>, row: map<string, string>): (out: map<string, string>)
    ensures forall k :: k in out <==> k in fields && k in row && !fields[k].writeOnly
    ensures forall k :: k in out ==> out[k] == row[k]
  {
    map k | k in fields && k in row && !fields[k].writeOnly :: row[k]
  }

  /** The fields of `CreateUserSerializer`. */
  function SignUpFields(base: seq<Validator>): map<string, FieldOptions> {
    map["id" := Plain(false, base), "username" := Plain(true, base), "first_name" := Plain(false, base),
        "last_name" := Plain(false, base), "email" := Plain(false, base),
        "password" := RequiredPassword(base), "password_repeat" := RequiredPassword(base)]
  }

  /** The fields of `LoginSerializer`. */
  function LoginFields(base: seq<Validator>): map<string, FieldOptions> {
    map["id" := Plain(false, base), "first_name" := Plain(false, base), "last_name" := Plain(false, base),
        "email" := Plain(false, base), "username" := Plain(true, base), "password" := RequiredPassword(base)]
  }

  /** Neither the password nor its repetition is ever part of the sign-up or
      login output, whatever the row holds; the other fields are shown. */
  lemma PasswordsNeverShown(base: seq<Validator>, row: map<string, string>)
    ensures "password" !in Represent(SignUpFields(base), row)
    ensures "password_repeat" !in Represent(SignUpFields(base), row)
    ensures "password" !in Represent(LoginFields(base), row)
    ensures "username" in row ==> "username" in Represent(SignUpFields(base), row)
    ensures "username" in row ==> "username" in Represent(LoginFields(base), row)
  {
    assert SignUpFields(base)["password"].writeOnly;
    assert SignUpFields(base)["password_repeat"].writeOnly;
    assert LoginFields(base)["password"].writeOnly;
  }

  /** The message of a required field the request leaves out. */
  const FIELD_REQUIRED := "This field is required."

  /** The value under `key`, if any. */
  function Lookup(attrs: map<string, string>, key: string): (v: Option<string>)
    ensures v.Some? <==> key in attrs
    ensures v.Some? ==> v.value == attrs[key]
  {
    if key in attrs then Some(attrs[key]) else None
  }

  /** A required password field's own validation. An absent field is an error,
      unless the request is partial, in which case the field is skipped. A
      present one must pass the strength check `validatePassword`, which gives
      the reason when it refuses a password. */
  function CheckPasswordField(field: string, value: Option<string>, partial: bool,
                              validatePassword: string -> Option<string>): (r: Result<Option<string>>)
    ensures value.None? && !partial ==> r == Err(ValidationError(field, FIELD_REQUIRED))
    ensures value.None? && partial ==> r == Ok(None)
    ensures (value.Some? && validatePassword(value.value).Some?)
              ==> r == Err(ValidationError(field, validatePassword(value.value).value))
    ensures r.Ok? <==> (value.None? ==> partial) && (value.Some? ==> validatePassword(value.value).None?)
    ensures r.Ok? ==> r.value == value
  {
    match value
    case None => if partial then Ok(None) else Err(ValidationError(field, FIELD_REQUIRED))
    case Some(v) =>
      match validatePassword(v)
      case Some(reason) => Err(ValidationError(field, reason))
      case None => Ok(value)
  }

  /** `CreateUserSerializer.validate`: the two passwords must be equal; the
      attributes are passed on unchanged. */
  function ValidateSignUp(attrs: map<string, string>): (r: Result<map<string, string>>)
    requires "password" in attrs && "password_repeat" in attrs
    ensures attrs["password"] != attrs["password_repeat"] ==> r == Err(ValidationError("password_repeat", PASSWORDS_MUST_MATCH))
    ensures r.Ok? <==> attrs["password"] == attrs["password_repeat"]
    ensures r.Ok? ==> r.value == attrs
  {
    if attrs["password"] != attrs["password_repeat"] then Err(ValidationError("password_repeat", PASSWORDS_MUST_MATCH))
    else Ok(attrs)
  }

  /** `CreateUserSerializer.create`: drop the repetition and replace the
      plaintext password with its hash, then store the rest as it came. */
  method CreateUser(validatedData: map<string, string>, makePassword: string -> string)
    returns (row: map<string, string>)
    requires "password" in validatedData && "password_repeat" in validatedData
    ensures row.Keys == validatedData.Keys - {"password_repeat"}
    ensures row["password"] == makePassword(validatedData["password"])
    ensures forall k :: k in row && k != "password" ==> row[k] == validatedData[k]
  {
    row := validatedData;
    row := row - {"password_repeat"};
    row := row["password" := makePassword(row["password"])];
  }

  /** A sign-up request: the password field, then its repetition, each
      present and passing the strength check; then the match check; then the
      row is stored. */
  method SignUp(attrs: map<string, string>, validatePassword: string -> Option<string>, makePassword: string -> string)
    returns (r: Result<map<string, string>>)
    ensures r.Ok? <==> && "password" in attrs && "password_repeat" in attrs
                       && validatePassword(attrs["password"]).None?
                       && validatePassword(attrs["password_repeat"]).None?
                       && attrs["password"] == attrs["password_repeat"]
    ensures (CheckPasswordField("password", Lookup(attrs, "password"), false, validatePassword).Err?)
              ==> r == Err(CheckPasswordField("password", Lookup(attrs, "password"), false, validatePassword).error)
    ensures (CheckPasswordField("password", Lookup(attrs, "password"), false, validatePassword).Ok?
             && CheckPasswordField("password_repeat", Lookup(attrs, "password_repeat"), false, validatePassword).Err?)
              ==> r == Err(CheckPasswordField("password_repeat", Lookup(attrs, "password_repeat"), false, validatePassword).error)
    ensures ("password" in attrs && "password_repeat" in attrs
             && validatePassword(attrs["password"]).None? && validatePassword(attrs["password_repeat"]).None?
             && attrs["password"] != attrs["password_repeat"])
              ==> r == Err(ValidationError("password_repeat", PASSWORDS_MUST_MATCH))
    ensures r.Ok? ==> r.value.Keys == attrs.Keys - {"password_repeat"}
    ensures r.Ok? ==> r.value["password"] == makePassword(attrs["password"])
    ensures r.Ok? ==> forall k :: k in r.value && k != "password" ==> r.value[k] == attrs[k]
  {
    var password := CheckPasswordField("password", Lookup(attrs, "password"), false, validatePassword);
    if password.Err? {
      return Err(password.error);
    }
    var repeat := CheckPasswordField("password_repeat", Lookup(attrs, "password_repeat"), false, validatePassword);
    if repeat.Err? {
      return Err(repeat.error);
    }
    var checked := ValidateSignUp(attrs);
    if checked.Err? {
      return Err(checked.error);
    }
    var row := CreateUser(checked.value, makePassword);
    r := Ok(row);
  }

  /** `LoginSerializer.create`: the user `authenticate` finds, or the one
      authentication error when it finds none. */
  function Login(username: string, password: string, authenticate: (string, string) -> Option<UserId>): (r: Result<UserId>)
    ensures r.Ok? <==> authenticate(username, password).Some?
    ensures r.Ok? ==> r.value == authenticate(username, password).value
    ensures r.Err? ==> r.error == AuthenticationFailed
  {
    match authenticate(username, password)
    case None => Err(AuthenticationFailed)
    case Some(u) => Ok(u)
  }

  /** Every login that `authenticate` refuses gives the same answer: an
      unknown user and a wrong password cannot be told apart. */
  lemma LoginFailuresAlike(u1: string, p1: string, u2: string, p2: string, authenticate: (string, string) -> Option<UserId>)
    requires authenticate(u1, p1).None? && authenticate(u2, p2).None?
    ensures Login(u1, p1, authenticate) == Login(u2, p2, authenticate) == Err(AuthenticationFailed)
  {
  }

  /** A login request: the username field must be present, the password field
      present and passing the strength check, and only then is `authenticate`
      asked. A password the strength check refuses is a validation error on
      `password`, whether or not it is the user's. */
  function LoginRequest(username: Option<string>, password: Option<string>, validatePassword: string -> Option<string>,
                        authenticate: (string, string) -> Option<UserId>): (r: Result<UserId>)
    ensures username.None? ==> r == Err(ValidationError("username", FIELD_REQUIRED))
    ensures (username.Some? && CheckPasswordField("password", password, false, validatePassword).Err?)
              ==> r == Err(CheckPasswordField("password", password, false, validatePassword).error)
    ensures r.Ok? <==> && username.Some? && password.Some? && validatePassword(password.value).None?
                       && authenticate(username.value, password.value).Some?
    ensures r.Ok? ==> r.value == authenticate(username.value, password.value).value
    ensures r == Err(AuthenticationFailed) <==> && username.Some? && password.Some? && validatePassword(password.value).None?
                                                && authenticate(username.value, password.value).None?
  {
    if username.None? then Err(ValidationError("username", FIELD_REQUIRED))
    else
      var checked := CheckPasswordField("password", password, false, validatePassword);
      if checked.Err? then Err(checked.error)
      else Login(username.value, password.value, authenticate)
  }

  /** A user row, its fields updated in place. `password` holds the stored credential. */
  class User {
    var username: string
    var firstName: string
    var lastName: string
    var email: string
    var password: string
  }

  /** `UpdatePasswordSerializer.validate_old_password`: the old password must
      check against the stored credential. */
  function ValidateOldPassword(u: User, oldPassword: string, checkPassword: (string, string) -> bool): (r: Result<string>)
    reads u
    ensures r.Ok? <==> checkPassword(oldPassword, u.password)
    ensures r.Ok? ==> r.value == oldPassword
    ensures r.Err? ==> r.error == ValidationError("old_password", OLD_PASSWORD_WRONG)
  {
    if checkPassword(oldPassword, u.password) then Ok(oldPassword)
    else Err(ValidationError("old_password", OLD_PASSWORD_WRONG))
  }

  /** The validation of a password-change request (a full one, or a partial
      one where absent fields and their checks are skipped), then the lookup
      of `new_password` in the validated data. The result is the new password. */
  function ValidatePasswordChange(u: User, oldPassword: Option<string>, newPassword: Option<string>, partial: bool,
                                  checkPassword: (string, string) -> bool,
                                  validatePassword: string -> Option<string>): (r: Result<string>)
    reads u
    ensures r.Ok? <==> && (oldPassword.None? ==> partial)
                       && (oldPassword.Some? ==> validatePassword(oldPassword.value).None?
                                                 && checkPassword(oldPassword.value, u.password))
                       && newPassword.Some? && validatePassword(newPassword.value).None?
    ensures r.Ok? ==> r.value == newPassword.value
    ensures (oldPassword.Some? && validatePassword(oldPassword.value).None? && !checkPassword(oldPassword.value, u.password))
              ==> r == Err(ValidationError("old_password", OLD_PASSWORD_WRONG))
    ensures (partial && newPassword.None?
             && (oldPassword.Some? ==> validatePassword(oldPassword.value).None? && checkPassword(oldPassword.value, u.password)))
              ==> r == Err(KeyMissing("new_password"))
  {
    var checkedOld := CheckPasswordField("old_password", oldPassword, partial, validatePassword);
    if checkedOld.Err? then Err(checkedOld.error)
    else if oldPassword.Some? && ValidateOldPassword(u, oldPassword.value, checkPassword).Err? then
      Err(ValidateOldPassword(u, oldPassword.value, checkPassword).error)
    else
      var checkedNew := CheckPasswordField("new_password", newPassword, partial, validatePassword);
      if checkedNew.Err? then Err(checkedNew.error)
      else if newPassword.None? then Err(KeyMissing("new_password"))
      else Ok(newPassword.value)
  }

  /** A partial request that leaves out the old password never has it checked:
      a strong new password is accepted whatever the stored credential is. */
  lemma PartialChangeSkipsOldPassword(u: User, newPassword: string, checkPassword: (string, string) -> bool,
                                      validatePassword: string -> Option<string>)
    requires validatePassword(newPassword).None?
    ensures ValidatePasswordChange(u, None, Some(newPassword), true, checkPassword, validatePassword) == Ok(newPassword)
  {
  }

  /** `UpdatePasswordSerializer.update`: store the hash of the new password;
      no other field of the row is written. */
  method UpdatePassword(u: User, newPassword: string, makePassword: string -> string)
    modifies u`password
    ensures u.password == makePassword(newPassword)
  {
    u.password := makePassword(newPassword);
  }

  /** The password-change request: validation, then the update. A rejected
      request leaves the row as it was. */
  method ChangePassword(u: User, oldPassword: Option<string>, newPassword: Option<string>, partial: bool,
                        checkPassword: (string, string) -> bool, validatePassword: string -> Option<string>,
                        makePassword: string -> string)
    returns (r: Result<string>)
    modifies u`password
    ensures r == old(ValidatePasswordChange(u, oldPassword, newPassword, partial, checkPassword, validatePassword))
    ensures r.Err? ==> u.password == old(u.password)
    ensures r.Ok? ==> u.password == makePassword(r.value)
  {
    r := ValidatePasswordChange(u, oldPassword, newPassword, partial, checkPassword, validatePassword);
    if r.Ok? {
      UpdatePassword(u, r.value, makePassword);
    }
  }
}
