/** The stand-alone sign-up page: its validator, error clearing, and the call it makes
    into the session. The page has no phone field, and it calls the four-parameter
    `register(name, email, phone, password)` with three arguments. */
module RegisterPage {
  import opened Wrappers
  import opened JsStrings
  import Forms
  import LoginPage
  import AuthContext
  import UserSchema

  const UsernameRequired := "Tên đăng nhập là bắt buộc"
  const UsernameShort := "Tên đăng nhập phải có ít nhất 3 ký tự"
  const UsernameLong := "Tên đăng nhập không được vượt quá 30 ký tự"
  const ConfirmRequired := "Vui lòng xác nhận mật khẩu"
  const ConfirmMismatch := "Mật khẩu xác nhận không khớp"

  /** A blank username is "required"; otherwise its untrimmed length must lie in 3..30. */
  function UsernameError(u: string): Option<string> {
    if Blank(u) then Some(UsernameRequired)
    else if |u| < 3 then Some(UsernameShort)
    else if |u| > 30 then Some(UsernameLong)
    else None
  }

  function ConfirmError(password: string, confirm: string): Option<string> {
    if confirm == "" then Some(ConfirmRequired)
    else if password != confirm then Some(ConfirmMismatch)
    else None
  }

  /** `validate`'s error map. */
  function Validate(data: Forms.Fields): (errs: Forms.Fields)
    ensures "username" in errs <==> UsernameError(Forms.Get(data, "username")).Some?
    ensures "email" in errs <==> LoginPage.EmailError(Forms.Get(data, "email")).Some?
    ensures "password" in errs <==> LoginPage.PasswordError(Forms.Get(data, "password")).Some?
    ensures "confirmPassword" in errs <==>
      ConfirmError(Forms.Get(data, "password"), Forms.Get(data, "confirmPassword")).Some?
  {
    var u := UsernameError(Forms.Get(data, "username"));
    var e := LoginPage.EmailError(Forms.Get(data, "email"));
    var p := LoginPage.PasswordError(Forms.Get(data, "password"));
    var c := ConfirmError(Forms.Get(data, "password"), Forms.Get(data, "confirmPassword"));
    Forms.Put(Forms.Put(Forms.Put(Forms.Put(map[], "username", u), "email", e), "password", p),
              "confirmPassword", c)
  }

  /** The body `register` posts when the page calls it as written,
      `register(username, email, password)`: the password lands in the `phone`
      parameter and the `password` parameter is left undefined. */
  function RegisterBodyAsWritten(data: Forms.Fields): AuthContext.RegisterBody {
    AuthContext.RegisterRequest(Some(Forms.Get(data, "username")), Some(Forms.Get(data, "email")),
                                Some(Forms.Get(data, "password")), None)
  }

  /** The body of the evidently intended call, `register(username, email, undefined,
      password)`: the page has no phone to send. */
  function RegisterBody(data: Forms.Fields): AuthContext.RegisterBody {
    AuthContext.RegisterRequest(Some(Forms.Get(data, "username")), Some(Forms.Get(data, "email")),
                                None, Some(Forms.Get(data, "password")))
  }

  const EmptyForm: Forms.Fields :=
    map["username" := "", "email" := "", "password" := "", "confirmPassword" := ""]

  class RegisterPageState {
    var data: Forms.Fields
    var errors: Forms.Fields
    var loading: bool

    constructor ()
      ensures data == EmptyForm && errors == map[] && !loading
    {
      data := EmptyForm;
      errors := map[];
      loading := false;
    }

    /** `handleChange`. */
    method Change(name: string, value: string)
      modifies this
      ensures data == Forms.Edit(old(data), name, value)
      ensures errors == Forms.ClearOnType(old(errors), name)
      ensures loading == old(loading)
    {
      data := data[name := value];
      if name in errors && errors[name] != "" {
        errors := errors[name := ""];
      }
    }

    /** `handleSubmit` as written: `posted` is the body sent, if any, and `navigated`
        whether the page moves on. The call passes the password in the phone's place. */
    method Submit(result: AuthContext.AuthResult) returns (posted: Option<AuthContext.RegisterBody>, navigated: bool)
      modifies this
      ensures data == old(data) && loading == (old(loading) && posted.None?)
      ensures errors == Validate(old(data))
      ensures posted.Some? <==> Validate(old(data)) == map[]
      ensures posted.Some? ==> posted.value == RegisterBodyAsWritten(old(data))
      ensures navigated <==> posted.Some? && result.success
    {
      var d := data;
      errors := Validate(d);
      if errors != map[] {
        return None, false;
      }
      loading := true;
      posted := Some(RegisterBodyAsWritten(d));
      loading := false;
      navigated := result.success;
    }

    /** `handleSubmit` with the evidently intended call, which posts the password as the
        password and no phone; otherwise the same as `Submit`. */
    method SubmitIntended(result: AuthContext.AuthResult) returns (posted: Option<AuthContext.RegisterBody>, navigated: bool)
      modifies this
      ensures data == old(data) && loading == (old(loading) && posted.None?)
      ensures errors == Validate(old(data))
      ensures posted.Some? <==> Validate(old(data)) == map[]
      ensures posted.Some? ==> posted.value == RegisterBody(old(data))
      ensures navigated <==> posted.Some? && result.success
    {
      var d := data;
      errors := Validate(d);
      if errors != map[] {
        return None, false;
      }
      loading := true;
      posted := Some(RegisterBody(d));
      loading := false;
      navigated := result.success;
    }
  }

  // ------------------------------------------------------------ lemmas

  /** The form is accepted exactly when all four fields pass. */
  lemma ValidateIff(data: Forms.Fields)
    ensures Validate(data) == map[] <==>
      && UsernameError(Forms.Get(data, "username")).None?
      && LoginPage.EmailError(Forms.Get(data, "email")).None?
      && LoginPage.PasswordError(Forms.Get(data, "password")).None?
      && ConfirmError(Forms.Get(data, "password"), Forms.Get(data, "confirmPassword")).None?
  {
    var errs := Validate(data);
    if && UsernameError(Forms.Get(data, "username")).None?
       && LoginPage.EmailError(Forms.Get(data, "email")).None?
       && LoginPage.PasswordError(Forms.Get(data, "password")).None?
       && ConfirmError(Forms.Get(data, "password"), Forms.Get(data, "confirmPassword")).None?
    {
      assert errs.Keys <= {"username", "email", "password", "confirmPassword"};
      assert errs.Keys == {};
    }
  }

  /** An accepted form has a confirmed password of at least 6 characters. */
  lemma AcceptedPassword(data: Forms.Fields)
    requires Validate(data) == map[]
    ensures |Forms.Get(data, "password")| >= 6
    ensures Forms.Get(data, "confirmPassword") == Forms.Get(data, "password")
  {
    ValidateIff(data);
  }

  /** As written, the call posts no password at all, whatever the form holds, and the
      typed password is sent as the phone; the back end's user schema then refuses the
      record for its missing password. */
  lemma AsWrittenLosesPassword(data: Forms.Fields)
    ensures RegisterBodyAsWritten(data).password == None
    ensures RegisterBodyAsWritten(data).phone == Some(Forms.Get(data, "password"))
    ensures UserSchema.PasswordError(RegisterBodyAsWritten(data).password) == Some("Password is required")
  {
  }

  /** With the intended call, an accepted form posts its own password, which then passes
      the user schema's password validator, and sends no phone. */
  lemma IntendedPostsPassword(data: Forms.Fields)
    requires Validate(data) == map[]
    ensures RegisterBody(data).password == Some(Forms.Get(data, "password"))
    ensures RegisterBody(data).phone == None
    ensures RegisterBody(data).username == Some(Forms.Get(data, "username"))
    ensures UserSchema.PasswordError(RegisterBody(data).password).None?
  {
    AcceptedPassword(data);
  }
}
