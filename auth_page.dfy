/** The combined sign-in and sign-up page: its field validators, the duplicate-submit
    guard, and what each submit calls, shows and changes. The call into the session
    (`login`, `register`) is represented by the value it returns. */
module AuthPage {
  import opened Wrappers
  import opened JsStrings
  import Patterns
  import Forms
  import AuthContext
  import UserSchema

  const EmailEmpty := "Email không được để trống"
  const EmailInvalid := "Email không hợp lệ"
  const PasswordEmpty := "Mật khẩu không được để trống"
  const PasswordShort := "Mật khẩu phải có ít nhất 6 ký tự"
  const NameEmpty := "Họ tên không được để trống"
  const NameShort := "Họ tên phải có ít nhất 2 ký tự"
  const PhoneEmpty := "Số điện thoại không được để trống"
  const PhoneInvalid := "Số điện thoại phải có 10-11 chữ số"
  const CheckLogin := "Vui lòng kiểm tra lại thông tin đăng nhập"
  const CheckRegister := "Vui lòng kiểm tra lại thông tin đăng ký"
  const LoginOk := "Đăng nhập thành công!"
  const LoginWrong := "Email hoặc mật khẩu không đúng"
  const RegisterOk := "Đăng ký thành công!"
  const RegisterFailed := "Đăng ký thất bại"
  const Crashed := "Có lỗi xảy ra. Vui lòng thử lại."

  /** A toast the page shows. */
  datatype Toast = Success(text: string) | Error(text: string)

  /** What the awaited session call gave: its result, or an exception. */
  datatype CallOutcome = Returned(result: AuthContext.AuthResult) | Failed

  /** The arguments of a `register(name, email, phone, password)` call. */
  datatype RegisterCall = RegisterCall(name: string, email: string, phone: string, password: string)

  /** `validateEmail`, the anchored pattern with no `@` inside the three parts. */
  predicate ValidateEmail(s: string) {
    Patterns.StrictEmail(s)
  }

  /** A blank email (after trimming) is "empty"; otherwise the untrimmed value must pass
      `validateEmail`. */
  function EmailError(email: string): Option<string> {
    if Blank(email) then Some(EmailEmpty)
    else if !ValidateEmail(email) then Some(EmailInvalid)
    else None
  }

  function PasswordError(p: string): Option<string> {
    if p == "" then Some(PasswordEmpty)
    else if |p| < 6 then Some(PasswordShort)
    else None
  }

  function NameError(n: string): Option<string> {
    if Blank(n) then Some(NameEmpty)
    else if |Trim(n)| < 2 then Some(NameShort)
    else None
  }

  /** A blank phone is "empty"; otherwise the untrimmed value must be 10 or 11 digits. */
  function PhoneError(p: string): Option<string> {
    if Blank(p) then Some(PhoneEmpty)
    else if !Patterns.PhoneDigits(p) then Some(PhoneInvalid)
    else None
  }

  /** The error map built by the login submit. */
  function LoginErrors(data: Forms.Fields): (errs: Forms.Fields)
    ensures "email" in errs <==> EmailError(Forms.Get(data, "email")).Some?
    ensures "password" in errs <==> PasswordError(Forms.Get(data, "password")).Some?
    ensures errs.Keys <= {"email", "password"}
  {
    var e := Forms.Put(map[], "email", EmailError(Forms.Get(data, "email")));
    Forms.Put(e, "password", PasswordError(Forms.Get(data, "password")))
  }

  /** The error map built by the sign-up submit. */
  function RegisterErrors(data: Forms.Fields): (errs: Forms.Fields)
    ensures "name" in errs <==> NameError(Forms.Get(data, "name")).Some?
    ensures "email" in errs <==> EmailError(Forms.Get(data, "email")).Some?
    ensures "phone" in errs <==> PhoneError(Forms.Get(data, "phone")).Some?
    ensures "password" in errs <==> PasswordError(Forms.Get(data, "password")).Some?
    ensures errs.Keys <= {"name", "email", "phone", "password"}
  {
    FourErrors(NameError(Forms.Get(data, "name")), EmailError(Forms.Get(data, "email")),
               PhoneError(Forms.Get(data, "phone")), PasswordError(Forms.Get(data, "password")))
  }

  function FourErrors(name: Option<string>, email: Option<string>, phone: Option<string>,
                      password: Option<string>): (errs: Forms.Fields)
    ensures "name" in errs <==> name.Some?
    ensures "email" in errs <==> email.Some?
    ensures "phone" in errs <==> phone.Some?
    ensures "password" in errs <==> password.Some?
    ensures errs.Keys <= {"name", "email", "phone", "password"}
  {
    Forms.Put(Forms.Put(Forms.Put(Forms.Put(map[], "name", name), "email", email), "phone", phone),
              "password", password)
  }

  /** The arguments the sign-up submit passes to `register`, in the order it takes them. */
  function CallOf(data: Forms.Fields): RegisterCall {
    RegisterCall(Forms.Get(data, "name"), Forms.Get(data, "email"), Forms.Get(data, "phone"), Forms.Get(data, "password"))
  }

  const EmptyLogin: Forms.Fields := map["email" := "", "password" := ""]
  const EmptyRegister: Forms.Fields := map["name" := "", "email" := "", "phone" := "", "password" := ""]

  /** The part of the page the sign-up submit reads and writes. */
  datatype SignUp = SignUp(loading: bool, data: Forms.Fields, errors: Forms.Fields)

  /** `handleRegisterSubmit` as a step: nothing while a submit or the navigation is under
      way; the error map and a warning when a field fails; otherwise the `register` call,
      then the toast for what it gave, with the form emptied only on success. */
  function RegisterStep(navigating: bool, s: SignUp, outcome: CallOutcome)
    : (SignUp, Option<RegisterCall>, Option<Toast>)
  {
    if navigating || s.loading then (s, None, None)
    else
      var errors := RegisterErrors(s.data);
      if errors != map[] then (s.(errors := errors), None, Some(Error(CheckRegister)))
      else
        var answer := RegisterAnswer(s.data, outcome);
        (answer.0, Some(CallOf(s.data)), answer.1)
  }

  /** The page once `register` has given `outcome` for the accepted `data`. */
  function RegisterAnswer(data: Forms.Fields, outcome: CallOutcome): (SignUp, Option<Toast>) {
    match outcome
    case Returned(r) =>
      if r.success then (SignUp(false, EmptyRegister, EmptyRegister), Some(Success(Forms.Or(r.message, RegisterOk))))
      else (SignUp(false, data, EmptyRegister), Some(Error(Forms.Or(r.message, RegisterFailed))))
    case Failed => (SignUp(false, data, EmptyRegister), Some(Error(Crashed)))
  }

  class AuthPageState {
    var isSignUp: bool
    var isLoading: bool
    /** `isNavigatingRef.current`. */
    var navigating: bool
    var loginData: Forms.Fields
    var loginErrors: Forms.Fields
    var registerData: Forms.Fields
    var registerErrors: Forms.Fields

    constructor (pathname: string)
      ensures isSignUp == (pathname == "/register") && !isLoading && !navigating
      ensures loginData == EmptyLogin && loginErrors == EmptyLogin
      ensures registerData == EmptyRegister && registerErrors == EmptyRegister
    {
      isSignUp := pathname == "/register";
      isLoading := false;
      navigating := false;
      loginData := EmptyLogin;
      loginErrors := EmptyLogin;
      registerData := EmptyRegister;
      registerErrors := EmptyRegister;
    }

    /** `handleLoginChange`. */
    method LoginChange(name: string, value: string)
      modifies this
      ensures loginData == Forms.Edit(old(loginData), name, value)
      ensures loginErrors == Forms.ClearOnType(old(loginErrors), name)
      ensures registerData == old(registerData) && registerErrors == old(registerErrors)
      ensures isSignUp == old(isSignUp) && isLoading == old(isLoading) && navigating == old(navigating)
    {
      loginData := loginData[name := value];
      if name in loginErrors && loginErrors[name] != "" {
        loginErrors := loginErrors[name := ""];
      }
    }

    /** `handleRegisterChange`. */
    method RegisterChange(name: string, value: string)
      modifies this
      ensures registerData == Forms.Edit(old(registerData), name, value)
      ensures registerErrors == Forms.ClearOnType(old(registerErrors), name)
      ensures loginData == old(loginData) && loginErrors == old(loginErrors)
      ensures isSignUp == old(isSignUp) && isLoading == old(isLoading) && navigating == old(navigating)
    {
      registerData := registerData[name := value];
      if name in registerErrors && registerErrors[name] != "" {
        registerErrors := registerErrors[name := ""];
      }
    }

    /** `handleLoginSubmit`: `call` is the `login` call made, if any, and `outcome` what
        it gives. */
    method LoginSubmit(outcome: CallOutcome) returns (call: Option<(string, string)>, toast: Option<Toast>)
      modifies this
      ensures loginData == old(loginData) && registerData == old(registerData)
      ensures registerErrors == old(registerErrors) && isSignUp == old(isSignUp)
      ensures old(navigating) || old(isLoading) ==>
        call.None? && toast.None? && loginErrors == old(loginErrors)
        && isLoading == old(isLoading) && navigating == old(navigating)
      ensures !old(navigating) && !old(isLoading) && LoginErrors(old(loginData)) != map[] ==>
        call.None? && toast == Some(Error(CheckLogin)) && loginErrors == LoginErrors(old(loginData))
        && !isLoading && !navigating
      ensures !old(navigating) && !old(isLoading) && LoginErrors(old(loginData)) == map[] ==>
        && call == Some((Forms.Get(loginData, "email"), Forms.Get(loginData, "password")))
        && loginErrors == EmptyLogin
        && (outcome.Returned? && outcome.result.success ==>
              navigating && isLoading && toast == Some(Success(Forms.Or(outcome.result.message, LoginOk))))
        && (outcome.Returned? && !outcome.result.success ==>
              !navigating && !isLoading && toast == Some(Error(Forms.Or(outcome.result.message, LoginWrong))))
        && (outcome.Failed? ==> !navigating && !isLoading && toast == Some(Error(Crashed)))
    {
      if navigating || isLoading {
        return None, None;
      }
      var data := loginData;
      var errors := LoginErrors(data);
      if errors != map[] {
        loginErrors := errors;
        return None, Some(Error(CheckLogin));
      }
      isLoading := true;
      loginErrors := EmptyLogin;
      call := Some((Forms.Get(data, "email"), Forms.Get(data, "password")));
      match outcome
      case Returned(result) =>
        if result.success {
          navigating := true;
          toast := Some(Success(Forms.Or(result.message, LoginOk)));
        } else {
          isLoading := false;
          toast := Some(Error(Forms.Or(result.message, LoginWrong)));
        }
      case Failed =>
        isLoading := false;
        toast := Some(Error(Crashed));
    }

    /** `handleRegisterSubmit`, up to the delayed switch to the sign-in form. */
    method RegisterSubmit(outcome: CallOutcome) returns (call: Option<RegisterCall>, toast: Option<Toast>)
      modifies this
      ensures (SignUp(isLoading, registerData, registerErrors), call, toast)
        == RegisterStep(old(navigating), SignUp(old(isLoading), old(registerData), old(registerErrors)), outcome)
      ensures loginData == old(loginData) && loginErrors == old(loginErrors)
      ensures isSignUp == old(isSignUp) && navigating == old(navigating)
    {
      ghost var before := SignUp(isLoading, registerData, registerErrors);
      if navigating || isLoading {
        call, toast := None, None;
      } else {
        var data := registerData;
        var errors := RegisterErrors(data);
        if errors != map[] {
          registerErrors := errors;
          call, toast := None, Some(Error(CheckRegister));
        } else {
          assert RegisterStep(false, before, outcome)
            == (RegisterAnswer(data, outcome).0, Some(CallOf(data)), RegisterAnswer(data, outcome).1);
          call := Some(CallOf(data));
          toast := RegisterAnswered(data, outcome);
        }
      }
    }

    /** The accepted sign-up submit once `register` has given `outcome`. */
    method RegisterAnswered(data: Forms.Fields, outcome: CallOutcome) returns (toast: Option<Toast>)
      modifies this
      ensures (SignUp(isLoading, registerData, registerErrors), toast) == RegisterAnswer(data, outcome)
      ensures loginData == old(loginData) && loginErrors == old(loginErrors)
      ensures isSignUp == old(isSignUp) && navigating == old(navigating)
    {
      var kept := data;
      match outcome {
        case Returned(result) =>
          if result.success {
            toast := Some(Success(Forms.Or(result.message, RegisterOk)));
            kept := EmptyRegister;
          } else {
            toast := Some(Error(Forms.Or(result.message, RegisterFailed)));
          }
        case Failed =>
          toast := Some(Error(Crashed));
      }
      isLoading, registerData, registerErrors := false, kept, EmptyRegister;
    }
  }

  // ------------------------------------------------------------ lemmas

  /** Only a blank email gets the "empty" error, and a non-blank email is accepted
      exactly when it passes `validateEmail`. */
  lemma EmailRules(email: string)
    ensures EmailError(email) == Some(EmailEmpty) <==> Blank(email)
    ensures !Blank(email) ==> (EmailError(email).None? <==> ValidateEmail(email))
  {
  }

  /** The untrimmed value is checked: an address with surrounding white space is refused
      as invalid, though it is not blank. */
  lemma PaddedEmailRefused(s: string)
    requires Patterns.StrictEmail(s)
    ensures EmailError(" " + s) == Some(EmailInvalid)
  {
    var p := " " + s;
    assert IsSpace(p[0]);
    assert !Blank(p) by {
      var i :| 0 < i < |s| && s[i] == '@';
      assert p[i + 1] == '@' && !IsSpace(p[i + 1]);
    }
    Patterns.PaddedNotStrict(p);
  }

  /** A password is accepted exactly when it has at least 6 characters. */
  lemma PasswordRule(p: string)
    ensures PasswordError(p).None? <==> |p| >= 6
  {
  }

  /** A name is accepted exactly when its trimmed length is at least 2. */
  lemma NameRule(n: string)
    ensures NameError(n).None? <==> |Trim(n)| >= 2
  {
  }

  /** A phone is accepted exactly when it is 10 or 11 digits as typed; a digit string
      padded with a space is refused as invalid. */
  lemma PhoneRule(p: string)
    ensures PhoneError(p).None? <==> Patterns.PhoneDigits(p)
    ensures Patterns.PhoneDigits(p) ==> PhoneError(" " + p) == Some(PhoneInvalid)
  {
    if Patterns.PhoneDigits(p) {
      assert !IsSpace(p[0]);
      var q := " " + p;
      assert q[1] == p[0];
      assert !IsDigit(q[0]);
      assert !Blank(q);
    } else if Trim(p) != "" {
    } else {
      assert Blank(p);
      if |p| > 0 {
        assert !IsDigit(p[0]);
      }
    }
  }

  /** The login form is accepted exactly when both of its fields pass. */
  lemma LoginAcceptedIff(data: Forms.Fields)
    ensures LoginErrors(data) == map[] <==>
      EmailError(Forms.Get(data, "email")).None? && PasswordError(Forms.Get(data, "password")).None?
  {
    var errs := LoginErrors(data);
    if EmailError(Forms.Get(data, "email")).None? && PasswordError(Forms.Get(data, "password")).None? {
      assert errs.Keys == {};
    }
  }

  /** The sign-up form is accepted exactly when all four of its fields pass. */
  lemma RegisterAcceptedIff(data: Forms.Fields)
    ensures RegisterErrors(data) == map[] <==>
      && NameError(Forms.Get(data, "name")).None? && EmailError(Forms.Get(data, "email")).None?
      && PhoneError(Forms.Get(data, "phone")).None? && PasswordError(Forms.Get(data, "password")).None?
  {
    var errs := RegisterErrors(data);
    if NameError(Forms.Get(data, "name")).None? && EmailError(Forms.Get(data, "email")).None?
       && PhoneError(Forms.Get(data, "phone")).None? && PasswordError(Forms.Get(data, "password")).None? {
      assert errs.Keys == {};
    }
  }

  /** A sign-up submit calls `register`, with the typed values in its order, exactly when
      no submit or navigation is under way and all four fields pass; a refused one shows
      the field errors and keeps the form; the form is emptied only by a successful call,
      and a success toast comes only from one; after any call the page is no longer
      loading and the field errors are cleared. */
  lemma RegisterStepLaws(navigating: bool, s: SignUp, outcome: CallOutcome)
    ensures var (t, call, toast) := RegisterStep(navigating, s, outcome);
      && (call.Some? <==>
            !navigating && !s.loading
            && NameError(Forms.Get(s.data, "name")).None? && EmailError(Forms.Get(s.data, "email")).None?
            && PhoneError(Forms.Get(s.data, "phone")).None? && PasswordError(Forms.Get(s.data, "password")).None?)
      && (navigating || s.loading ==> t == s && toast.None?)
      && (!navigating && !s.loading && call.None? ==>
            t == s.(errors := RegisterErrors(s.data)) && toast == Some(Error(CheckRegister)))
      && (call.Some? ==>
            call.value == RegisterCall(Forms.Get(s.data, "name"), Forms.Get(s.data, "email"),
                                       Forms.Get(s.data, "phone"), Forms.Get(s.data, "password"))
            && !t.loading && t.errors == EmptyRegister && toast.Some?)
      && (t.data != s.data ==> call.Some? && outcome.Returned? && outcome.result.success && t.data == EmptyRegister)
      && (toast.Some? && toast.value.Success? <==> call.Some? && outcome.Returned? && outcome.result.success)
  {
    RegisterAcceptedIff(s.data);
  }

  /** The typed name is what `register` posts as `username`, and the user schema trims
      it and asks for 3 to 30 characters, which is stricter than the page's 2: a name the
      page accepts is kept by the schema exactly when it is 3 to 30 characters long once
      trimmed, so a two-character name passes the page and is refused by the schema. */
  lemma SignUpNameAsUsername(c: RegisterCall)
    requires NameError(c.name).None?
    ensures var body := AuthContext.RegisterRequest(Some(c.name), Some(c.email), Some(c.phone), Some(c.password));
      var stored := UserSchema.TrimSetter(body.username);
      && body.username == Some(c.name)
      && (UserSchema.UsernameError(stored).None? <==> |Trim(c.name)| <= 30 && |Trim(c.name)| >= 3)
      && (|Trim(c.name)| == 2 ==> UserSchema.UsernameError(stored) == Some("Username must be at least 3 characters"))
  {
    NameRule(c.name);
  }
}
