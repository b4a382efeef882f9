/** The stand-alone sign-in page: its validator (an unanchored email pattern and the
    password length), the error clearing while typing, and the submit outcome. */
module LoginPage {
  import opened Wrappers
  import opened JsStrings
  import Patterns
  import Forms
  import AuthContext

  const EmailRequired := "Email là bắt buộc"
  const EmailInvalid := "Email không hợp lệ"
  const PasswordRequired := "Mật khẩu là bắt buộc"
  const PasswordShort := "Mật khẩu phải có ít nhất 6 ký tự"

  /** A blank email is "required"; otherwise some part of it must look like an address:
      the pattern `\S+@\S+\.\S+` is not anchored. The sign-up page uses the same rule. */
  function EmailError(email: string): Option<string> {
    if Blank(email) then Some(EmailRequired)
    else if !Patterns.LooseEmail(email) then Some(EmailInvalid)
    else None
  }

  /** An empty password is "required", a shorter one than 6 is refused. The sign-up page
      uses the same rule. */
  function PasswordError(p: string): Option<string> {
    if p == "" then Some(PasswordRequired)
    else if |p| < 6 then Some(PasswordShort)
    else None
  }

  /** `validate`'s error map. */
  function Validate(data: Forms.Fields): (errs: Forms.Fields)
    ensures "email" in errs <==> EmailError(Forms.Get(data, "email")).Some?
    ensures "password" in errs <==> PasswordError(Forms.Get(data, "password")).Some?
    ensures errs.Keys <= {"email", "password"}
  {
    var e := Forms.Put(map[], "email", EmailError(Forms.Get(data, "email")));
    Forms.Put(e, "password", PasswordError(Forms.Get(data, "password")))
  }

  const EmptyForm: Forms.Fields := map["email" := "", "password" := ""]

  class LoginPageState {
    var data: Forms.Fields
    var errors: Forms.Fields
    var loading: bool
    var submitError: string

    constructor ()
      ensures data == EmptyForm && errors == map[] && !loading && submitError == ""
    {
      data := EmptyForm;
      errors := map[];
      loading := false;
      submitError := "";
    }

    /** `handleChange`: the value is written, that field's error and any submit error
        cleared. */
    method Change(name: string, value: string)
      modifies this
      ensures data == Forms.Edit(old(data), name, value)
      ensures errors == Forms.ClearOnType(old(errors), name)
      ensures submitError == "" && loading == old(loading)
    {
      data := data[name := value];
      if name in errors && errors[name] != "" {
        errors := errors[name := ""];
      }
      if submitError != "" {
        submitError := "";
      }
    }

    /** `handleSubmit`: `result` is what `login` returns when it is called; `call` is
        the call made, if any, and `navigated` whether the page moves on. */
    method Submit(result: AuthContext.AuthResult) returns (call: Option<(string, string)>, navigated: bool)
      modifies this
      ensures data == old(data) && loading == (old(loading) && call.None?)
      ensures errors == Validate(old(data))
      ensures call.Some? <==> Validate(old(data)) == map[]
      ensures call.Some? ==> call.value == (Forms.Get(data, "email"), Forms.Get(data, "password"))
      ensures navigated <==> call.Some? && result.success
      ensures submitError == (if call.Some? && !result.success
                              then Forms.Or(result.message, AuthContext.LoginFailed) else "")
    {
      submitError := "";
      var d := data;
      errors := Validate(d);
      if errors != map[] {
        return None, false;
      }
      loading := true;
      call := Some((Forms.Get(d, "email"), Forms.Get(d, "password")));
      loading := false;
      if result.success {
        return call, true;
      }
      navigated := false;
      submitError := Forms.Or(result.message, AuthContext.LoginFailed);
    }
  }

  // ------------------------------------------------------------ lemmas

  /** The form is accepted exactly when both fields pass. */
  lemma ValidateIff(data: Forms.Fields)
    ensures Validate(data) == map[] <==>
      EmailError(Forms.Get(data, "email")).None? && PasswordError(Forms.Get(data, "password")).None?
  {
    if EmailError(Forms.Get(data, "email")).None? && PasswordError(Forms.Get(data, "password")).None? {
      assert Validate(data).Keys == {};
    }
  }

  /** Whatever the loose pattern finds is accepted: such a string is never blank. */
  lemma LooseAccepted(s: string)
    requires Patterns.LooseEmail(s)
    ensures EmailError(s) == None
  {
    var i, j :| 0 <= i < |s| && 0 <= j < |s| && Patterns.LooseAt(s, i, j);
    assert s[i] == '@';
    assert !Blank(s);
  }

  /** Unlike the combined sign-in page, this page accepts an address surrounded by other
      text: the pattern is looked for anywhere. */
  lemma AcceptsTextAround(s: string, a: string, b: string)
    requires Patterns.LooseEmail(s)
    ensures EmailError(a + s + b) == None
  {
    Patterns.LooseInContext(s, a, b);
    LooseAccepted(a + s + b);
  }

  /** Every address the strict pattern accepts is accepted here too. */
  lemma StrictAccepted(s: string)
    requires Patterns.StrictEmail(s)
    ensures EmailError(s) == None
  {
    Patterns.StrictIsSchema(s);
    Patterns.SchemaIsLoose(s);
    LooseAccepted(s);
  }
}
