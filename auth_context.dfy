/** The client session: the signed-in user, `isAuthenticated` and `loading`, kept in step
    with the `token` and `user` keys of the browser's local storage. The network answer
    of a login or registration and JSON (de)serialisation are parameters. */
module AuthContext {
  import opened Wrappers

  /** The user record the back end returns and the session keeps. */
  datatype UserData = UserData(id: string, username: string, email: string, role: string)

  /** The part of the answer of `/users/login` or `/users/register` the session reads. */
  datatype Session = Session(token: string, user: UserData)

  /** An answer (`success`, `message`, `data`), or a thrown request error, which may carry
      the server's `message`. */
  datatype ApiOutcome =
    | Answered(success: bool, message: Option<string>, data: Option<Session>)
    | Threw(serverMessage: Option<string>)

  /** What `login` and `register` return to the page. */
  datatype AuthResult = AuthResult(success: bool, message: Option<string>)

  /** The body `register` posts. */
  datatype RegisterBody = RegisterBody(
    username: Option<string>, email: Option<string>, phone: Option<string>, password: Option<string>)

  /** The provider's state and the local storage it manages. */
  datatype State = State(
    user: Option<UserData>, loading: bool, isAuthenticated: bool, storage: map<string, string>)

  const LoginFailed := "Đăng nhập thất bại"
  const RegisterFailed := "Đăng ký thất bại"
  const OutsideProvider := "useAuth must be used within AuthProvider"

  /** `localStorage.getItem(key)` is truthy: present and not empty. */
  predicate Stored(storage: map<string, string>, key: string) {
    key in storage && storage[key] != ""
  }

  function Falsy(s: Option<string>): bool {
    s.None? || s.value == ""
  }

  /** The state on mount: no user, loading, not authenticated. */
  function Fresh(storage: map<string, string>): State {
    State(None, true, false, storage)
  }

  /** `initAuth`: with both keys set, parse the saved user; a parse failure removes both
      keys and clears the session. Loading ends on every branch. */
  function InitState(s: State, parse: string -> Option<UserData>): State {
    if Stored(s.storage, "token") && Stored(s.storage, "user") then
      match parse(s.storage["user"])
      case Some(u) => s.(user := Some(u), isAuthenticated := true, loading := false)
      case None => State(None, false, false, s.storage - {"token", "user"})
    else s.(loading := false)
  }

  /** The answer counts as a success: `response.success` is truthy and `response.data`
      can be destructured. An answer with `success` but no `data` throws inside the
      `try` and is caught. */
  predicate Succeeds(r: ApiOutcome) {
    r.Answered? && r.success && r.data.Some?
  }

  /** The state after a login or registration answer: on success both keys are written
      and the user is signed in; otherwise nothing changes. */
  function AfterAnswer(s: State, r: ApiOutcome, stringify: UserData -> string): State {
    if Succeeds(r) then
      var d := r.data.value;
      s.(storage := s.storage["token" := d.token]["user" := stringify(d.user)],
         user := Some(d.user), isAuthenticated := true)
    else s
  }

  /** The value returned to the page: the server's message on success; on failure the
      server's message or, when that is falsy, `fallback`. */
  function ResultOf(r: ApiOutcome, fallback: string): AuthResult {
    if Succeeds(r) then AuthResult(true, r.message)
    else
      var m := if r.Answered? && r.success then None
               else if r.Answered? then r.message else r.serverMessage;
      AuthResult(false, Some(if Falsy(m) then fallback else m.value))
  }

  /** `register(name, email, phone, password)` posts `name` as the username. */
  function RegisterRequest(name: Option<string>, email: Option<string>, phone: Option<string>,
                           password: Option<string>): RegisterBody {
    RegisterBody(name, email, phone, password)
  }

  /** `logout`: both keys removed, the session cleared. */
  function LogoutState(s: State): State {
    s.(storage := s.storage - {"token", "user"}, user := None, isAuthenticated := false)
  }

  /** `useAuth()`: the context value, or the error it throws outside the provider. */
  datatype Lookup = Found(state: State) | Thrown(error: string)

  function UseAuth(context: Option<State>): (r: Lookup)
    ensures r.Thrown? <==> context.None?
    ensures r.Thrown? ==> r.error == OutsideProvider
    ensures r.Found? ==> r.state == context.value
  {
    if context.None? then Thrown(OutsideProvider) else Found(context.value)
  }

  class AuthProvider {
    var user: Option<UserData>
    var loading: bool
    var isAuthenticated: bool
    var storage: map<string, string>

    function Current(): State
      reads this
    {
      State(user, loading, isAuthenticated, storage)
    }

    constructor (saved: map<string, string>)
      ensures Current() == Fresh(saved)
    {
      user := None;
      loading := true;
      isAuthenticated := false;
      storage := saved;
    }

    method InitAuth(parse: string -> Option<UserData>)
      modifies this
      ensures Current() == InitState(old(Current()), parse)
    {
      var token := if "token" in storage then storage["token"] else "";
      var saved := if "user" in storage then storage["user"] else "";
      if token != "" && saved != "" {
        var parsed := parse(saved);
        if parsed.Some? {
          user := parsed;
          isAuthenticated := true;
        } else {
          storage := storage - {"token"};
          storage := storage - {"user"};
          user := None;
          isAuthenticated := false;
        }
      }
      loading := false;
    }

    /** The shared body of `login` and `register` once the request has been answered. */
    method Answer(r: ApiOutcome, fallback: string, stringify: UserData -> string) returns (result: AuthResult)
      modifies this
      ensures Current() == AfterAnswer(old(Current()), r, stringify)
      ensures result == ResultOf(r, fallback)
    {
      if r.Threw? {
        var m := r.serverMessage;
        return AuthResult(false, Some(if m.None? || m.value == "" then fallback else m.value));
      }
      if !r.success {
        var m := r.message;
        return AuthResult(false, Some(if m.None? || m.value == "" then fallback else m.value));
      }
      if r.data.None? {
        return AuthResult(false, Some(fallback));
      }
      var d := r.data.value;
      storage := storage["token" := d.token];
      storage := storage["user" := stringify(d.user)];
      user := Some(d.user);
      isAuthenticated := true;
      result := AuthResult(true, r.message);
    }

    /** `login(email, password)`, with `answer` the reply to the posted credentials. */
    method Login(email: string, password: string, answer: ApiOutcome, stringify: UserData -> string)
      returns (result: AuthResult)
      modifies this
      ensures Current() == AfterAnswer(old(Current()), answer, stringify)
      ensures result == ResultOf(answer, LoginFailed)
    {
      result := Answer(answer, LoginFailed, stringify);
    }

    /** `register(name, email, phone, password)`: `body` is what is posted, `answer` the
        reply to it. */
    method Register(name: Option<string>, email: Option<string>, phone: Option<string>,
                    password: Option<string>, answer: ApiOutcome, stringify: UserData -> string)
      returns (body: RegisterBody, result: AuthResult)
      modifies this
      ensures body == RegisterRequest(name, email, phone, password)
      ensures Current() == AfterAnswer(old(Current()), answer, stringify)
      ensures result == ResultOf(answer, RegisterFailed)
    {
      body := RegisterBody(name, email, phone, password);
      result := Answer(answer, RegisterFailed, stringify);
    }

    method Logout()
      modifies this
      ensures Current() == LogoutState(old(Current()))
    {
      storage := storage - {"token"};
      storage := storage - {"user"};
      user := None;
      isAuthenticated := false;
    }
  }

  // ------------------------------------------------------------ lemmas

  /** On mount, the session is authenticated exactly when both keys are set and the
      saved user parses, and then it holds that user; loading ends on every branch. */
  lemma InitAuthenticatesIff(saved: map<string, string>, parse: string -> Option<UserData>)
    ensures var s := InitState(Fresh(saved), parse);
      && !s.loading
      && (s.isAuthenticated <==> Stored(saved, "token") && Stored(saved, "user") && parse(saved["user"]).Some?)
      && (s.isAuthenticated ==> s.user == parse(saved["user"]) && s.storage == saved)
      && (!s.isAuthenticated ==> s.user.None?)
  {
  }

  /** A saved user that does not parse removes both keys and leaves the session signed
      out; the other keys stay. */
  lemma InitDropsUnparseable(saved: map<string, string>, parse: string -> Option<UserData>)
    requires Stored(saved, "token") && Stored(saved, "user") && parse(saved["user"]).None?
    ensures var s := InitState(Fresh(saved), parse);
      && !s.isAuthenticated && s.user.None?
      && "token" !in s.storage && "user" !in s.storage
      && forall k | k in saved && k != "token" && k != "user" :: k in s.storage && s.storage[k] == saved[k]
  {
  }

  /** A successful answer stores the token and the serialised user and signs the user
      in; the page gets `success: true` and the server's message. */
  lemma SuccessSignsIn(s: State, r: ApiOutcome, fallback: string, stringify: UserData -> string)
    requires Succeeds(r)
    ensures var t := AfterAnswer(s, r, stringify);
      && t.storage["token"] == r.data.value.token
      && t.storage["user"] == stringify(r.data.value.user)
      && t.isAuthenticated && t.user == Some(r.data.value.user)
      && t.loading == s.loading
    ensures ResultOf(r, fallback) == AuthResult(true, r.message)
  {
  }

  /** A failed or thrown request changes neither storage nor state, and the page gets
      `success: false` with a non-empty message: the server's when it gave one,
      otherwise the fallback. */
  lemma FailureChangesNothing(s: State, r: ApiOutcome, fallback: string, stringify: UserData -> string)
    requires !Succeeds(r) && fallback != ""
    ensures AfterAnswer(s, r, stringify) == s
    ensures var res := ResultOf(r, fallback);
      && !res.success && res.message.Some? && res.message.value != ""
      && (r.Threw? && !Falsy(r.serverMessage) ==> res.message == r.serverMessage)
      && (r.Answered? && !r.success && !Falsy(r.message) ==> res.message == r.message)
      && (r.Threw? && Falsy(r.serverMessage) ==> res.message == Some(fallback))
  {
  }

  /** Signing out removes both keys and clears the session from any state, and doing it
      twice is the same as once. */
  lemma LogoutLaws(s: State)
    ensures var t := LogoutState(s);
      && "token" !in t.storage && "user" !in t.storage
      && t.user.None? && !t.isAuthenticated && t.loading == s.loading
      && LogoutState(t) == t
  {
  }

  /** After signing out, a reload starts signed out. */
  lemma LogoutThenReload(s: State, parse: string -> Option<UserData>)
    ensures !InitState(Fresh(LogoutState(s).storage), parse).isAuthenticated
  {
  }

  /** A session that signed in survives a reload: when parsing undoes serialising and
      both stored values are non-empty, mounting on the stored keys restores the same
      user. */
  lemma SignInSurvivesReload(s: State, r: ApiOutcome, stringify: UserData -> string,
                             parse: string -> Option<UserData>)
    requires forall u :: parse(stringify(u)) == Some(u)
    requires forall u :: stringify(u) != ""
    requires Succeeds(r) && r.data.value.token != ""
    ensures var t := InitState(Fresh(AfterAnswer(s, r, stringify).storage), parse);
      t.isAuthenticated && t.user == Some(r.data.value.user) && !t.loading
  {
    var st := AfterAnswer(s, r, stringify).storage;
    assert st["user"] == stringify(r.data.value.user);
    assert parse(st["user"]) == Some(r.data.value.user);
  }
}
