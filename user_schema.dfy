/** The user schema of the back end: its setters (trim, lower-case), the role enum and
    its default, the `pre("validate")` hook that defaults `name` to `username`, the
    validators, and the `pre("save")` hook that hashes the password only when it was
    modified. Saving runs the hooks in that order: default the name, validate, hash. */
module UserSchema {
  import opened Wrappers
  import opened JsStrings
  import Patterns

  const Roles: seq<string> := ["user", "admin"]
  const DefaultRole := "user"

  datatype Address = Address(
    street: Option<string>, city: Option<string>, state: Option<string>,
    country: Option<string>, zip: Option<string>)

  /** The fields a new user document is built from; `None` is absent. */
  datatype UserInput = UserInput(
    username: Option<string>,
    name: Option<string>,
    email: Option<string>,
    password: Option<string>,
    phone: Option<string>,
    address: Address,
    role: Option<string>)

  /** A present, non-empty string: JavaScript truthiness of a string field. */
  predicate Truthy(s: Option<string>) {
    s.Some? && s.value != ""
  }

  // ------------------------------------------------------------ setters

  /** `trim: true`. */
  function TrimSetter(s: Option<string>): (r: Option<string>)
    ensures r.Some? <==> s.Some?
    ensures r.Some? ==> r.value == Trim(s.value)
  {
    if s.None? then None else Some(Trim(s.value))
  }

  /** `trim: true, lowercase: true`, in the order the schema declares them. */
  function EmailSetter(s: Option<string>): Option<string> {
    if s.None? then None else Some(ToLower(Trim(s.value)))
  }

  function AddressSetter(a: Address): Address {
    Address(TrimSetter(a.street), TrimSetter(a.city), TrimSetter(a.state),
            TrimSetter(a.country), TrimSetter(a.zip))
  }

  /** The `pre("validate")` hook: `if (!this.name && this.username) this.name = this.username`. */
  function DefaultedName(name: Option<string>, username: Option<string>): Option<string> {
    if !Truthy(name) && Truthy(username) then username else name
  }

  // ------------------------------------------------------------ validators

  /** The error of one path, if any, as the schema words it. A required string fails on
      an absent or empty value; the length bounds apply to any present value. */
  function UsernameError(u: Option<string>): Option<string> {
    if !Truthy(u) then Some("Username is required")
    else if |u.value| < 3 then Some("Username must be at least 3 characters")
    else if |u.value| > 30 then Some("Username must be at most 30 characters")
    else None
  }

  function NameError(n: Option<string>): Option<string> {
    if n.None? then None
    else if |n.value| < 2 then Some("Name must be at least 2 characters")
    else if |n.value| > 50 then Some("Name must be at most 50 characters")
    else None
  }

  function EmailError(e: Option<string>): Option<string> {
    if !Truthy(e) then Some("Email is required")
    else if !Patterns.SchemaEmail(e.value) then Some("Invalid email")
    else None
  }

  function PasswordError(p: Option<string>): Option<string> {
    if !Truthy(p) then Some("Password is required")
    else if |p.value| < 6 then Some("Password must be at least 6 characters")
    else None
  }

  function RoleError(r: Option<string>): Option<string> {
    if r.None? || r.value in Roles then None
    else Some("`" + r.value + "` is not a valid enum value for path `role`.")
  }

  /** The validation errors by path; empty when the document may be saved. */
  function ValidationErrors(username: Option<string>, name: Option<string>, email: Option<string>,
                            password: Option<string>, role: Option<string>): (errs: map<string, string>)
    ensures "username" in errs <==> UsernameError(username).Some?
    ensures "name" in errs <==> NameError(name).Some?
    ensures "email" in errs <==> EmailError(email).Some?
    ensures "password" in errs <==> PasswordError(password).Some?
    ensures "role" in errs <==> RoleError(role).Some?
    ensures errs.Keys <= {"username", "name", "email", "password", "role"}
  {
    Collect(UsernameError(username), NameError(name), EmailError(email), PasswordError(password),
            RoleError(role))
  }

  /** The map of the five paths' errors, each present exactly when there is one. */
  function Collect(username: Option<string>, name: Option<string>, email: Option<string>,
                   password: Option<string>, role: Option<string>): (errs: map<string, string>)
    ensures "username" in errs <==> username.Some?
    ensures "name" in errs <==> name.Some?
    ensures "email" in errs <==> email.Some?
    ensures "password" in errs <==> password.Some?
    ensures "role" in errs <==> role.Some?
    ensures errs.Keys <= {"username", "name", "email", "password", "role"}
  {
    var e0: map<string, string> := map[];
    var e1 := if username.Some? then e0["username" := username.value] else e0;
    var e2 := if name.Some? then e1["name" := name.value] else e1;
    var e3 := if email.Some? then e2["email" := email.value] else e2;
    var e4 := if password.Some? then e3["password" := password.value] else e3;
    if role.Some? then e4["role" := role.value] else e4
  }

  // ------------------------------------------------------------ the document

  /** The fields of a user document and `isModified("password")`. */
  datatype DocState = DocState(
    username: Option<string>,
    name: Option<string>,
    email: Option<string>,
    password: Option<string>,
    phone: Option<string>,
    address: Address,
    role: Option<string>,
    passwordModified: bool)

  /** `new User(input)`: the setters run on every given field, an absent role takes the
      default, and a given password counts as modified. */
  function Build(input: UserInput): (d: DocState)
    ensures d.role.Some? && (input.role.None? ==> d.role == Some(DefaultRole))
    ensures d.passwordModified <==> input.password.Some?
  {
    DocState(TrimSetter(input.username), TrimSetter(input.name), EmailSetter(input.email),
             input.password, TrimSetter(input.phone), AddressSetter(input.address),
             Some(input.role.GetOr(DefaultRole)), input.password.Some?)
  }

  /** The validation errors of a document whose `pre("validate")` hook has run. */
  function Errors(d: DocState): map<string, string> {
    ValidationErrors(d.username, d.name, d.email, d.password, d.role)
  }

  /** `save()`: the `pre("validate")` hook, the validators, and on success the
      `pre("save")` hook, which hashes the password only when it was modified; a
      successful save clears the modified flag. The result is the errors and the new
      document. */
  function SaveState(d: DocState, hash: string -> string): (map<string, string>, DocState) {
    var v := d.(name := DefaultedName(d.name, d.username));
    var errs := Errors(v);
    if errs != map[] then (errs, v)
    else if v.passwordModified then (errs, v.(password := Some(hash(v.password.value)), passwordModified := false))
    else (errs, v)
  }

  class UserDocument {
    var username: Option<string>
    var name: Option<string>
    var email: Option<string>
    var password: Option<string>
    var phone: Option<string>
    var address: Address
    var role: Option<string>
    var passwordModified: bool

    function State(): DocState
      reads this
    {
      DocState(username, name, email, password, phone, address, role, passwordModified)
    }

    constructor (input: UserInput)
      ensures State() == Build(input)
    {
      username := TrimSetter(input.username);
      name := TrimSetter(input.name);
      email := EmailSetter(input.email);
      password := input.password;
      phone := TrimSetter(input.phone);
      address := AddressSetter(input.address);
      role := Some(input.role.GetOr(DefaultRole));
      passwordModified := input.password.Some?;
    }

    /** `user.password = p`: the path becomes modified only when the value changes, and
        a path already modified stays so. */
    method SetPassword(p: string)
      modifies this
      ensures State() == old(State()).(password := Some(p),
                                       passwordModified := old(passwordModified) || old(password) != Some(p))
    {
      passwordModified := passwordModified || password != Some(p);
      password := Some(p);
    }

    /** `user.email = e`, through the setters. */
    method SetEmail(e: string)
      modifies this
      ensures State() == old(State()).(email := EmailSetter(Some(e)))
    {
      email := EmailSetter(Some(e));
    }

    /** The `pre("validate")` hook. */
    method PreValidate()
      modifies this
      ensures State() == old(State()).(name := DefaultedName(old(name), old(username)))
    {
      if !(name.Some? && name.value != "") && username.Some? && username.value != "" {
        name := username;
      }
    }

    /** `save()`; `hash` stands for the salted bcrypt hash. */
    method Save(hash: string -> string) returns (errors: map<string, string>)
      modifies this
      ensures (errors, State()) == SaveState(old(State()), hash)
    {
      PreValidate();
      errors := ValidationErrors(username, name, email, password, role);
      if errors != map[] {
        return;
      }
      if passwordModified {
        password := Some(hash(password.value));
        passwordModified := false;
      }
    }
  }

  // ------------------------------------------------------------ lemmas

  /** A name is taken from the username exactly when it is absent or empty and the
      username is not; a present name is kept. */
  lemma NameDefault(name: Option<string>, username: Option<string>)
    ensures Truthy(name) ==> DefaultedName(name, username) == name
    ensures !Truthy(name) && Truthy(username) ==> DefaultedName(name, username) == username
    ensures !Truthy(DefaultedName(name, username)) <==> !Truthy(name) && !Truthy(username)
  {
  }

  /** A username that passes its validators also passes as the defaulted name, since
      3..30 lies inside 2..50. */
  lemma DefaultedNameValid(name: Option<string>, username: Option<string>)
    requires !Truthy(name) && UsernameError(username).None?
    ensures NameError(DefaultedName(name, username)).None?
  {
  }

  /** The email setter is idempotent, and lower-casing before trimming would give the
      same value. */
  lemma EmailSetterLaws(s: string)
    ensures EmailSetter(EmailSetter(Some(s))) == EmailSetter(Some(s))
    ensures EmailSetter(Some(s)) == Some(Trim(ToLower(s)))
  {
    var t := Trim(s);
    TrimLowerCommute(s);
    TrimLowerCommute(ToLower(t));
    TrimIdempotent(ToLower(s));
    ToLowerIdempotent(t);
  }

  lemma {:induction false} ToLowerIdempotent(s: string)
    ensures ToLower(ToLower(s)) == ToLower(s)
  {
    if s != [] {
      ToLowerIdempotent(s[1..]);
      ToLowerAppend([s[0]], s[1..]);
      assert s == [s[0]] + s[1..];
      ToLowerAppend(ToLower([s[0]]), ToLower(s[1..]));
    }
  }

  /** Surrounding white space and capitals do not make a schema email invalid: the
      setters remove them before the validator runs, and the address is stored in lower
      case. */
  lemma PaddedEmailAccepted(s: string, a: string, b: string)
    requires Patterns.SchemaEmail(s) && Blank(a) && Blank(b)
    ensures EmailSetter(Some(a + s + b)) == Some(ToLower(s))
    ensures EmailError(EmailSetter(Some(a + s + b))) == None
  {
    var i, j :| 0 < i && i + 1 < j && j + 1 < |s| && s[i] == '@' && s[j] == '.';
    TrimPadding(a, s, b);
    LowerAccepted(s);
  }

  /** Lower-casing neither makes nor breaks a schema email: it moves no `@`, no `.` and
      no white space. */
  lemma LowerAccepted(s: string)
    ensures Patterns.SchemaEmail(ToLower(s)) <==> Patterns.SchemaEmail(s)
  {
    var e := ToLower(s);
    assert NoSpace(e) <==> NoSpace(s) by {
      forall k | 0 <= k < |s| ensures IsSpace(e[k]) == IsSpace(s[k]) { }
    }
    if Patterns.SchemaEmail(s) {
      var i, j :| 0 < i && i + 1 < j && j + 1 < |s| && s[i] == '@' && s[j] == '.';
      assert e[i] == '@' && e[j] == '.';
    }
    if Patterns.SchemaEmail(e) {
      var i, j :| 0 < i && i + 1 < j && j + 1 < |e| && e[i] == '@' && e[j] == '.';
      assert s[i] == '@' && s[j] == '.';
    }
  }

  /** A new document always passes the role validator: an absent role takes the
      default, which is one of the allowed roles. */
  lemma DefaultRoleValid(input: UserInput)
    requires input.role.None?
    ensures RoleError(Build(input).role).None?
    ensures "role" !in Errors(Build(input))
  {
  }

  /** A rejected save changes nothing but the name default: the password and its
      modified flag stay as they were. */
  lemma RejectedSaveKeepsPassword(d: DocState, hash: string -> string)
    requires SaveState(d, hash).0 != map[]
    ensures SaveState(d, hash).1 == d.(name := DefaultedName(d.name, d.username))
  {
  }

  /** A successful save hashes the password exactly when it was modified, and leaves it
      unmodified. */
  lemma SaveHashesIffModified(d: DocState, hash: string -> string)
    requires SaveState(d, hash).0 == map[]
    ensures d.password.Some?
    ensures d.passwordModified ==> SaveState(d, hash).1.password == Some(hash(d.password.value))
    ensures !d.passwordModified ==> SaveState(d, hash).1.password == d.password
    ensures !SaveState(d, hash).1.passwordModified
  {
  }

  /** Saving a saved document again succeeds and changes nothing: the hash is not
      hashed a second time. A bcrypt hash has 60 characters, so it passes the password
      validator. */
  lemma SaveIdempotent(d: DocState, hash: string -> string)
    requires forall p :: |hash(p)| == 60
    requires SaveState(d, hash).0 == map[]
    ensures SaveState(SaveState(d, hash).1, hash) == (map[], SaveState(d, hash).1)
  {
    var d1 := SaveState(d, hash).1;
    assert DefaultedName(d1.name, d1.username) == d1.name;
    assert PasswordError(d1.password).None? by {
      if d.passwordModified {
        assert |hash(d.password.value)| == 60;
      }
    }
    assert Errors(d1) == map[];
  }
}
