/** The admin user form: the role check boxes, the role column of the user list, the
    form prefilled for an edit, and what a submit checks and sends. */
module UserManagement {
  import opened Wrappers
  import opened JsStrings
  import ProductForm

  const FieldsRequired := "Vui lòng điền đầy đủ thông tin bắt buộc"
  const PasswordRequired := "Vui lòng nhập mật khẩu"

  datatype Role = Role(id: string, name: string)

  /** A user as listed; every field may be missing. */
  datatype ListedUser = ListedUser(
    id: string, username: Option<string>, name: Option<string>, email: Option<string>,
    phone: Option<string>, address: Option<string>, roles: Option<seq<Role>>)

  datatype FormData = FormData(
    username: string, name: string, email: string, password: string,
    phone: string, address: string, roleIds: seq<string>)

  const EmptyForm := FormData("", "", "", "", "", "", [])

  /** `x || ''`. */
  function OrEmpty(x: Option<string>): string {
    if x.Some? then x.value else ""
  }

  /** `ids.filter(x => x !== id)`. */
  function Without(ids: seq<string>, id: string): (r: seq<string>)
    ensures id !in r
    ensures forall x | x != id :: x in r <==> x in ids
    ensures id !in ids ==> r == ids
  {
    if ids == [] then []
    else (if ids[0] == id then [] else [ids[0]]) + Without(ids[1..], id)
  }

  /** `handleRoleChange(id)`: an id already ticked is removed, another is appended. */
  function ToggleRole(ids: seq<string>, id: string): (r: seq<string>)
    ensures id in r <==> id !in ids
    ensures forall x | x != id :: x in r <==> x in ids
  {
    if id in ids then Without(ids, id) else ids + [id]
  }

  /** `getRoleNames`: "User" when there are no roles, otherwise the names joined with
      `", "`. */
  function RoleNames(roles: Option<seq<Role>>): string {
    if roles.None? || |roles.value| == 0 then "User"
    else Join(Names(roles.value), ", ")
  }

  function Names(roles: seq<Role>): (r: seq<string>)
    ensures |r| == |roles|
    ensures forall i | 0 <= i < |roles| :: r[i] == roles[i].name
  {
    seq(|roles|, i requires 0 <= i < |roles| => roles[i].name)
  }

  function Ids(roles: seq<Role>): (r: seq<string>)
    ensures |r| == |roles|
    ensures forall i | 0 <= i < |roles| :: r[i] == roles[i].id
  {
    seq(|roles|, i requires 0 <= i < |roles| => roles[i].id)
  }

  /** `openEditModal(user)`'s form. */
  function Prefill(u: ListedUser): FormData {
    FormData(OrEmpty(u.username), OrEmpty(u.name), OrEmpty(u.email), "",
             OrEmpty(u.phone), OrEmpty(u.address),
             if u.roles.Some? then Ids(u.roles.value) else [])
  }

  /** The body of the create or update call; `password` is only sent when typed. */
  datatype UserData = UserData(
    username: string, name: string, email: string, phone: string, address: string,
    password: Option<string>)

  function DataOf(f: FormData): (d: UserData)
    ensures d.password.Some? <==> f.password != ""
    ensures d.password.Some? ==> d.password.value == f.password
  {
    UserData(f.username, f.name, f.email, f.phone, f.address,
             if f.password != "" then Some(f.password) else None)
  }

  datatype Request =
    | Update(id: string, data: UserData)
    | Create(data: UserData)
    | AssignRoles(userId: string, roleIds: seq<string>)

  /** The first failed check of a submit, if any. `editing` is the id of the user being
      edited. */
  function SubmitError(f: FormData, editing: Option<string>): Option<string> {
    if f.username == "" || f.name == "" || f.email == "" then Some(FieldsRequired)
    else if editing.None? && f.password == "" then Some(PasswordRequired)
    else None
  }

  /** The calls a submit makes when every call succeeds: the update or the create, then
      the role assignment when some role is ticked and, for a create, when the new user
      came back with an id. */
  function Calls(f: FormData, editing: Option<string>, newUserId: Option<string>): seq<Request> {
    if SubmitError(f, editing).Some? then []
    else if editing.Some? then
      [Update(editing.value, DataOf(f))]
      + (if |f.roleIds| > 0 then [AssignRoles(editing.value, f.roleIds)] else [])
    else
      [Create(DataOf(f))]
      + (if |f.roleIds| > 0 && newUserId.Some? && newUserId.value != ""
         then [AssignRoles(newUserId.value, f.roleIds)] else [])
  }

  /** The page's state: the form, the user being edited, and whether the modal is
      shown. */
  datatype View = View(form: FormData, editing: Option<string>, showModal: bool)

  /** `handleSubmit`: `done` calls succeed before one throws (any number at least the
      number of calls means none throws). The calls made are that many plus the one
      that throws; the modal closes only when none throws. */
  function Submit(v: View, newUserId: Option<string>, done: nat): (View, seq<Request>) {
    var all := Calls(v.form, v.editing, newUserId);
    if SubmitError(v.form, v.editing).Some? then (v, [])
    else if done >= |all| then (v.(showModal := false), all)
    else (v, all[..done + 1])
  }

  class UserManagementPage {
    var form: FormData
    var editing: Option<string>
    var showModal: bool

    function Current(): View
      reads this
    {
      View(form, editing, showModal)
    }

    constructor ()
      ensures Current() == View(EmptyForm, None, false)
    {
      form := EmptyForm;
      editing := None;
      showModal := false;
    }

    /** `openAddModal`. */
    method OpenAdd()
      modifies this
      ensures Current() == View(EmptyForm, None, true)
    {
      editing := None;
      form := EmptyForm;
      showModal := true;
    }

    /** `openEditModal(user)`. */
    method OpenEdit(u: ListedUser)
      modifies this
      ensures Current() == View(Prefill(u), Some(u.id), true)
    {
      editing := Some(u.id);
      form := Prefill(u);
      showModal := true;
    }

    method RoleChange(id: string)
      modifies this
      ensures Current() == old(Current()).(form := old(form).(roleIds := ToggleRole(old(form.roleIds), id)))
    {
      var ids := form.roleIds;
      if id in ids {
        ids := Without(ids, id);
      } else {
        ids := ids + [id];
      }
      form := form.(roleIds := ids);
    }

    method HandleSubmit(newUserId: Option<string>, done: nat) returns (calls: seq<Request>)
      modifies this
      ensures (Current(), calls) == Submit(old(Current()), newUserId, done)
    {
      var f := form;
      if f.username == "" || f.name == "" || f.email == "" {
        return [];
      }
      if editing.None? && f.password == "" {
        return [];
      }
      var all := Calls(f, editing, newUserId);
      if done >= |all| {
        showModal := false;
        calls := all;
      } else {
        calls := all[..done + 1];
      }
    }
  }

  // ------------------------------------------------------------ lemmas

  /** Ticking the same role twice gives back the same set of roles. */
  lemma ToggleTwice(ids: seq<string>, id: string)
    ensures forall x :: x in ToggleRole(ToggleRole(ids, id), id) <==> x in ids
  {
  }

  /** Ticking an id that was not ticked and unticking it again gives back the very same
      list, order included. */
  lemma ToggleNewTwice(ids: seq<string>, id: string)
    requires id !in ids
    ensures ToggleRole(ToggleRole(ids, id), id) == ids
  {
    WithoutAppended(ids, id);
  }

  lemma {:induction false} WithoutAppended(ids: seq<string>, id: string)
    requires id !in ids
    ensures Without(ids + [id], id) == ids
    decreases |ids|
  {
    if ids == [] {
      assert [id][1..] == [];
    } else {
      assert (ids + [id])[0] == ids[0] && (ids + [id])[1..] == ids[1..] + [id];
      WithoutAppended(ids[1..], id);
      assert [ids[0]] + ids[1..] == ids;
    }
  }

  /** The role column: "User" without roles, the single name for one role, and for
      several, names that hold no comma and no white space at an end can be read back
      by splitting on commas. */
  lemma RoleNamesLaws(roles: Option<seq<Role>>)
    ensures roles.None? || roles.value == [] ==> RoleNames(roles) == "User"
    ensures roles.Some? && |roles.value| == 1 ==> RoleNames(roles) == roles.value[0].name
    ensures roles.Some? && |roles.value| >= 1
            && (forall i | 0 <= i < |roles.value| :: ',' !in roles.value[i].name && Trim(roles.value[i].name) == roles.value[i].name)
            ==> ProductForm.SplitList(RoleNames(roles)) == Names(roles.value)
  {
    if roles.Some? && |roles.value| == 1 {
      assert Names(roles.value) == [roles.value[0].name];
    }
    if roles.Some? && |roles.value| >= 1
       && (forall i | 0 <= i < |roles.value| :: ',' !in roles.value[i].name && Trim(roles.value[i].name) == roles.value[i].name)
    {
      NamesRoundTrip(roles.value);
    }
  }

  lemma NamesRoundTrip(roles: seq<Role>)
    requires |roles| >= 1
    requires forall i | 0 <= i < |roles| :: ',' !in roles[i].name && Trim(roles[i].name) == roles[i].name
    ensures ProductForm.SplitList(Join(Names(roles), ", ")) == Names(roles)
  {
    var names := Names(roles);
    forall i | 0 <= i < |names|
      ensures ',' !in names[i] && Trim(names[i]) == names[i]
    {
      assert names[i] == roles[i].name;
    }
    ProductForm.SplitJoinRoundTrip(names);
  }

  /** A submit with an empty username, name or email is refused and makes no call. */
  lemma MissingFieldRefused(v: View, newUserId: Option<string>, done: nat)
    requires v.form.username == "" || v.form.name == "" || v.form.email == ""
    ensures Submit(v, newUserId, done) == (v, [])
    ensures SubmitError(v.form, v.editing) == Some(FieldsRequired)
  {
  }

  /** A new user needs a password, an edited one does not; the password is sent only
      when one was typed. */
  lemma PasswordRules(f: FormData, editing: Option<string>, newUserId: Option<string>)
    requires f.username != "" && f.name != "" && f.email != ""
    ensures SubmitError(f, editing).Some? <==> editing.None? && f.password == ""
    ensures SubmitError(f, editing).None? ==>
      var c := Calls(f, editing, newUserId)[0];
      (c.Update? || c.Create?) && (c.data.password.Some? <==> f.password != "")
  {
  }

  /** Roles are assigned only when some role is ticked (so unticking every role on an
      edit assigns nothing and keeps the old roles), by the edited user's id, or for a
      create by the id the new user came back with. */
  lemma RolesAssigned(f: FormData, editing: Option<string>, newUserId: Option<string>)
    requires SubmitError(f, editing).None?
    ensures var c := Calls(f, editing, newUserId);
      && (|c| == 2 <==> |f.roleIds| > 0 && (editing.Some? || (newUserId.Some? && newUserId.value != "")))
      && (|c| == 1 || |c| == 2)
      && (|c| == 2 ==> c[1] == AssignRoles(if editing.Some? then editing.value else newUserId.value, f.roleIds))
      && (c[0].Update? <==> editing.Some?)
  {
  }

  /** The edit form copies the user's role ids in order and leaves the password blank, so
      submitting it unchanged keeps the stored password. */
  lemma PrefillLaws(u: ListedUser, newUserId: Option<string>)
    ensures Prefill(u).password == ""
    ensures u.roles.Some? ==> Prefill(u).roleIds == Ids(u.roles.value)
    ensures u.roles.None? ==> Prefill(u).roleIds == []
    ensures var f := Prefill(u);
      SubmitError(f, Some(u.id)).None? ==>
        Calls(f, Some(u.id), newUserId)[0] == Update(u.id, DataOf(f)) && DataOf(f).password.None?
  {
  }

  /** The modal closes exactly when the submit passes its checks and no call throws. */
  lemma ModalClosesIff(v: View, newUserId: Option<string>, done: nat)
    requires v.showModal
    ensures var (w, calls) := Submit(v, newUserId, done);
      !w.showModal <==> SubmitError(v.form, v.editing).None? && done >= |Calls(v.form, v.editing, newUserId)|
    ensures Submit(v, newUserId, done).0.form == v.form
  {
  }
}
