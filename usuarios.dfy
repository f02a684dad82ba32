/**
 * The local user list (`Usuarios`): a form that either edits the user being
 * edited or appends a new one, and deletion by id after a confirmation. The
 * list lives only in the component; `now` stands for `Date.now()`, the id of
 * a new user.
 */
module Usuarios {
  import opened Options
  import opened Seqs

  datatype User = User(id: int, name: string, email: string)
  datatype UserForm = UserForm(name: string, email: string)

  const EmptyUserForm := UserForm("", "")
  const InitialUsers := [User(1, "Santiago", "santiago@gmail.com")]

  function UserId(u: User): int {
    u.id
  }

  function UserIds(users: seq<User>): seq<int> {
    seq(|users|, i requires 0 <= i < |users| => users[i].id)
  }

  /** `users.map(user => user.id === id ? { ...user, ...formData } : user)`. */
  function Edited(users: seq<User>, id: int, form: UserForm): (r: seq<User>)
    ensures |r| == |users|
  {
    seq(|users|, i requires 0 <= i < |users| =>
      if users[i].id == id then users[i].(name := form.name, email := form.email) else users[i])
  }

  /** Editing keeps ids, count and order; only the users with the id take the form's fields. */
  lemma EditChangesOnlyThatUser(users: seq<User>, id: int, form: UserForm)
    ensures UserIds(Edited(users, id, form)) == UserIds(users)
    ensures forall i :: 0 <= i < |users| && users[i].id == id ==> Edited(users, id, form)[i] == User(id, form.name, form.email)
    ensures forall i :: 0 <= i < |users| && users[i].id != id ==> Edited(users, id, form)[i] == users[i]
  {
  }

  /** `users.filter(user => user.id !== id)`. */
  function Deleted(users: seq<User>, id: int): (r: seq<User>)
    ensures forall u :: u in r ==> u in users && u.id != id
    ensures forall u :: u in users && u.id != id ==> u in r
    ensures Subsequence(r, users)
    ensures forall u :: multiset(r)[u] == if u.id == id then 0 else multiset(users)[u]
  {
    FilterIsSubsequence(users, (u: User) => u.id != id);
    FilterCounts(users, (u: User) => u.id != id);
    Filter(users, (u: User) => u.id != id)
  }

  /** With distinct ids, deleting an id that is listed removes exactly one user. */
  lemma DeleteRemovesOne(users: seq<User>, id: int)
    requires UniqueKeys(users, UserId)
    ensures |Deleted(users, id)| == if exists u :: u in users && u.id == id then |users| - 1 else |users|
  {
    FilterOutUniqueKey(users, UserId, id, (u: User) => u.id != id);
  }

  /** Deleting an id nobody has keeps the list. */
  lemma DeleteUnknownIdKeepsAll(users: seq<User>, id: int)
    requires forall u :: u in users ==> u.id != id
    ensures Deleted(users, id) == users
  {
    FilterKeepsAll(users, (u: User) => u.id != id);
  }

  /** The form is valid when both fields are non-empty. */
  predicate Complete(form: UserForm) {
    form.name != "" && form.email != ""
  }

  /** The component's state. */
  class UsersView {
    var users: seq<User>
    var editingUser: Option<User>
    var formData: UserForm

    constructor ()
      ensures users == InitialUsers && editingUser.None? && formData == EmptyUserForm
    {
      users := InitialUsers;
      editingUser := None;
      formData := EmptyUserForm;
    }

    /** `handleInputChange` on either field. */
    method ChangeForm(form: UserForm)
      modifies this`formData
      ensures formData == form
    {
      formData := form;
    }

    /**
     * `handleFormSubmit`. An incomplete form changes nothing. In edit mode the
     * users with the edited id take the form's fields and edit mode ends;
     * otherwise a user with id `now` is appended. Then the form is emptied.
     */
    method HandleFormSubmit(now: int)
      modifies this
      ensures !Complete(old(formData)) ==>
        users == old(users) && editingUser == old(editingUser) && formData == old(formData)
      ensures Complete(old(formData)) && old(editingUser).Some? ==>
        && users == Edited(old(users), old(editingUser).value.id, old(formData))
        && editingUser.None? && formData == EmptyUserForm
      ensures Complete(old(formData)) && old(editingUser).None? ==>
        && users == old(users) + [User(now, old(formData).name, old(formData).email)]
        && editingUser.None? && formData == EmptyUserForm
    {
      if !Complete(formData) {
        return;
      }
      if editingUser.Some? {
        users := Edited(users, editingUser.value.id, formData);
        editingUser := None;
      } else {
        users := users + [User(now, formData.name, formData.email)];
      }
      formData := EmptyUserForm;
    }

    /** `handleEdit(user)`: edit mode on that user, its fields in the form. */
    method HandleEdit(user: User)
      modifies this`editingUser, this`formData
      ensures editingUser == Some(user) && formData == UserForm(user.name, user.email)
    {
      editingUser := Some(user);
      formData := UserForm(user.name, user.email);
    }

    /** `handleDelete(id)`; `confirmed` is the answer to the confirmation dialog. */
    method HandleDelete(id: int, confirmed: bool)
      modifies this`users
      ensures users == if confirmed then Deleted(old(users), id) else old(users)
    {
      if confirmed {
        users := Deleted(users, id);
      }
    }

    /** `cancelEdit`: leaves edit mode and empties the form. */
    method CancelEdit()
      modifies this`editingUser, this`formData
      ensures editingUser.None? && formData == EmptyUserForm
    {
      editingUser := None;
      formData := EmptyUserForm;
    }
  }
}
