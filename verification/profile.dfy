/**
 * The profile page: an edit form for name, email and phone, filled from the
 * signed-in rider when the page mounts, and a save that merges it into the
 * user record.
 */
module Profile {

  import opened Options
  import opened AppContext

  datatype EditForm = EditForm(name: string, email: string, phone: string)

  /** The form a mounting page starts from: the rider's fields, or empty strings without a rider. */
  function FormFor(u: Option<User>): EditForm {
    if u.Some? then EditForm(u.value.name, u.value.email, u.value.phone) else EditForm("", "", "")
  }

  /** The spread `{ ...user, ...editForm }`: the form's three fields over the user record. */
  function Merge(u: User, f: EditForm): User {
    u.(name := f.name, email := f.email, phone := f.phone)
  }

  /**
   * A save takes name, email and phone from the form and keeps the id,
   * gender and SOS code; saving a form that still holds the rider's own
   * details changes nothing.
   */
  lemma MergeKeepsIdentity(u: User, f: EditForm)
    ensures var m := Merge(u, f);
      && m.name == f.name && m.email == f.email && m.phone == f.phone
      && m.id == u.id && m.gender == u.gender && m.sosCode == u.sosCode
    ensures Merge(u, FormFor(Some(u))) == u
    ensures FormFor(Some(Merge(u, f))) == f
  {
  }

  class ProfilePage {
    const store: Store
    var isEditing: bool
    var editForm: EditForm

    ghost predicate Valid()
      reads this, store
    {
      store.Valid()
    }

    constructor (store: Store)
      requires store.Valid()
      ensures Valid() && this.store == store
      ensures !isEditing && editForm == FormFor(store.state.user)
    {
      this.store := store;
      isEditing := false;
      editForm := FormFor(store.state.user);
    }

    /** Edit Profile. */
    method StartEditing()
      modifies this`isEditing
      ensures isEditing
    {
      isEditing := true;
    }

    /** Cancel leaves edit mode; the form keeps whatever was typed. */
    method Cancel()
      modifies this`isEditing
      ensures !isEditing
    {
      isEditing := false;
    }

    method EditName(text: string)
      modifies this`editForm
      ensures editForm == old(editForm).(name := text)
      ensures editForm.email == old(editForm).email && editForm.phone == old(editForm).phone
    {
      editForm := editForm.(name := text);
    }

    method EditEmail(text: string)
      modifies this`editForm
      ensures editForm == old(editForm).(email := text)
      ensures editForm.name == old(editForm).name && editForm.phone == old(editForm).phone
    {
      editForm := editForm.(email := text);
    }

    method EditPhone(text: string)
      modifies this`editForm
      ensures editForm == old(editForm).(phone := text)
      ensures editForm.name == old(editForm).name && editForm.email == old(editForm).email
    {
      editForm := editForm.(phone := text);
    }

    /** Save: with a rider, SET_USER with the merged record and edit mode ends; without one, nothing. */
    method Save()
      requires Valid()
      modifies store, this`isEditing
      ensures Valid()
      ensures old(store.state.user).Some? ==>
        && store.log == old(store.log) + [SetUser(Merge(old(store.state.user).value, editForm))]
        && store.state.user == Some(Merge(old(store.state.user).value, editForm))
        && !isEditing
      ensures old(store.state.user).None? ==>
        store.log == old(store.log) && store.state == old(store.state) && isEditing == old(isEditing)
    {
      if store.state.user.Some? {
        store.Dispatch(SetUser(Merge(store.state.user.value, editForm)));
        isEditing := false;
      }
    }
  }
}
