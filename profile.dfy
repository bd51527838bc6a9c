/** The profile page: the current user's record, the edit data seeded from
    it, and the edit/save state machine around `User.updateMyUserData`. */
module Profile {
  import opened Wrappers
  import opened Users
  import opened ProfileEditor

  /** The edit data `loadCurrentUser` seeds: each editable field of the
      user, `''` when it is absent or empty. */
  function SeedEditData(u: User): (d: EditData)
    ensures d.Keys == {Username, Bio, PhoneNumber}
    ensures d[Username] == u.username.GetOr("")
    ensures d[Bio] == u.bio.GetOr("")
    ensures d[PhoneNumber] == u.phoneNumber.GetOr("")
  {
    map[Username := u.username.GetOr(""), Bio := u.bio.GetOr(""), PhoneNumber := u.phoneNumber.GetOr("")]
  }

  /** `{ ...currentUser, ...editData }`: the keys present in the edit data
      override the user's fields; every other field is kept. */
  function ApplyEdits(u: User, d: EditData): (r: User)
    ensures r.id == u.id && r.fullName == u.fullName && r.email == u.email
    ensures r.avatarUrl == u.avatarUrl && r.isOnline == u.isOnline
    ensures r.verificationType == u.verificationType
    ensures r.username == if Username in d then Some(d[Username]) else u.username
    ensures r.bio == if Bio in d then Some(d[Bio]) else u.bio
    ensures r.phoneNumber == if PhoneNumber in d then Some(d[PhoneNumber]) else u.phoneNumber
  {
    u.(username := if Username in d then Some(d[Username]) else u.username,
       bio := if Bio in d then Some(d[Bio]) else u.bio,
       phoneNumber := if PhoneNumber in d then Some(d[PhoneNumber]) else u.phoneNumber)
  }

  /** Saving complete edit data and loading the saved user again seeds the
      form with exactly what was saved. */
  lemma SaveThenReloadShowsEdits(u: User, d: EditData)
    requires d.Keys == {Username, Bio, PhoneNumber}
    ensures SeedEditData(ApplyEdits(u, d)) == d
  {
  }

  /** Saving the same edit data twice is saving it once. */
  lemma ApplyEditsIdempotent(u: User, d: EditData)
    ensures ApplyEdits(ApplyEdits(u, d), d) == ApplyEdits(u, d)
  {
  }

  /** Saving the seeded data unchanged keeps every present field and turns
      each absent editable field into `''`. */
  lemma SaveUnchangedNormalises(u: User)
    ensures var r := ApplyEdits(u, SeedEditData(u));
      && r.username == Some(u.username.GetOr(""))
      && r.bio == Some(u.bio.GetOr(""))
      && r.phoneNumber == Some(u.phoneNumber.GetOr(""))
      && (u.username.Some? && u.bio.Some? && u.phoneNumber.Some? ==> r == u)
  {
  }

  /** The page's state. */
  class ProfilePage {
    var currentUser: Option<User>
    var isEditing: bool
    var editData: EditData
    var isSaving: bool

    constructor ()
      ensures currentUser == None && !isEditing && editData == map[] && !isSaving
    {
      currentUser := None;
      isEditing := false;
      editData := map[];
      isSaving := false;
    }

    /** `loadCurrentUser`: `me` is what `User.me()` returned, `None` when
        it threw, which leaves the state as it was. */
    method LoadCurrentUser(me: Option<User>)
      modifies this`currentUser, this`editData
      ensures me.Some? ==> currentUser == me && editData == SeedEditData(me.value)
      ensures me.None? ==> currentUser == old(currentUser) && editData == old(editData)
    {
      if me.Some? {
        currentUser := me;
        editData := SeedEditData(me.value);
      }
    }

    /** The Edit Profile / Cancel button; cancelling keeps the edit data. */
    method ToggleEditing()
      modifies this`isEditing
      ensures isEditing == !old(isEditing)
    {
      isEditing := !isEditing;
    }

    /** The editor's `onChange`: one field replaced. */
    method ChangeField(field: Field, value: string)
      modifies this`editData
      ensures editData == HandleChange(old(editData), field, value)
    {
      editData := HandleChange(editData, field, value);
    }

    /** `saveProfile`. `updateOk` says whether `User.updateMyUserData`
        succeeded; `busy` is the editor's `disabled={isSaving}` while that
        call is awaited. Without a current user nothing happens.
        Otherwise the save flag is raised around the call and lowered on
        both paths; only a successful update merges the edit data into the
        user and leaves edit mode. */
    method SaveProfile(updateOk: bool) returns (ghost busy: bool)
      modifies this`currentUser, this`isEditing, this`isSaving
      ensures old(currentUser).None? ==>
        currentUser == old(currentUser) && isEditing == old(isEditing) && isSaving == old(isSaving)
      ensures old(currentUser).Some? ==> busy && !isSaving
      ensures old(currentUser).Some? && updateOk ==>
        currentUser == Some(ApplyEdits(old(currentUser).value, editData)) && !isEditing
      ensures old(currentUser).Some? && !updateOk ==>
        currentUser == old(currentUser) && isEditing == old(isEditing)
    {
      busy := isSaving;
      if currentUser.None? {
        return;
      }
      isSaving := true;
      busy := isSaving;
      if updateOk {
        currentUser := Some(ApplyEdits(currentUser.value, editData));
        isEditing := false;
      }
      isSaving := false;
    }
  }
}
