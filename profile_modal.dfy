/**
 * src/app/components/ProfileModal.tsx: the profile editor. Its submit
 * handler checks the password fields in a fixed order, builds the update
 * payload and reports the reply; its avatar loader accepts three response
 * shapes and splits the avatars into the built-in ones and the user's own.
 */
module ProfileModal {
  import opened Common
  import opened JsString
  import opened Web
  import opened Seqs
  import Auth

  // ---------------------------------------------------------------- form

  /** The editor's text fields. */
  datatype FormData = FormData(firstName: string, lastName: string, email: string,
                               currentPassword: string, newPassword: string, confirmPassword: string)

  const EmptyForm := FormData("", "", "", "", "", "")

  const MinPasswordLength := 6

  /** The three password checks, in the order they run. */
  datatype PasswordProblem = Mismatch | MissingCurrent | TooShort

  function ProblemMessage(p: PasswordProblem): string {
    match p
    case Mismatch => "New passwords do not match"
    case MissingCurrent => "Current password is required to set a new password"
    case TooShort => "New password must be at least 6 characters"
  }

  /**
   * The first password check that fails, if any. Each check only applies
   * when a new password was typed.
   */
  function PasswordCheck(f: FormData): (r: Option<PasswordProblem>)
    ensures f.newPassword == "" ==> r == None
    ensures r == None <==>
      f.newPassword == "" ||
      (f.newPassword == f.confirmPassword && f.currentPassword != "" && |f.newPassword| >= MinPasswordLength)
  {
    if f.newPassword != "" && f.newPassword != f.confirmPassword then Some(Mismatch)
    else if f.newPassword != "" && f.currentPassword == "" then Some(MissingCurrent)
    else if f.newPassword != "" && |f.newPassword| < MinPasswordLength then Some(TooShort)
    else None
  }

  /**
   * Which check is reported: a mismatch whenever the two new passwords
   * differ, a missing current password only when they agree, and the length
   * only when both earlier checks pass.
   */
  lemma FirstFailureWins(f: FormData)
    ensures PasswordCheck(f) == Some(Mismatch) <==> f.newPassword != "" && f.newPassword != f.confirmPassword
    ensures PasswordCheck(f) == Some(MissingCurrent) <==>
      f.newPassword != "" && f.newPassword == f.confirmPassword && f.currentPassword == ""
    ensures PasswordCheck(f) == Some(TooShort) <==>
      f.newPassword != "" && f.newPassword == f.confirmPassword && f.currentPassword != ""
      && |f.newPassword| < MinPasswordLength
  {
  }

  /** With no new password typed, whatever is in the other two fields. */
  lemma NoNewPasswordNoCheck(f: FormData, current: string, confirm: string)
    requires f.newPassword == ""
    ensures PasswordCheck(f.(currentPassword := current, confirmPassword := confirm)) == None
  {
  }

  // ---------------------------------------------------------------- payload

  /** The keys the update payload may carry. */
  datatype Key = FirstName | LastName | AvatarLink | CurrentPassword | NewPassword

  /** The payload carries the password pair: both the current and the new password are non-empty. */
  predicate SendsPasswords(f: FormData) {
    f.currentPassword != "" && f.newPassword != ""
  }

  /**
   * `updateData`: the names always, the avatar when one is set, and the
   * password pair (added to the object afterwards) when both passwords are
   * given.
   */
  method BuildUpdateData(f: FormData, avatar: string) returns (data: map<Key, string>)
    ensures data.Keys == {FirstName, LastName}
                         + (if avatar != "" then {AvatarLink} else {})
                         + (if SendsPasswords(f) then {CurrentPassword, NewPassword} else {})
    ensures data[FirstName] == f.firstName && data[LastName] == f.lastName
    ensures AvatarLink in data ==> data[AvatarLink] == avatar
    ensures CurrentPassword in data ==> data[CurrentPassword] == f.currentPassword
    ensures NewPassword in data ==> data[NewPassword] == f.newPassword
  {
    data := map[FirstName := f.firstName, LastName := f.lastName];
    if avatar != "" {
      data := data[AvatarLink := avatar];
    }
    if f.currentPassword != "" && f.newPassword != "" {
      data := data[CurrentPassword := f.currentPassword];
      data := data[NewPassword := f.newPassword];
    }
  }

  /**
   * Once the checks pass, the password pair goes out exactly when a new
   * password was typed, and then it is confirmed and long enough. A current
   * password typed without a new one is not sent.
   */
  lemma PasswordsSentIffChanged(f: FormData)
    requires PasswordCheck(f) == None
    ensures SendsPasswords(f) <==> f.newPassword != ""
    ensures SendsPasswords(f) ==> f.newPassword == f.confirmPassword && |f.newPassword| >= MinPasswordLength
  {
  }

  /** The profile endpoint's reply body. */
  datatype UpdateBody = UpdateBody(message: string)

  const UpdatedMessage := "Profile updated successfully!"
  const UpdateFailedMessage := "Failed to update profile"

  /** `response.data.message || 'Profile updated successfully!'`. */
  function SuccessMessage(body: UpdateBody): (msg: string)
    ensures msg != ""
    ensures body.message != "" ==> msg == body.message
  {
    if body.message != "" then body.message else UpdatedMessage
  }

  /** `error.response?.data?.error || 'Failed to update profile'`. */
  function UpdateError(e: HttpError): (msg: string)
    ensures msg != ""
    ensures e.response.Some? && e.response.value.error != "" ==> msg == e.response.value.error
    ensures (e.response.None? || e.response.value.error == "") ==> msg == UpdateFailedMessage
  {
    if e.response.Some? && e.response.value.error != "" then e.response.value.error else UpdateFailedMessage
  }

  /** The form after a successful update: the three password fields cleared, the rest kept. */
  function ClearPasswords(f: FormData): (r: FormData)
    ensures r.currentPassword == "" && r.newPassword == "" && r.confirmPassword == ""
    ensures r.firstName == f.firstName && r.lastName == f.lastName && r.email == f.email
  {
    f.(currentPassword := "", newPassword := "", confirmPassword := "")
  }

  /** A cleared form passes the password checks and sends no passwords. */
  lemma ClearedFormSendsNoPasswords(f: FormData)
    ensures PasswordCheck(ClearPasswords(f)) == None && !SendsPasswords(ClearPasswords(f))
  {
  }

  // ---------------------------------------------------------------- avatars

  datatype Avatar = Avatar(id: string, link: string)

  const DefaultAvatars: seq<string> := ["avatar1.jpg", "avatar2.jpg", "avatar3.jpg"]

  /** `DEFAULT_AVATARS.some(d => a.link.includes(d))`. */
  predicate IsDefaultAvatar(a: Avatar) {
    exists i :: 0 <= i < |DefaultAvatars| && Contains(a.link, DefaultAvatars[i])
  }

  function DefaultsOf(avatars: seq<Avatar>): seq<Avatar> {
    Filter(avatars, (a: Avatar) => IsDefaultAvatar(a))
  }

  function UsersOf(avatars: seq<Avatar>): seq<Avatar> {
    Filter(avatars, (a: Avatar) => !IsDefaultAvatar(a))
  }

  /**
   * Every avatar lands in exactly one of the two lists, "default" iff its
   * link names one of the built-in files; the lists keep the reply's order
   * and together hold the whole reply.
   */
  lemma AvatarPartition(avatars: seq<Avatar>, a: Avatar)
    ensures a in DefaultsOf(avatars) <==> a in avatars && IsDefaultAvatar(a)
    ensures a in UsersOf(avatars) <==> a in avatars && !IsDefaultAvatar(a)
    ensures multiset(DefaultsOf(avatars)) + multiset(UsersOf(avatars)) == multiset(avatars)
    ensures IsSubsequence(DefaultsOf(avatars), avatars) && IsSubsequence(UsersOf(avatars), avatars)
  {
    var isDefault := (a: Avatar) => IsDefaultAvatar(a);
    var isUser := (a: Avatar) => !IsDefaultAvatar(a);
    FilterMembers(avatars, isDefault, a);
    FilterMembers(avatars, isUser, a);
    FilterPartition(avatars, isDefault, isUser);
    FilterIsSubsequence(avatars, isDefault);
    FilterIsSubsequence(avatars, isUser);
  }

  /** A link naming `avatar2.jpg` anywhere counts as a built-in avatar. */
  lemma BuiltInLink(a: Avatar, before: string, after: string)
    requires a.link == before + "avatar2.jpg" + after
    ensures IsDefaultAvatar(a)
  {
    assert a.link[|before|..|before| + |DefaultAvatars[1]|] == DefaultAvatars[1];
    assert OccursAt(a.link, DefaultAvatars[1], |before|);
  }

  /**
   * The body of the avatar listing as a type test sees it: an array, an
   * object with optional array properties `avatars` and `data` and a truthy
   * or falsy `success`, or anything else (null, a string, a number).
   */
  datatype AvatarReply =
    | ArrayBody(items: seq<Avatar>)
    | ObjectBody(avatars: Option<seq<Avatar>>, success: bool, data: Option<seq<Avatar>>)
    | OtherBody

  /** The avatars a reply carries, trying the three shapes in order; None when none fits. */
  function SelectAvatars(body: AvatarReply): (r: Option<seq<Avatar>>)
    ensures body.ArrayBody? ==> r == Some(body.items)
    ensures body.ObjectBody? && body.avatars.Some? ==> r == body.avatars
    ensures body.ObjectBody? && body.avatars.None? && body.success && body.data.Some? ==> r == body.data
    ensures r.None? <==>
      body.OtherBody? || (body.ObjectBody? && body.avatars.None? && !(body.success && body.data.Some?))
  {
    match body
    case ArrayBody(items) => Some(items)
    case ObjectBody(avatars, success, data) =>
      if avatars.Some? then avatars
      else if success && data.Some? then data
      else None
    case OtherBody => None
  }

  datatype AvatarCategory = AvatarCategory(name: string, avatars: seq<Avatar>)

  const DefaultCategoryName := "Default Avatars"
  const UserCategoryName := "Your Avatars"

  /** The two avatar lists the picker shows for a reply's avatars. */
  function Categories(avatars: seq<Avatar>): (r: seq<AvatarCategory>)
    ensures |r| == 2 && r[0].name == DefaultCategoryName && r[1].name == UserCategoryName
    ensures r[0].avatars == DefaultsOf(avatars) && r[1].avatars == UsersOf(avatars)
  {
    [AvatarCategory(DefaultCategoryName, DefaultsOf(avatars)),
     AvatarCategory(UserCategoryName, UsersOf(avatars))]
  }

  const DefaultAvatarPath := "/default-avatar.jpg"
  const UnexpectedShapeToast := "Failed to load avatars: unexpected response format"
  const LoadFailedToast := "Failed to load avatars"

  /** The `ProfileModal` component's state. */
  class ProfileModalState {
    var formData: FormData
    var avatar: string
    var loading: bool
    var error: string
    var success: string
    var selectedAvatar: string
    var showAvatarModal: bool
    var avatarCategories: seq<AvatarCategory>

    /** First render: empty fields, both avatar lists empty. */
    constructor ()
      ensures formData == EmptyForm && avatar == "" && !loading && error == "" && success == ""
      ensures selectedAvatar == DefaultAvatarPath && !showAvatarModal
      ensures avatarCategories == Categories([])
    {
      formData := EmptyForm;
      avatar := "";
      loading := false;
      error := "";
      success := "";
      selectedAvatar := DefaultAvatarPath;
      showAvatarModal := false;
      avatarCategories := Categories([]);
    }

    /** The effect on `userDetails`: copy the profile into the fields and clear the passwords. */
    method SyncUserDetails(userDetails: Option<Auth.User>)
      modifies this
      ensures userDetails.None? ==> formData == old(formData) && avatar == old(avatar) && selectedAvatar == old(selectedAvatar)
      ensures userDetails.Some? ==>
        var u := userDetails.value;
        && formData == FormData(u.firstName, u.lastName, u.email, "", "", "")
        && avatar == u.avatarLink
        && selectedAvatar == (if u.avatarLink != "" then u.avatarLink else DefaultAvatarPath)
      ensures loading == old(loading) && error == old(error) && success == old(success)
      ensures showAvatarModal == old(showAvatarModal) && avatarCategories == old(avatarCategories)
    {
      if userDetails.Some? {
        var u := userDetails.value;
        formData := FormData(u.firstName, u.lastName, u.email, "", "", "");
        avatar := u.avatarLink;
        selectedAvatar := if u.avatarLink != "" then u.avatarLink else DefaultAvatarPath;
      }
    }

    /**
     * The avatar fetch, run when the modal is open with a token: a reply of
     * a known shape replaces both lists; an unknown shape or a failed call
     * shows a toast and leaves the lists as they were.
     */
    method LoadAvatars(isOpen: bool, token: string, reply: Reply<AvatarReply>) returns (toast: Option<string>)
      modifies this
      ensures !(isOpen && token != "") ==> toast == None && avatarCategories == old(avatarCategories)
      ensures isOpen && token != "" && reply.Ok? && SelectAvatars(reply.body).Some? ==>
        toast == None && avatarCategories == Categories(SelectAvatars(reply.body).value)
      ensures isOpen && token != "" && reply.Ok? && SelectAvatars(reply.body).None? ==>
        toast == Some(UnexpectedShapeToast) && avatarCategories == old(avatarCategories)
      ensures isOpen && token != "" && reply.Failed? ==>
        toast == Some(LoadFailedToast) && avatarCategories == old(avatarCategories)
      ensures formData == old(formData) && avatar == old(avatar) && loading == old(loading)
      ensures error == old(error) && success == old(success)
      ensures selectedAvatar == old(selectedAvatar) && showAvatarModal == old(showAvatarModal)
    {
      toast := None;
      if !(isOpen && token != "") {
        return;
      }
      match reply {
        case Ok(body) =>
          var avatars: seq<Avatar>;
          match body {
            case ArrayBody(items) =>
              avatars := items;
            case ObjectBody(list, ok, data) =>
              if list.Some? {
                avatars := list.value;
              } else if ok && data.Some? {
                avatars := data.value;
              } else {
                toast := Some(UnexpectedShapeToast);
                return;
              }
            case OtherBody =>
              toast := Some(UnexpectedShapeToast);
              return;
          }
          avatarCategories := Categories(avatars);
        case Failed(_) =>
          toast := Some(LoadFailedToast);
      }
    }

    /** `handleAvatarSelect`: pick an avatar and close the picker. */
    method HandleAvatarSelect(url: string)
      modifies this
      ensures selectedAvatar == url && avatar == url && !showAvatarModal
      ensures formData == old(formData) && loading == old(loading) && error == old(error)
      ensures success == old(success) && avatarCategories == old(avatarCategories)
    {
      selectedAvatar := url;
      avatar := url;
      showAvatarModal := false;
    }

    /**
     * `handleSubmit`: run the password checks; if they pass, send the
     * payload, and then show the reply's message, refresh the profile and
     * clear the password fields, or show the error. `sent` is the payload
     * that went out and `refreshed` whether `refreshProfile` ran.
     */
    method HandleSubmit(reply: Reply<UpdateBody>) returns (sent: Option<map<Key, string>>, refreshed: bool)
      modifies this
      ensures PasswordCheck(old(formData)).Some? ==>
        && sent == None && !refreshed
        && error == ProblemMessage(PasswordCheck(old(formData)).value) && success == ""
        && formData == old(formData) && loading == old(loading)
      ensures PasswordCheck(old(formData)).None? ==>
        && sent.Some?
        && sent.value.Keys == {FirstName, LastName}
                              + (if old(avatar) != "" then {AvatarLink} else {})
                              + (if SendsPasswords(old(formData)) then {CurrentPassword, NewPassword} else {})
        && sent.value[FirstName] == old(formData).firstName && sent.value[LastName] == old(formData).lastName
        && (AvatarLink in sent.value ==> sent.value[AvatarLink] == old(avatar))
        && (CurrentPassword in sent.value ==> sent.value[CurrentPassword] == old(formData).currentPassword)
        && (NewPassword in sent.value ==> sent.value[NewPassword] == old(formData).newPassword)
        && !loading
      ensures PasswordCheck(old(formData)).None? && reply.Ok? ==>
        && refreshed && success == SuccessMessage(reply.body) && error == ""
        && formData == ClearPasswords(old(formData))
      ensures PasswordCheck(old(formData)).None? && reply.Failed? ==>
        && !refreshed && error == UpdateError(reply.error) && success == ""
        && formData == old(formData)
      ensures avatar == old(avatar) && selectedAvatar == old(selectedAvatar)
      ensures showAvatarModal == old(showAvatarModal) && avatarCategories == old(avatarCategories)
    {
      error := "";
      success := "";
      sent := None;
      refreshed := false;
      var problem := PasswordCheck(formData);
      if problem.Some? {
        error := ProblemMessage(problem.value);
        return;
      }
      loading := true;
      var data := BuildUpdateData(formData, avatar);
      sent := Some(data);
      match reply {
        case Ok(body) =>
          success := SuccessMessage(body);
          refreshed := true;
          formData := ClearPasswords(formData);
        case Failed(e) =>
          error := UpdateError(e);
      }
      loading := false;
    }
  }
}
