/** The signed-in admin's profile page: the profile form, the change-password
    dialog with its client-side checks, and account deletion. */
module AdminProfile {
  import opened Text
  import opened Http
  import opened AuthContext
  import Dashboard

  /** The profile form. */
  datatype ProfileData = ProfileData(name: string, email: string)

  /** `{ name: user?.name || '', email: user?.email || '' }` */
  function ProfileOf(user: Option<User>): (p: ProfileData)
    ensures user.None? ==> p == ProfileData("", "")
    ensures user.Some? ==> p == ProfileData(user.value.name, user.value.email)
  {
    match user
    case None => ProfileData("", "")
    case Some(u) => ProfileData(u.name, u.email)
  }

  /** The role chip's label. */
  function RoleLabel(user: Option<User>): (shown: string)
    ensures shown == "Super Admin" <==> Dashboard.IsSuperuser(user)
    ensures shown == "Church Admin" <==> !Dashboard.IsSuperuser(user)
  {
    if user.Some? && user.value.role == "superuser" then "Super Admin" else "Church Admin"
  }

  /** The church assignment line: the first assignment's church, or a note
      that there is none. */
  function AssignmentLabel(user: Option<User>): (shown: string)
    ensures Dashboard.HasAssignments(user) ==> shown == Dashboard.FirstAssignment(user).value.churchName
    ensures !Dashboard.HasAssignments(user) ==> shown == "No church assigned"
  {
    match Dashboard.FirstAssignment(user)
    case Some(a) => a.churchName
    case None => "No church assigned"
  }

  /** The change-password dialog's fields. */
  datatype PasswordData = PasswordData(currentPassword: string, newPassword: string, confirmPassword: string)

  const EmptyPasswords := PasswordData("", "", "")

  /** The smallest new password the dialog accepts. */
  const MinPasswordLength := 6

  const CurrentRequired := "Current password is required"
  const NewRequired := "New password is required"
  const NewTooShort := "New password must be at least 6 characters long"
  const Mismatch := "New passwords do not match"

  /** The checks of `handlePasswordChange`, in order; the first that fails
      gives the message. */
  function PasswordError(p: PasswordData): (e: Option<string>)
    ensures p.currentPassword == "" ==> e == Some(CurrentRequired)
    ensures p.currentPassword != "" && p.newPassword == "" ==> e == Some(NewRequired)
    ensures p.currentPassword != "" && p.newPassword != "" && |p.newPassword| < MinPasswordLength ==> e == Some(NewTooShort)
    ensures p.currentPassword != "" && |p.newPassword| >= MinPasswordLength && p.newPassword != p.confirmPassword ==> e == Some(Mismatch)
    ensures e.None? <==> p.currentPassword != "" && |p.newPassword| >= MinPasswordLength && p.newPassword == p.confirmPassword
  {
    if p.currentPassword == "" then Some(CurrentRequired)
    else if p.newPassword == "" then Some(NewRequired)
    else if |p.newPassword| < MinPasswordLength then Some(NewTooShort)
    else if p.newPassword != p.confirmPassword then Some(Mismatch)
    else None
  }

  /** The change button's `disabled` expression: when nothing is in flight
      the button is enabled exactly when every check of the handler passes,
      so a click never meets a client-side error. */
  function ChangeDisabled(loading: bool, p: PasswordData): (disabled: bool)
    ensures !disabled <==> !loading && PasswordError(p).None?
  {
    loading || p.currentPassword == "" || p.newPassword == "" || p.confirmPassword == ""
    || |p.newPassword| < MinPasswordLength || p.newPassword != p.confirmPassword
  }

  /** `error.includes('current password')`: whether the current-password
      field shows the error as written. */
  predicate FlagsCurrentFieldAsWritten(error: string) {
    error != "" && Contains(error, "current password")
  }

  /** The same test without regard to letter case. */
  predicate FlagsCurrentField(error: string) {
    error != "" && Contains(ToLower(error), "current password")
  }

  /** The client-side message about the current password has no lower-case 'c'. */
  lemma CurrentRequiredHasNoLowerC()
    ensures !Includes(CurrentRequired, 'c')
  {
    forall i | 0 <= i < |CurrentRequired|
      ensures CurrentRequired[i] != 'c'
    {
    }
  }

  /** A message with no lower-case 'c' is never put under the
      current-password field as written. */
  lemma NoLowerCNotFlagged(msg: string)
    requires !Includes(msg, 'c')
    ensures !FlagsCurrentFieldAsWritten(msg)
  {
    if Contains(msg, "current password") {
      ContainsNeedsFirstChar(msg, "current password");
      assert false;
    }
  }

  /** A message whose first characters lower-case to the needle is put under
      the current-password field by the case-insensitive test. */
  lemma LoweredNeedleFlagged(msg: string)
    requires 16 <= |msg|
    requires forall i :: 0 <= i < 16 ==> LowerChar(msg[i]) == "current password"[i]
    ensures FlagsCurrentField(msg)
  {
    var lowered := ToLower(msg);
    assert lowered[..16] == "current password";
  }

  /** Its first sixteen characters lower-case to the needle. */
  lemma CurrentRequiredLowersToNeedle()
    ensures forall i :: 0 <= i < 16 ==> LowerChar(CurrentRequired[i]) == "current password"[i]
  {
    forall i | 0 <= i < 16
      ensures LowerChar(CurrentRequired[i]) == "current password"[i]
    {
      if i == 0 {
        assert LowerChar('C') == 'c';
      } else {
        CurrentRequiredTail(i);
      }
    }
  }

  /** After its capital, the message spells the rest of the needle, with no
      other capital. */
  lemma CurrentRequiredTail(i: int)
    requires 1 <= i < 16
    ensures CurrentRequired[i] == "current password"[i] && !('A' <= CurrentRequired[i] <= 'Z')
  {
  }

  /** The one client-side message about the current password starts with a
      capital letter, so the case-sensitive test never puts it under the
      current-password field; without regard to case it is. */
  lemma CurrentRequiredNotFlagged()
    ensures !FlagsCurrentFieldAsWritten(CurrentRequired)
    ensures FlagsCurrentField(CurrentRequired)
  {
    CurrentRequiredHasNoLowerC();
    NoLowerCNotFlagged(CurrentRequired);
    CurrentRequiredLowersToNeedle();
    LoweredNeedleFlagged(CurrentRequired);
  }

  /** Whether the new-password and confirm fields show the error. */
  predicate FlagsNewField(error: string) {
    error != "" && (Contains(error, "New password") || Contains(error, "password must"))
  }

  predicate FlagsConfirmField(error: string) {
    error != "" && Contains(error, "do not match")
  }

  /** Each message about the new password opens with 'New password'. */
  lemma NewMessagesOpenWithNeedle()
    ensures NewRequired[..12] == "New password"
    ensures NewTooShort[..12] == "New password"
    ensures Mismatch[..12] == "New password"
  {
    forall i | 0 <= i < 12
      ensures NewRequired[i] == NewTooShort[i] == Mismatch[i] == "New password"[i]
    {
    }
  }

  /** The mismatch message holds 'do not match' from its fifteenth character. */
  lemma MismatchHoldsDoNotMatch()
    ensures Mismatch[14..26] == "do not match"
  {
    forall i | 0 <= i < 12
      ensures Mismatch[14 + i] == "do not match"[i]
    {
    }
  }

  /** The messages about the new password show under the new-password
      field, and the mismatch message under both the new-password and the
      confirm field, since it too begins with 'New password'. */
  lemma NewPasswordMessagesFlagged()
    ensures FlagsNewField(NewRequired) && FlagsNewField(NewTooShort)
    ensures FlagsNewField(Mismatch) && FlagsConfirmField(Mismatch)
  {
    NewMessagesOpenWithNeedle();
    MismatchHoldsDoNotMatch();
    ContainsAt(NewRequired, "New password", 0);
    ContainsAt(NewTooShort, "New password", 0);
    ContainsAt(Mismatch, "New password", 0);
    ContainsAt(Mismatch, "do not match", 14);
  }

  const ProfileUpdatedMessage := "Profile updated successfully!"
  const ProfileFailedMessage := "Failed to update profile"
  const ProfileNetworkMessage := "Network error while updating profile"
  const PasswordChangedMessage := "Password changed successfully!"
  const PasswordFailedMessage := "Failed to change password. Please try again."
  const PasswordNetworkMessage := "Network error while changing password. Please try again."
  const AccountDeletedMessage := "Account deleted successfully. You will be logged out."
  const DeleteFailedMessage := "Failed to delete account"
  const DeleteNetworkMessage := "Network error while deleting account"

  /** Every state cell of the page. */
  datatype ProfileState = ProfileState(
    editing: bool, loading: bool, error: string, success: string, deleteDialogOpen: bool,
    passwordDialogOpen: bool, profileData: ProfileData, passwordData: PasswordData)

  /** The password fields. */
  datatype PasswordField = Current | New | Confirm

  class AdminProfilePage {
    var editing: bool
    var loading: bool
    var error: string
    var success: string
    var deleteDialogOpen: bool
    var passwordDialogOpen: bool
    var profileData: ProfileData
    var passwordData: PasswordData

    function State(): ProfileState
      reads this
    {
      ProfileState(editing, loading, error, success, deleteDialogOpen, passwordDialogOpen, profileData, passwordData)
    }

    /** Mounting with the signed-in `user`. */
    constructor (user: Option<User>)
      ensures State() == ProfileState(false, false, "", "", false, false, ProfileOf(user), EmptyPasswords)
    {
      editing, loading, error, success := false, false, "", "";
      deleteDialogOpen, passwordDialogOpen := false, false;
      profileData, passwordData := ProfileOf(user), EmptyPasswords;
    }

    method StartEditing()
      modifies this
      ensures State() == old(State()).(editing := true)
    {
      editing := true;
    }

    /** Profile cancel: leaves edit mode and puts back the user's name and email. */
    method CancelEditing(user: Option<User>)
      modifies this
      ensures State() == old(State()).(editing := false, profileData := ProfileOf(user))
    {
      editing := false;
      profileData := ProfileOf(user);
    }

    method SetProfileName(name: string)
      modifies this
      ensures State() == old(State()).(profileData := old(profileData).(name := name))
    {
      profileData := profileData.(name := name);
    }

    method SetProfileEmail(email: string)
      modifies this
      ensures State() == old(State()).(profileData := old(profileData).(email := email))
    {
      profileData := profileData.(email := email);
    }

    /** `handleProfileSave`: `sent` is the request body; `refresh` says
        whether the session's user is reloaded afterwards. */
    method HandleProfileSave(reply: Reply<ErrorBody>) returns (sent: ProfileData, refresh: bool)
      modifies this
      ensures sent == old(profileData)
      ensures refresh <==> reply.Responded? && reply.ok
      ensures reply.Responded? && reply.ok ==>
        State() == old(State()).(editing := false, success := ProfileUpdatedMessage, error := "", loading := false)
      ensures reply.Responded? && !reply.ok ==>
        State() == old(State()).(error := Or(reply.body.error, ProfileFailedMessage), loading := false)
      ensures reply.Threw? ==>
        State() == old(State()).(error := ProfileNetworkMessage, loading := false)
    {
      loading := true;
      error := "";
      sent := profileData;
      refresh := false;
      match reply {
        case Responded(ok, _, body) =>
          if ok {
            editing := false;
            success := ProfileUpdatedMessage;
            refresh := true;
          } else {
            error := Or(body.error, ProfileFailedMessage);
          }
        case Threw =>
          error := ProfileNetworkMessage;
      }
      loading := false;
    }

    method SetPasswordDialogOpen(open: bool)
      modifies this
      ensures State() == old(State()).(passwordDialogOpen := open)
    {
      passwordDialogOpen := open;
    }

    /** Typing in a password field clears the error. */
    method SetPasswordField(f: PasswordField, value: string)
      modifies this
      ensures State() == old(State()).(error := "", passwordData := match f
        case Current => old(passwordData).(currentPassword := value)
        case New => old(passwordData).(newPassword := value)
        case Confirm => old(passwordData).(confirmPassword := value))
    {
      error := "";
      match f {
        case Current => passwordData := passwordData.(currentPassword := value);
        case New => passwordData := passwordData.(newPassword := value);
        case Confirm => passwordData := passwordData.(confirmPassword := value);
      }
    }

    /** The dialog's cancel button, and closing it. */
    method CancelPasswordDialog()
      modifies this
      ensures State() == old(State()).(passwordDialogOpen := false, error := "", passwordData := EmptyPasswords)
    {
      passwordDialogOpen := false;
      error := "";
      passwordData := EmptyPasswords;
    }

    /** `handlePasswordChange`: both messages cleared, then the checks in
        order; `sent` is the current and new password when a request is made. */
    method HandlePasswordChange(reply: Reply<ErrorBody>) returns (sent: Option<(string, string)>)
      modifies this
      ensures PasswordError(old(passwordData)).Some? ==>
        sent.None? && State() == old(State()).(success := "", error := PasswordError(old(passwordData)).value)
      ensures PasswordError(old(passwordData)).None? ==>
        sent == Some((old(passwordData).currentPassword, old(passwordData).newPassword))
      ensures PasswordError(old(passwordData)).None? && reply.Responded? && reply.ok ==>
        State() == old(State()).(passwordDialogOpen := false, passwordData := EmptyPasswords,
                                 success := PasswordChangedMessage, error := "", loading := false)
      ensures PasswordError(old(passwordData)).None? && reply.Responded? && !reply.ok ==>
        State() == old(State()).(error := Or(reply.body.error, PasswordFailedMessage), success := "", loading := false)
      ensures PasswordError(old(passwordData)).None? && reply.Threw? ==>
        State() == old(State()).(error := PasswordNetworkMessage, success := "", loading := false)
    {
      error := "";
      success := "";
      var e := PasswordError(passwordData);
      if e.Some? {
        error := e.value;
        return None;
      }
      loading := true;
      sent := Some((passwordData.currentPassword, passwordData.newPassword));
      match reply {
        case Responded(ok, _, body) =>
          if ok {
            passwordDialogOpen := false;
            passwordData := EmptyPasswords;
            success := PasswordChangedMessage;
          } else {
            error := Or(body.error, PasswordFailedMessage);
          }
        case Threw =>
          error := PasswordNetworkMessage;
      }
      loading := false;
    }

    method SetDeleteDialogOpen(open: bool)
      modifies this
      ensures State() == old(State()).(deleteDialogOpen := open)
    {
      deleteDialogOpen := open;
    }

    /** `handleAccountDeletion`: `logoutLater` says whether a logout is
        scheduled. */
    method HandleAccountDeletion(reply: Reply<ErrorBody>) returns (logoutLater: bool)
      modifies this
      ensures logoutLater <==> reply.Responded? && reply.ok
      ensures reply.Responded? && reply.ok ==>
        State() == old(State()).(deleteDialogOpen := false, success := AccountDeletedMessage, error := "", loading := false)
      ensures reply.Responded? && !reply.ok ==>
        State() == old(State()).(error := Or(reply.body.error, DeleteFailedMessage), loading := false)
      ensures reply.Threw? ==>
        State() == old(State()).(error := DeleteNetworkMessage, loading := false)
    {
      loading := true;
      error := "";
      logoutLater := false;
      match reply {
        case Responded(ok, _, body) =>
          if ok {
            deleteDialogOpen := false;
            success := AccountDeletedMessage;
            logoutLater := true;
          } else {
            error := Or(body.error, DeleteFailedMessage);
          }
        case Threw =>
          error := DeleteNetworkMessage;
      }
      loading := false;
    }

    /** The error alert's close button. */
    method DismissError()
      modifies this
      ensures State() == old(State()).(error := "")
    {
      error := "";
    }
  }
}
