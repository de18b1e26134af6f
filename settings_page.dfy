/**
 * The account settings page: its two form schemas, the profile and password
 * forms' state, and the three handlers (profile update, password update,
 * avatar replacement). The auth service calls are parameters that answer
 * with an optional error message; the notices the page shows are results.
 */
module SettingsPage {
  import opened Wrappers
  import opened Domain
  import opened Schemas
  import opened AuthSchemas
  import AuthService

  /** What the page tells the user: an info, error or success notice. */
  datatype Notice = ShowInfo(text: string) | ShowError(text: string) | ShowSuccess(text: string)

  /** `error.message || fallback`: the service's message unless it is empty. */
  function MessageOr(message: string, fallback: string): (m: string)
    ensures message != "" ==> m == message
    ensures message == "" ==> m == fallback
  {
    if message == "" then fallback else message
  }

  // ---------------------------------------------------------------- schemas

  datatype ProfileForm = ProfileForm(fullName: string, email: string)

  /** The profile form: a name of 2 to 100 characters and a valid email. */
  predicate ValidProfileForm(f: ProfileForm, fmt: Formats)
  {
    2 <= |f.fullName| <= 100 && fmt.isEmail(f.email)
  }

  function ProfileFormIssues(f: ProfileForm, fmt: Formats): (r: seq<Issue>)
    ensures r == [] <==> ValidProfileForm(f, fmt)
    ensures |f.fullName| < 2 ==> r[0] == Issue(["full_name"], "Name must be at least 2 characters")
  {
    Check(|f.fullName| >= 2, "full_name", "Name must be at least 2 characters")
    + Check(|f.fullName| <= 100, "full_name", TooLong100)
    + Check(fmt.isEmail(f.email), "email", "Invalid email address")
  }

  /** A form the page accepts is also accepted by the service's profile-update schema. */
  lemma ProfileFormMeetsServiceSchema(f: ProfileForm, fmt: Formats)
    requires ValidProfileForm(f, fmt)
    ensures ValidUpdateProfile(UpdateProfileData(Some(f.fullName), Some(f.email), None), fmt)
  {
  }

  datatype PasswordForm = PasswordForm(currentPassword: string, newPassword: string, confirmPassword: string)

  /** The password form: some current password, a new one of at least 8 characters, confirmed. */
  predicate ValidPasswordForm(f: PasswordForm)
  {
    |f.currentPassword| >= 1 && |f.newPassword| >= 8 && f.newPassword == f.confirmPassword
  }

  /**
   * The field rules, then the object-level match, which still runs when a field
   * rule has failed and reports on confirmPassword.
   */
  function PasswordFormIssues(f: PasswordForm): (r: seq<Issue>)
    ensures r == [] <==> ValidPasswordForm(f)
    ensures f.newPassword != f.confirmPassword ==> r[|r| - 1] == Issue(["confirmPassword"], "Passwords do not match")
    ensures f.currentPassword == "" ==> r[0].message == "Current password is required"
  {
    Check(|f.currentPassword| >= 1, "currentPassword", "Current password is required")
    + Check(|f.newPassword| >= 8, "newPassword", "Password must be at least 8 characters")
    + Check(f.newPassword == f.confirmPassword, "confirmPassword", "Passwords do not match")
  }

  /** A mismatch alone is what the user is told about when the fields are otherwise fine. */
  lemma MismatchIsFirstWhenFieldsPass(f: PasswordForm)
    requires |f.currentPassword| >= 1 && |f.newPassword| >= 8 && f.newPassword != f.confirmPassword
    ensures PasswordFormIssues(f) == [Issue(["confirmPassword"], "Passwords do not match")]
  {
  }

  /** The name and email equal the current profile's: nothing to save (never true without a profile). */
  predicate Unchanged(f: ProfileForm, profile: Option<Profile>)
  {
    profile.Some? && profile.value.fullName == Some(f.fullName) && profile.value.email == f.email
  }

  /** A profile whose name is null always counts as changed. */
  lemma NullNameAlwaysChanged(f: ProfileForm, p: Profile)
    requires p.fullName.None?
    ensures !Unchanged(f, Some(p))
  {
  }

  /** The form's initial text for a profile field: `profile?.field || ""`. */
  function Initial(field: Option<string>): (s: string)
    ensures field.Some? ==> s == field.value
    ensures field.None? ==> s == ""
  {
    field.GetOr("")
  }

  class SettingsForm {
    var fullName: string
    var email: string
    var currentPassword: string
    var newPassword: string
    var confirmPassword: string
    var isUpdatingProfile: bool
    var isUpdatingPassword: bool
    var isUploadingAvatar: bool

    /** The profile fields start from the profile, the password fields empty, nothing in progress. */
    constructor (profile: Option<Profile>)
      ensures profile.None? ==> fullName == "" && email == ""
      ensures profile.Some? ==> fullName == Initial(profile.value.fullName) && email == profile.value.email
      ensures currentPassword == "" && newPassword == "" && confirmPassword == ""
      ensures !isUpdatingProfile && !isUpdatingPassword && !isUploadingAvatar
    {
      fullName := if profile.Some? then Initial(profile.value.fullName) else "";
      email := if profile.Some? then profile.value.email else "";
      currentPassword, newPassword, confirmPassword := "", "", "";
      isUpdatingProfile, isUpdatingPassword, isUploadingAvatar := false, false, false;
    }

    /** A new profile resets the name and email fields; no profile leaves them. */
    method ProfileChanged(profile: Option<Profile>)
      modifies this
      ensures profile.Some? ==> fullName == Initial(profile.value.fullName) && email == profile.value.email
      ensures profile.None? ==> fullName == old(fullName) && email == old(email)
      ensures currentPassword == old(currentPassword) && newPassword == old(newPassword)
      ensures confirmPassword == old(confirmPassword)
      ensures isUpdatingProfile == old(isUpdatingProfile) && isUpdatingPassword == old(isUpdatingPassword)
      ensures isUploadingAvatar == old(isUploadingAvatar)
    {
      if profile.Some? {
        fullName := Initial(profile.value.fullName);
        email := profile.value.email;
      }
    }

    /** The typed name and email as the profile form. */
    function ProfileFields(): ProfileForm
      reads this
    {
      ProfileForm(fullName, email)
    }

    /** The typed passwords as the password form. */
    function PasswordFields(): PasswordForm
      reads this
    {
      PasswordForm(currentPassword, newPassword, confirmPassword)
    }

    /**
     * The profile form is submitted: an invalid form shows its first issue, an
     * unchanged one "No changes to save", and only otherwise is the name and
     * email sent as a profile update. The form fields are never changed.
     */
    method HandleProfileUpdate(profile: Option<Profile>, fmt: Formats,
                               updateProfile: UpdateProfileData -> Option<string>)
      returns (notice: Notice, sent: Option<UpdateProfileData>)
      modifies this
      ensures !isUpdatingProfile
      ensures ProfileFields() == old(ProfileFields()) && PasswordFields() == old(PasswordFields())
      ensures isUpdatingPassword == old(isUpdatingPassword) && isUploadingAvatar == old(isUploadingAvatar)
      ensures sent.Some? <==> ValidProfileForm(old(ProfileFields()), fmt) && !Unchanged(old(ProfileFields()), profile)
      ensures !ValidProfileForm(old(ProfileFields()), fmt) ==>
        notice == ShowError(ProfileFormIssues(old(ProfileFields()), fmt)[0].message)
      ensures ValidProfileForm(old(ProfileFields()), fmt) && Unchanged(old(ProfileFields()), profile) ==>
        notice == ShowInfo("No changes to save")
      ensures sent.Some? ==> sent.value == UpdateProfileData(Some(old(fullName)), Some(old(email)), None)
      ensures sent.Some? && updateProfile(sent.value).Some? ==>
        notice == ShowError(MessageOr(updateProfile(sent.value).value, "Failed to update profile"))
      ensures sent.Some? && updateProfile(sent.value).None? ==> notice == ShowSuccess("Profile updated successfully")
    {
      isUpdatingProfile := true;
      var form := ProfileForm(fullName, email);
      var issues := ProfileFormIssues(form, fmt);
      if issues != [] {
        isUpdatingProfile := false;
        return ShowError(issues[0].message), None;
      }
      if Unchanged(form, profile) {
        isUpdatingProfile := false;
        return ShowInfo("No changes to save"), None;
      }
      var data := UpdateProfileData(Some(form.fullName), Some(form.email), None);
      sent := Some(data);
      var error := updateProfile(data);
      if error.Some? {
        notice := ShowError(MessageOr(error.value, "Failed to update profile"));
      } else {
        notice := ShowSuccess("Profile updated successfully");
      }
      isUpdatingProfile := false;
    }

    /**
     * The password form is submitted: an invalid form shows its first issue;
     * otherwise only the new password is sent, and a success clears all three
     * fields.
     */
    method HandlePasswordUpdate(updatePassword: string -> Option<string>)
      returns (notice: Notice, sent: Option<string>)
      modifies this
      ensures !isUpdatingPassword
      ensures ProfileFields() == old(ProfileFields())
      ensures isUpdatingProfile == old(isUpdatingProfile) && isUploadingAvatar == old(isUploadingAvatar)
      ensures sent.Some? <==> ValidPasswordForm(old(PasswordFields()))
      ensures sent.Some? ==> sent.value == old(newPassword)
      ensures !ValidPasswordForm(old(PasswordFields())) ==>
        notice == ShowError(PasswordFormIssues(old(PasswordFields()))[0].message) && PasswordFields() == old(PasswordFields())
      ensures sent.Some? && updatePassword(sent.value).Some? ==>
        && notice == ShowError(MessageOr(updatePassword(sent.value).value, "Failed to update password"))
        && PasswordFields() == old(PasswordFields())
      ensures sent.Some? && updatePassword(sent.value).None? ==>
        notice == ShowSuccess("Password updated successfully") && PasswordFields() == PasswordForm("", "", "")
    {
      isUpdatingPassword := true;
      var issues := PasswordFormIssues(PasswordForm(currentPassword, newPassword, confirmPassword));
      if issues != [] {
        isUpdatingPassword := false;
        return ShowError(issues[0].message), None;
      }
      sent := Some(newPassword);
      var error := updatePassword(newPassword);
      if error.Some? {
        notice := ShowError(MessageOr(error.value, "Failed to update password"));
      } else {
        currentPassword, newPassword, confirmPassword := "", "", "";
        notice := ShowSuccess("Password updated successfully");
      }
      isUpdatingPassword := false;
    }
  }

  /** What the avatar handler did: the URL it asked to delete, whether it uploaded, the URL it saved. */
  datatype AvatarSteps = AvatarSteps(deleted: Option<string>, uploaded: bool, saved: Option<string>)

  /**
   * A new avatar is chosen: without a file or a profile nothing happens.
   * Otherwise the old avatar is deleted first when the profile has a non-empty
   * one (its outcome is not looked at), the file is uploaded under the
   * profile's id, and a non-empty URL is saved into the profile.
   */
  method HandleAvatarUpload(form: SettingsForm, file: Option<AuthService.FileInfo>, profile: Option<Profile>,
                            upload: (AuthService.FileInfo, string) -> Result<string, string>,
                            saveAvatar: string -> Option<string>)
    returns (notice: Option<Notice>, steps: AvatarSteps)
    modifies form
    ensures file.None? || profile.None? ==>
      notice.None? && steps == AvatarSteps(None, false, None) && form.isUploadingAvatar == old(form.isUploadingAvatar)
    ensures file.Some? && profile.Some? ==>
      var p := profile.value;
      var stored := upload(file.value, p.id);
      && !form.isUploadingAvatar
      && steps.uploaded
      && (steps.deleted.Some? <==> p.avatarUrl.Some? && p.avatarUrl.value != "")
      && (steps.deleted.Some? ==> steps.deleted == p.avatarUrl)
      && (stored.Err? ==> notice == Some(ShowError(MessageOr(stored.error, "Failed to upload avatar"))) && steps.saved.None?)
      && (stored == Ok("") ==> notice == Some(ShowError("Failed to get avatar URL")) && steps.saved.None?)
      && (stored.Ok? && stored.value != "" ==> steps.saved == Some(stored.value))
      && (steps.saved.Some? && saveAvatar(steps.saved.value).Some? ==>
            notice == Some(ShowError(MessageOr(saveAvatar(steps.saved.value).value, "Failed to update profile"))))
      && (steps.saved.Some? && saveAvatar(steps.saved.value).None? ==>
            notice == Some(ShowSuccess("Profile picture updated successfully")))
    ensures form.ProfileFields() == old(form.ProfileFields()) && form.PasswordFields() == old(form.PasswordFields())
    ensures form.isUpdatingProfile == old(form.isUpdatingProfile)
    ensures form.isUpdatingPassword == old(form.isUpdatingPassword)
  {
    if file.None? || profile.None? {
      return None, AvatarSteps(None, false, None);
    }
    var p := profile.value;
    form.isUploadingAvatar := true;
    steps := AvatarSteps(None, false, None);
    if p.avatarUrl.Some? && p.avatarUrl.value != "" {
      steps := steps.(deleted := p.avatarUrl);
    }
    var stored := upload(file.value, p.id);
    steps := steps.(uploaded := true);
    if stored.Err? {
      notice := Some(ShowError(MessageOr(stored.error, "Failed to upload avatar")));
    } else if stored.value == "" {
      notice := Some(ShowError("Failed to get avatar URL"));
    } else {
      steps := steps.(saved := Some(stored.value));
      var error := saveAvatar(stored.value);
      if error.Some? {
        notice := Some(ShowError(MessageOr(error.value, "Failed to update profile")));
      } else {
        notice := Some(ShowSuccess("Profile picture updated successfully"));
      }
    }
    form.isUploadingAvatar := false;
  }
}
