/**
 * The deterministic parts of the authentication service: the avatar upload
 * checks and storage path, the avatar path extraction on delete, the profile
 * update record and email rule, the current-profile fallback and the admin
 * test. The auth provider, the profiles table and storage are parameters.
 */
module AuthService {
  import opened Wrappers
  import opened Domain
  import opened Errors
  import opened AuthSchemas
  import Text

  /** The signed-in user as the auth provider reports it. */
  datatype AuthUser = AuthUser(id: string, email: Option<string>, metadataFullName: Option<string>)

  /** An uploaded file: its name, its MIME type and its size in bytes. */
  datatype FileInfo = FileInfo(name: string, mimeType: string, size: nat)

  /** The image types an avatar may have. */
  predicate IsAvatarType(t: string)
  {
    t == "image/jpeg" || t == "image/png" || t == "image/gif" || t == "image/webp"
  }

  /** The largest avatar accepted: 5 MiB. */
  const MaxAvatarSize: nat := 5 * 1024 * 1024

  /** The storage path `<userId>/<timestamp>.<ext>`, `ext` being the last piece of the name split at dots. */
  function AvatarFileName(file: FileInfo, userId: string, now: int): string
  {
    userId + "/" + Text.IntToString(now) + "." + Text.LastPiece(file.name, '.')
  }

  /**
   * The extension in the path is the text after the last dot of the file
   * name, or the whole name when it has no dot.
   */
  lemma AvatarExtension(file: FileInfo, userId: string, now: int)
    ensures var ext := Text.LastPiece(file.name, '.');
      && AvatarFileName(file, userId, now) == userId + "/" + Text.IntToString(now) + "." + ext
      && '.' !in ext
      && |ext| <= |file.name| && file.name[|file.name| - |ext|..] == ext
      && (ext == file.name <==> '.' !in file.name)
  {
    Text.LastPieceIsAfterLast(file.name, '.');
  }

  /**
   * `uploadAvatar`: the type is checked first, then the size (exactly 5 MiB
   * passes); only then is the file stored, under its path, and the stored
   * path's public URL returned. `upload` answers the stored path or the
   * storage error's message.
   */
  function UploadAvatar(file: FileInfo, userId: string, now: int,
                        upload: string -> Result<string, string>, publicUrl: string -> string)
    : (r: Result<string, Thrown>)
    ensures !IsAvatarType(file.mimeType) ==>
      r == Err(NewAuthError("Invalid file type. Please upload an image file.", None))
    ensures IsAvatarType(file.mimeType) && file.size > MaxAvatarSize ==>
      r == Err(NewAuthError("File size too large. Maximum size is 5MB.", None))
    ensures IsAvatarType(file.mimeType) && file.size <= MaxAvatarSize ==>
      var stored := upload(AvatarFileName(file, userId, now));
      && (stored.Err? ==> r == Err(NewAuthError(stored.error, None)))
      && (stored.Ok? ==> r == Ok(publicUrl(stored.value)))
  {
    if !IsAvatarType(file.mimeType) then
      Err(NewAuthError("Invalid file type. Please upload an image file.", None))
    else if file.size > MaxAvatarSize then
      Err(NewAuthError("File size too large. Maximum size is 5MB.", None))
    else
      match upload(AvatarFileName(file, userId, now))
      case Err(message) => Err(NewAuthError(message, None))
      case Ok(path) => Ok(publicUrl(path))
  }

  /** A file the checks refuse never reaches storage, whatever storage would answer. */
  lemma RejectedFileNotUploaded(file: FileInfo, userId: string, now: int,
                                upload1: string -> Result<string, string>, upload2: string -> Result<string, string>,
                                publicUrl: string -> string)
    requires !IsAvatarType(file.mimeType) || file.size > MaxAvatarSize
    ensures UploadAvatar(file, userId, now, upload1, publicUrl) == UploadAvatar(file, userId, now, upload2, publicUrl)
    ensures UploadAvatar(file, userId, now, upload1, publicUrl).Err?
  {
  }

  /** The marker the public avatar URLs carry before the storage path. */
  const AvatarsMarker: string := "/avatars/"

  /**
   * `path` follows the first marker of `url`, found at `i`, and runs up to the
   * next marker or to the end.
   */
  predicate PathAfterFirstMarker(url: string, i: nat, path: string)
  {
    && Text.OccursAt(url, AvatarsMarker, i)
    && (forall j :: 0 <= j < i ==> !Text.OccursAt(url, AvatarsMarker, j))
    && i + |AvatarsMarker| + |path| <= |url|
    && url[i + |AvatarsMarker|..i + |AvatarsMarker| + |path|] == path
    && (forall j :: i + |AvatarsMarker| <= j < i + |AvatarsMarker| + |path| ==> !Text.OccursAt(url, AvatarsMarker, j))
    && (i + |AvatarsMarker| + |path| == |url| || Text.OccursAt(url, AvatarsMarker, i + |AvatarsMarker| + |path|))
  }

  /**
   * `avatarUrl.split("/avatars/")[1]`: the text between the first marker and
   * the next one after it, or the end; None when the URL has no marker.
   */
  function AvatarPath(url: string): (r: Option<string>)
    ensures r.None? <==> forall j :: 0 <= j ==> !Text.OccursAt(url, AvatarsMarker, j)
    ensures r.Some? ==> exists i: nat :: PathAfterFirstMarker(url, i, r.value)
  {
    match Text.IndexOf(url, AvatarsMarker, 0)
    case None => None
    case Some(i) =>
      var start := i + |AvatarsMarker|;
      match Text.IndexOf(url, AvatarsMarker, start)
      case None =>
        assert PathAfterFirstMarker(url, i, url[start..]);
        Some(url[start..])
      case Some(k) =>
        assert PathAfterFirstMarker(url, i, url[start..k]);
        Some(url[start..k])
  }

  /**
   * A URL made of a base, the marker and a path gives that path back, provided
   * neither the base (with the marker's start) nor the path holds a marker.
   */
  lemma AvatarPathRoundTrip(base: string, path: string)
    requires !Text.Contains(base + "/avatars", AvatarsMarker)
    requires !Text.Contains(path, AvatarsMarker)
    ensures AvatarPath(base + AvatarsMarker + path) == Some(path)
  {
    var url := base + AvatarsMarker + path;
    var start := |base| + |AvatarsMarker|;
    FirstMarkerAfterBase(base, path);
    NoMarkerInPath(base, path);
    assert url[start..] == path;
  }

  /** In such a URL the first marker is the one right after the base. */
  lemma FirstMarkerAfterBase(base: string, path: string)
    requires !Text.Contains(base + "/avatars", AvatarsMarker)
    ensures Text.OccursAt(base + AvatarsMarker + path, AvatarsMarker, |base|)
    ensures forall j :: 0 <= j < |base| ==> !Text.OccursAt(base + AvatarsMarker + path, AvatarsMarker, j)
  {
    var url := base + AvatarsMarker + path;
    assert url[|base|..|base| + |AvatarsMarker|] == AvatarsMarker;
    forall j | 0 <= j < |base| ensures !Text.OccursAt(url, AvatarsMarker, j) {
      assert url[j..j + |AvatarsMarker|] == (base + "/avatars")[j..j + |AvatarsMarker|];
      assert !Text.OccursAt(base + "/avatars", AvatarsMarker, j);
    }
    assert Text.OccursAt(url, AvatarsMarker, |base|);
  }

  /** In such a URL no marker starts inside the path. */
  lemma NoMarkerInPath(base: string, path: string)
    requires !Text.Contains(path, AvatarsMarker)
    ensures forall j :: |base| + |AvatarsMarker| <= j ==> !Text.OccursAt(base + AvatarsMarker + path, AvatarsMarker, j)
  {
    var url := base + AvatarsMarker + path;
    var start := |base| + |AvatarsMarker|;
    assert url[start..] == path;
    var m := |AvatarsMarker|;
    forall j | start <= j ensures !Text.OccursAt(url, AvatarsMarker, j) {
      if j + m <= |url| {
        var p := j - start;
        assert url[j..j + m] == path[p..p + m];
        assert !Text.OccursAt(path, AvatarsMarker, p);
      }
    }
  }

  /**
   * `deleteAvatar`: a URL without the marker is refused before storage is
   * touched; otherwise the extracted path is removed and a storage error's
   * message comes back as an auth error.
   */
  function DeleteAvatar(url: string, remove: string -> Option<string>): (error: Option<Thrown>)
    ensures AvatarPath(url).None? ==> error == Some(NewAuthError("Invalid avatar URL", None))
    ensures AvatarPath(url).Some? ==>
      var failed := remove(AvatarPath(url).value);
      && (failed.None? ==> error.None?)
      && (failed.Some? ==> error == Some(NewAuthError(failed.value, None)))
  {
    match AvatarPath(url)
    case None => Some(NewAuthError("Invalid avatar URL", None))
    case Some(path) =>
      match remove(path)
      case None => None
      case Some(message) => Some(NewAuthError(message, None))
  }

  /**
   * When the public URL of a stored path is the base, the marker and the path,
   * deleting the uploaded avatar removes exactly the path it was stored under.
   */
  lemma UploadThenDeleteRemovesStoredPath(file: FileInfo, userId: string, now: int,
                                          upload: string -> Result<string, string>, base: string,
                                          remove: string -> Option<string>)
    requires IsAvatarType(file.mimeType) && file.size <= MaxAvatarSize
    requires upload(AvatarFileName(file, userId, now)).Ok?
    requires !Text.Contains(base + "/avatars", AvatarsMarker)
    requires !Text.Contains(upload(AvatarFileName(file, userId, now)).value, AvatarsMarker)
    ensures var url := UploadAvatar(file, userId, now, upload, p => base + AvatarsMarker + p);
      && url.Ok?
      && AvatarPath(url.value) == Some(upload(AvatarFileName(file, userId, now)).value)
      && DeleteAvatar(url.value, remove) == (
           if remove(upload(AvatarFileName(file, userId, now)).value).None? then None
           else Some(NewAuthError(remove(upload(AvatarFileName(file, userId, now)).value).value, None)))
  {
    AvatarPathRoundTrip(base, upload(AvatarFileName(file, userId, now)).value);
  }

  /**
   * `updateProfile` fills its record field by field: the update time always,
   * the name and the avatar only when given, the email never.
   */
  method BuildProfileUpdate(userId: string, updates: UpdateProfileData, now: string) returns (w: ProfileWrite)
    ensures w.id == userId && w.updatedAt == Some(now)
    ensures w.fullName == updates.fullName && w.avatarUrl == updates.avatarUrl
    ensures w.email.None? && w.role.None?
  {
    w := ProfileWrite(userId, None, None, None, None, Some(now));
    if updates.fullName.Some? {
      w := w.(fullName := updates.fullName);
    }
    if updates.avatarUrl.Some? {
      w := w.(avatarUrl := updates.avatarUrl);
    }
  }

  /** The email rule: a non-empty email that differs from the current one is sent to the auth provider. */
  predicate EmailChanges(updates: UpdateProfileData, user: AuthUser)
  {
    updates.email.Some? && updates.email.value != "" && Some(updates.email.value) != user.email
  }

  /**
   * `updateProfile`: with no user nothing is written; otherwise the profile
   * record is written, and only when that succeeds and the email changes is
   * the email update requested. `writeProfile` and `updateEmail` answer the
   * error message of a failed call.
   */
  method UpdateProfile(updates: UpdateProfileData, user: Option<AuthUser>, now: string,
                       writeProfile: ProfileWrite -> Option<string>, updateEmail: string -> Option<string>)
    returns (error: Option<Thrown>, written: Option<ProfileWrite>, emailRequested: bool)
    ensures user.None? ==> error == Some(NewAuthError("No user logged in", None)) && written.None? && !emailRequested
    ensures user.Some? ==> written.Some? && written.value.id == user.value.id
    ensures written.Some? ==>
      && written.value.updatedAt == Some(now)
      && written.value.fullName == updates.fullName && written.value.avatarUrl == updates.avatarUrl
      && written.value.email.None? && written.value.role.None?
    ensures user.Some? && writeProfile(written.value).Some? ==>
      error == Some(NewAuthError(writeProfile(written.value).value, None)) && !emailRequested
    ensures user.Some? && writeProfile(written.value).None? ==>
      (emailRequested <==> EmailChanges(updates, user.value))
    ensures emailRequested ==> user.Some? && updateEmail(updates.email.value).Some? ==>
      error == Some(NewAuthError(updateEmail(updates.email.value).value, None))
    ensures error.None? <==>
      user.Some? && writeProfile(written.value).None? && (emailRequested ==> updateEmail(updates.email.value).None?)
  {
    if user.None? {
      return Some(NewAuthError("No user logged in", None)), None, false;
    }
    var w := BuildProfileUpdate(user.value.id, updates, now);
    written := Some(w);
    var failed := writeProfile(w);
    if failed.Some? {
      return Some(NewAuthError(failed.value, None)), written, false;
    }
    emailRequested := EmailChanges(updates, user.value);
    error := None;
    if emailRequested {
      var emailFailed := updateEmail(updates.email.value);
      if emailFailed.Some? {
        error := Some(NewAuthError(emailFailed.value, None));
      }
    }
  }

  /** The profile row created for a signed-in user who has none. */
  datatype ProfileInsert = ProfileInsert(id: string, email: Option<string>, fullName: string, role: string)

  /** The created profile: the user's id and email, the metadata name or "", and the role "user". */
  function NewProfileRecord(user: AuthUser): (p: ProfileInsert)
    ensures p.id == user.id && p.email == user.email && p.role == "user"
    ensures p.fullName == if user.metadataFullName.Some? then user.metadataFullName.value else ""
  {
    ProfileInsert(user.id, user.email, user.metadataFullName.GetOr(""), "user")
  }

  /** A row read as a profile: itself when the profile schema accepts it, otherwise none. */
  function ParsedProfile(answer: Backend<Profile>, fmt: Formats): (r: Option<Profile>)
    ensures r.Some? <==> answer.Data? && answer.rows.Some? && ValidProfile(answer.rows.value, fmt)
    ensures r.Some? ==> r.value == answer.rows.value
  {
    match answer
    case Data(Some(p)) => if ValidProfile(p, fmt) then Some(p) else None
    case _ => None
  }

  /**
   * `getCurrentProfile`: no user gives none; a missing profile (PGRST116) is
   * created and the created row returned; any other error, no row or a row the
   * schema rejects gives none.
   */
  function GetCurrentProfile(user: Option<AuthUser>, fetch: string -> Backend<Profile>,
                             insert: ProfileInsert -> Backend<Profile>, fmt: Formats)
    : (r: Option<Profile>)
    ensures user.None? ==> r.None?
    ensures user.Some? && fetch(user.value.id).Failed? && fetch(user.value.id).code == NoRowsCode ==>
      r == ParsedProfile(insert(NewProfileRecord(user.value)), fmt)
    ensures user.Some? && fetch(user.value.id).Failed? && fetch(user.value.id).code != NoRowsCode ==> r.None?
    ensures user.Some? && fetch(user.value.id).Data? ==> r == ParsedProfile(fetch(user.value.id), fmt)
    ensures r.Some? ==> ValidProfile(r.value, fmt)
  {
    match user
    case None => None
    case Some(u) =>
      match fetch(u.id)
      case Failed(code, _) =>
        if code == NoRowsCode then ParsedProfile(insert(NewProfileRecord(u)), fmt) else None
      case Data(_) => ParsedProfile(fetch(u.id), fmt)
  }

  /** `isAdmin`: the current profile's role is "admin"; no profile is not an admin. */
  predicate IsAdmin(profile: Option<Profile>)
  {
    profile.Some? && profile.value.role == "admin"
  }

  /**
   * A user whose profile had to be created is never an admin, as long as the
   * backend returns the role it was given.
   */
  lemma CreatedProfileIsNotAdmin(user: AuthUser, fetch: string -> Backend<Profile>,
                                 insert: ProfileInsert -> Backend<Profile>, fmt: Formats)
    requires fetch(user.id).Failed? && fetch(user.id).code == NoRowsCode
    requires var created := insert(NewProfileRecord(user));
      created.Data? && created.rows.Some? ==> created.rows.value.role == NewProfileRecord(user).role
    ensures !IsAdmin(GetCurrentProfile(Some(user), fetch, insert, fmt))
  {
  }

  /** An admin always has a signed-in user behind it. */
  lemma AdminHasUser(user: Option<AuthUser>, fetch: string -> Backend<Profile>,
                     insert: ProfileInsert -> Backend<Profile>, fmt: Formats)
    requires IsAdmin(GetCurrentProfile(user, fetch, insert, fmt))
    ensures user.Some?
    ensures ValidProfile(GetCurrentProfile(user, fetch, insert, fmt).value, fmt)
  {
  }
}
