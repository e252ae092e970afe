/** The account page's avatar upload: the same file checks as the setup
    dialog, guarded by a wallet, then either an avatar-only update of the
    existing profile or a fresh profile holding just the avatar. */
module ProfilePage {
  import opened Common
  import Store
  import UserSetup

  datatype UploadOutcome =
    | NoFile
    | Refused(message: string)
    | Uploaded(profile: Store.UserRow)
    | Failed(message: string)

  /** The page's profile after the call, the users table, and the outcome. */
  datatype UploadStep = UploadStep(profile: Option<Store.UserRow>, users: Store.Table<Store.UserRow>, outcome: UploadOutcome)

  /** The profile created for an account that had none. */
  function AvatarOnlyProfile(addr: string, url: string): (row: Store.UserRow)
    ensures row.creatorId == addr && row.avatar == Some(url)
    ensures row.displayName.None? && row.bio.None? && row.socialLinks == [] && row.channels == []
  {
    Store.UserRow(addr, None, None, Some(url), [], [])
  }

  /** `handleAvatarUpload`. `profile` is the page's loaded profile, `upload`
      what the upload returned, `writeFault` the fault of the profile write. */
  function UploadAvatar(profile: Option<Store.UserRow>, creatorAddress: Option<string>, file: Option<UserSetup.ImageFile>,
                        upload: Result<string, string>, users: Store.Table<Store.UserRow>, writeFault: Option<string>): (s: UploadStep)
    ensures file.None? ==> s == UploadStep(profile, users, NoFile)
    // The guards run before any upload, in this order.
    ensures file.Some? && !Present(creatorAddress) ==> s == UploadStep(profile, users, Refused("Wallet not connected"))
    ensures file.Some? && Present(creatorAddress) && UserSetup.AvatarError(file.value).Some? ==>
      s == UploadStep(profile, users, Refused(UserSetup.AvatarError(file.value).value))
    ensures !s.outcome.Uploaded? ==> s.users == users && s.profile == profile
    ensures s.outcome.Uploaded? ==>
      && file.Some? && Present(creatorAddress) && UserSetup.AvatarError(file.value).None?
      && upload.Success? && upload.value != ""
      && s.profile == Some(s.outcome.profile)
      && s.users == users[creatorAddress.value := s.outcome.profile]
      && s.outcome.profile.avatar == Some(upload.value)
    // With a loaded profile only the avatar changes.
    ensures s.outcome.Uploaded? && profile.Some? ==>
      creatorAddress.value in users && s.outcome.profile == users[creatorAddress.value].(avatar := Some(upload.value))
    ensures s.outcome.Uploaded? && profile.None? ==>
      s.outcome.profile == AvatarOnlyProfile(creatorAddress.value, upload.value)
  {
    match file
    case None => UploadStep(profile, users, NoFile)
    case Some(f) =>
      if !Present(creatorAddress) then UploadStep(profile, users, Refused("Wallet not connected"))
      else match UserSetup.AvatarError(f)
        case Some(e) => UploadStep(profile, users, Refused(e))
        case None =>
          var addr := creatorAddress.value;
          match upload
          case Failure(m) => UploadStep(profile, users, Failed(if m == "" then "Failed to upload profile picture" else m))
          case Success(url) =>
            if url == "" then UploadStep(profile, users, Refused("Failed to upload image"))
            else if profile.Some? then
              var write := Store.UpdateUserProfile(users, addr, Store.EmptyPatch.(avatar := Some(Some(url))), writeFault);
              match write.result
              case Failure(m) => UploadStep(profile, users, Failed(if m == "" then "Failed to upload profile picture" else m))
              case Success(row) => UploadStep(Some(row), write.table, Uploaded(row))
            else
              var write := Store.CreateUserProfile(users, AvatarOnlyProfile(addr, url), writeFault);
              match write.result
              case Failure(m) => UploadStep(profile, users, Failed(if m == "" then "Failed to create user profile" else m))
              case Success(row) => UploadStep(Some(row), write.table, Uploaded(row))
  }

  /** Changing the avatar of a loaded profile keeps its name, bio, links and
      subscriptions. */
  lemma AvatarUpdateKeepsProfile(profile: Store.UserRow, addr: string, file: UserSetup.ImageFile,
                                 url: string, users: Store.Table<Store.UserRow>)
    requires addr in users
    requires UploadAvatar(Some(profile), Some(addr), Some(file), Success(url), users, None).outcome.Uploaded?
    ensures var after := UploadAvatar(Some(profile), Some(addr), Some(file), Success(url), users, None).users[addr];
      && after.displayName == users[addr].displayName && after.bio == users[addr].bio
      && after.socialLinks == users[addr].socialLinks && after.channels == users[addr].channels
      && after.avatar == Some(url)
  {
  }

  /** A file the setup dialog would reject is rejected here too, with the same
      message and before any upload. */
  lemma SameChecksAsSetup(profile: Option<Store.UserRow>, addr: string, file: UserSetup.ImageFile,
                          upload: Result<string, string>, users: Store.Table<Store.UserRow>, writeFault: Option<string>)
    requires addr != ""
    ensures var s := UploadAvatar(profile, Some(addr), Some(file), upload, users, writeFault);
      UserSetup.SelectAvatar(UserSetup.InitialForm, Some(file), "").avatarFile.None? <==> s.outcome.Refused? && s.outcome.message in {UserSetup.NotAnImage, UserSetup.ImageTooLarge}
  {
    assert UserSetup.NotAnImage != "Failed to upload image" && UserSetup.ImageTooLarge != "Failed to upload image";
  }
}
