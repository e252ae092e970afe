/** The first-time profile dialog: a username checked by ordered rules, an
    optional avatar image, a close rule that traps first-time users, and a
    submit that writes the profile while keeping what the store already has.

    The uniqueness query and the image upload are inputs: `unique` is what
    the uniqueness query answered (a failure is a thrown error) and `upload`
    what the upload returned. */
module UserSetup {
  import opened Common
  import Store

  // ---------------------------------------------------------------------------
  // Username rules

  const UsernameRequired := "Username is required"
  const UsernameTooShort := "Username must be at least 3 characters"
  const UsernameTooLong := "Username must be less than 30 characters"
  const UsernameBadChars := "Username can only contain letters, numbers, underscores, and hyphens"
  const UsernameTaken := "This username is already taken"
  const UsernameUnchecked := "Failed to check username availability"

  /** One character of the class `[a-zA-Z0-9_-]`. */
  predicate UsernameChar(c: char) {
    ('a' <= c <= 'z') || ('A' <= c <= 'Z') || ('0' <= c <= '9') || c == '_' || c == '-'
  }

  /** The whole string matches `^[a-zA-Z0-9_-]+$`. */
  predicate MatchesUsernamePattern(s: string) {
    |s| > 0 && forall i :: 0 <= i < |s| ==> UsernameChar(s[i])
  }

  /** The username rules on the trimmed input, in order; the first that fails
      is the one reported. Lengths are JavaScript lengths, counted in UTF-16
      code units. The uniqueness answer matters only once every earlier rule
      has passed. */
  function UsernameError(displayName: string, unique: Result<bool, string>): (e: Option<string>)
    ensures Trim(displayName) == [] ==> e == Some(UsernameRequired)
    ensures 0 < Utf16Length(Trim(displayName)) < 3 ==> e == Some(UsernameTooShort)
    ensures Utf16Length(Trim(displayName)) > 30 ==> e == Some(UsernameTooLong)
    ensures 3 <= Utf16Length(Trim(displayName)) <= 30 && !MatchesUsernamePattern(Trim(displayName)) ==> e == Some(UsernameBadChars)
    ensures e.Some? ==> e.value in {UsernameRequired, UsernameTooShort, UsernameTooLong, UsernameBadChars, UsernameTaken, UsernameUnchecked}
  {
    var t := Trim(displayName);
    if t == [] then Some(UsernameRequired)
    else if Utf16Length(t) < 3 then Some(UsernameTooShort)
    else if Utf16Length(t) > 30 then Some(UsernameTooLong)
    else if !MatchesUsernamePattern(t) then Some(UsernameBadChars)
    else match unique
      case Failure(_) => Some(UsernameUnchecked)
      case Success(isUnique) => if isUnique then None else Some(UsernameTaken)
  }

  /** The allowed class is ASCII, so a name that matches it is as long in
      UTF-16 code units as in characters. */
  lemma PatternLengthIsUtf16Length(s: string)
    requires forall i :: 0 <= i < |s| ==> UsernameChar(s[i])
    ensures Utf16Length(s) == |s|
  {
    assert forall i :: 0 <= i < |s| ==> !Astral(s[i]);
  }

  /** A username is accepted exactly when its trimmed form has 3 to 30
      characters, all from the allowed class, and the store says it is free. */
  lemma UsernameAcceptedIff(displayName: string, unique: Result<bool, string>)
    ensures UsernameError(displayName, unique).None? <==>
      && 3 <= |Trim(displayName)| <= 30
      && (forall i :: 0 <= i < |Trim(displayName)| ==> UsernameChar(Trim(displayName)[i]))
      && unique == Success(true)
  {
    var t := Trim(displayName);
    if forall i :: 0 <= i < |t| ==> UsernameChar(t[i]) {
      PatternLengthIsUtf16Length(t);
    } else {
      assert !MatchesUsernamePattern(t);
      assert UsernameError(displayName, unique).Some?;
    }
  }

  /** The length bound is inclusive: 30 characters pass it and 31 do not,
      whatever the uniqueness answer. */
  lemma UsernameLengthBoundary(displayName: string, unique: Result<bool, string>)
    ensures |Trim(displayName)| == 30 && MatchesUsernamePattern(Trim(displayName)) && unique == Success(true) ==>
      UsernameError(displayName, unique).None?
    ensures |Trim(displayName)| == 31 ==> UsernameError(displayName, unique) == Some(UsernameTooLong)
  {
    var t := Trim(displayName);
    if MatchesUsernamePattern(t) {
      PatternLengthIsUtf16Length(t);
    }
  }

  /** Characters outside the Basic Multilingual Plane (emoji, say) count
      twice: a name of them is too short at one, fails only the class from
      two to fifteen, and is too long beyond that. */
  lemma AstralCountsTwice(displayName: string, unique: Result<bool, string>)
    requires forall i :: 0 <= i < |Trim(displayName)| ==> Astral(Trim(displayName)[i])
    ensures |Trim(displayName)| == 1 ==> UsernameError(displayName, unique) == Some(UsernameTooShort)
    ensures 2 <= |Trim(displayName)| <= 15 ==> UsernameError(displayName, unique) == Some(UsernameBadChars)
    ensures |Trim(displayName)| > 15 ==> UsernameError(displayName, unique) == Some(UsernameTooLong)
  {
    AstralNameFacts(Trim(displayName));
    DoubledLengthRules(displayName, unique);
  }

  /** A name of astral characters is twice as long in UTF-16 and does not
      start with an allowed character. */
  lemma AstralNameFacts(s: string)
    requires forall i :: 0 <= i < |s| ==> Astral(s[i])
    ensures Utf16Length(s) == 2 * |s|
    ensures s != [] ==> !UsernameChar(s[0])
  {
  }

  /** The rules for a trimmed name whose UTF-16 length is twice its length
      and whose first character is not allowed. */
  lemma DoubledLengthRules(displayName: string, unique: Result<bool, string>)
    requires Utf16Length(Trim(displayName)) == 2 * |Trim(displayName)|
    requires Trim(displayName) != [] ==> !UsernameChar(Trim(displayName)[0])
    ensures |Trim(displayName)| == 1 ==> UsernameError(displayName, unique) == Some(UsernameTooShort)
    ensures 2 <= |Trim(displayName)| <= 15 ==> UsernameError(displayName, unique) == Some(UsernameBadChars)
    ensures |Trim(displayName)| > 15 ==> UsernameError(displayName, unique) == Some(UsernameTooLong)
  {
  }

  /** Surrounding whitespace is ignored, but whitespace inside fails the class. */
  lemma InnerSpaceIsRejected(a: string, b: string, unique: Result<bool, string>)
    requires MatchesUsernamePattern(a) && MatchesUsernamePattern(b) && 2 <= |a| + |b| <= 29
    ensures UsernameError(a + " " + b, unique) == Some(UsernameBadChars)
  {
    SpacedNameTrim(a, b);
    SpacedNameLength(a, b);
    SpacedNameOutsideClass(a, b);
    BadCharsRule(a + " " + b, unique);
  }

  /** Two allowed names joined by a space are their own trim. */
  lemma SpacedNameTrim(a: string, b: string)
    requires MatchesUsernamePattern(a) && MatchesUsernamePattern(b)
    ensures Trim(a + " " + b) == a + " " + b
  {
    var s := a + " " + b;
    assert !IsSpace(s[0]) && !IsSpace(s[|s| - 1]);
    TrimKeepsUnpadded(s);
  }

  /** Two allowed names joined by a space are as long in UTF-16 as in
      characters. */
  lemma SpacedNameLength(a: string, b: string)
    requires MatchesUsernamePattern(a) && MatchesUsernamePattern(b)
    ensures Utf16Length(a + " " + b) == |a| + |b| + 1
  {
    PatternLengthIsUtf16Length(a);
    PatternLengthIsUtf16Length(b);
    Utf16LengthAppend(a, " ");
    Utf16LengthAppend(a + " ", b);
    assert Utf16Length(" ") == 1;
  }

  /** Two names joined by a space are outside the class. */
  lemma SpacedNameOutsideClass(a: string, b: string)
    ensures !MatchesUsernamePattern(a + " " + b)
  {
    assert (a + " " + b)[|a|] == ' ';
  }

  /** The class rule for a trimmed name whose length passes. */
  lemma BadCharsRule(displayName: string, unique: Result<bool, string>)
    requires 3 <= Utf16Length(Trim(displayName)) <= 30 && !MatchesUsernamePattern(Trim(displayName))
    ensures UsernameError(displayName, unique) == Some(UsernameBadChars)
  {
  }

  /** A string that neither starts nor ends with whitespace is its own trim. */
  lemma TrimKeepsUnpadded(s: string)
    requires s != [] && !IsSpace(s[0]) && !IsSpace(s[|s| - 1])
    ensures Trim(s) == s
  {
  }

  /** When the uniqueness query itself fails the form is invalid. */
  lemma UniquenessFailureBlocks(displayName: string, m: string)
    ensures UsernameError(displayName, Failure(m)).Some?
  {
  }

  // ---------------------------------------------------------------------------
  // Avatar file

  /** The part of a chosen file the checks look at. */
  datatype ImageFile = ImageFile(name: string, mimeType: string, size: nat)

  const MaxAvatarBytes := 5 * 1024 * 1024
  const NotAnImage := "Please select an image file"
  const ImageTooLarge := "Image size must be less than 5MB"

  /** The avatar checks in order: an image type first, then at most 5 MiB. */
  function AvatarError(f: ImageFile): (e: Option<string>)
    ensures e.None? <==> StartsWith(f.mimeType, "image/") && f.size <= 5242880
    ensures !StartsWith(f.mimeType, "image/") ==> e == Some(NotAnImage)
    ensures StartsWith(f.mimeType, "image/") && f.size > 5242880 ==> e == Some(ImageTooLarge)
  {
    if !StartsWith(f.mimeType, "image/") then Some(NotAnImage)
    else if f.size > MaxAvatarBytes then Some(ImageTooLarge)
    else None
  }

  // ---------------------------------------------------------------------------
  // Dialog state

  datatype SetupErrors = SetupErrors(displayName: Option<string>, avatar: Option<string>)

  /** The dialog's state; `avatar` is the preview (a data URL once a file is
      read) and `submitted` the success flag that lets the dialog close. */
  datatype SetupForm = SetupForm(
    displayName: string,
    avatar: string,
    avatarFile: Option<ImageFile>,
    errors: SetupErrors,
    submitted: bool)

  const InitialForm := SetupForm("", "", None, SetupErrors(None, None), false)

  /** Opening the dialog clears the success flag. */
  function Open(st: SetupForm): (r: SetupForm)
    ensures !r.submitted && r == st.(submitted := false)
  {
    st.(submitted := false)
  }

  /** The file currently selected passed the checks (or there is none). */
  predicate SelectionValid(st: SetupForm) {
    st.avatarFile.None? || AvatarError(st.avatarFile.value).None?
  }

  /** `handleAvatarSelect`: no file does nothing; a rejected file only sets
      the avatar error; an accepted file is selected, its error cleared and
      `preview` (what the file reader produced) shown. */
  function SelectAvatar(st: SetupForm, file: Option<ImageFile>, preview: string): (r: SetupForm)
    ensures file.None? ==> r == st
    ensures file.Some? && AvatarError(file.value).Some? ==>
      r == st.(errors := st.errors.(avatar := AvatarError(file.value)))
    ensures file.Some? && AvatarError(file.value).None? ==>
      r.avatarFile == file && r.avatar == preview && r.errors.avatar.None? && r.displayName == st.displayName
  {
    match file
    case None => st
    case Some(f) =>
      match AvatarError(f)
      case Some(e) => st.(errors := st.errors.(avatar := Some(e)))
      case None => st.(avatarFile := Some(f), avatar := preview, errors := st.errors.(avatar := None))
  }

  /** Selecting never leaves a rejected file selected. */
  lemma SelectAvatarKeepsSelectionValid(st: SetupForm, file: Option<ImageFile>, preview: string)
    requires SelectionValid(st)
    ensures SelectionValid(SelectAvatar(st, file, preview))
    ensures SelectAvatar(st, file, preview).avatarFile in {st.avatarFile, file}
  {
  }

  /** The dialog's close request: honoured after a successful submit,
      ignored during first-time setup, honoured otherwise. */
  function CloseHonoured(submitted: bool, isFirstTime: bool): (close: bool)
    ensures close <==> submitted || !isFirstTime
  {
    if submitted then true
    else if isFirstTime then false
    else true
  }

  // ---------------------------------------------------------------------------
  // Submit

  /** The outcomes of the external calls one submit makes. */
  datatype SubmitWorld = SubmitWorld(
    unique: Result<bool, string>,
    upload: Result<string, string>,
    readFault: Option<string>,
    upsertReadFault: Option<string>,
    upsertWriteFault: Option<string>)

  datatype SubmitOutcome =
    | NoWallet
    | Invalid(error: string)
    | UploadEmpty
    | Threw(message: string)
    | Saved(row: Store.UserRow)

  datatype SubmitStep = SubmitStep(form: SetupForm, users: Store.Table<Store.UserRow>, outcome: SubmitOutcome)

  /** The message shown for a thrown error. */
  function ThrownMessage(m: string): (r: string)
    ensures r != ""
    ensures m != "" ==> r == m
  {
    if m == "" then "Failed to setup profile" else m
  }

  /** The row the submit writes: the trimmed name and the avatar URL, with
      bio, links and subscriptions carried over from the existing profile. */
  function SetupRow(addr: string, displayName: string, avatarUrl: string, existing: Option<Store.UserRow>): (row: Store.UserRow)
    ensures row.creatorId == addr && row.displayName == Some(Trim(displayName)) && row.avatar == Some(avatarUrl)
    ensures existing.None? ==> row.bio.None? && row.socialLinks == [] && row.channels == []
    ensures existing.Some? ==>
      && row.channels == existing.value.channels
      && row.socialLinks == existing.value.socialLinks
      && (Present(existing.value.bio) ==> row.bio == existing.value.bio)
      && (!Present(existing.value.bio) ==> row.bio.None?)
  {
    match existing
    case None => Store.UserRow(addr, Some(Trim(displayName)), None, Some(avatarUrl), [], [])
    case Some(p) => Store.UserRow(addr, Some(Trim(displayName)), OrElse(p.bio, None), Some(avatarUrl), p.socialLinks, p.channels)
  }

  /** `handleSubmit`: wallet first, then the username rules (which replace all
      field errors), then the optional upload, the profile read and the upsert. */
  function Submit(st: SetupForm, creatorAddress: Option<string>, world: SubmitWorld, users: Store.Table<Store.UserRow>): (s: SubmitStep)
    ensures s.outcome == NoWallet <==> !Present(creatorAddress)
    ensures s.outcome.Invalid? <==> Present(creatorAddress) && UsernameError(st.displayName, world.unique).Some?
    ensures s.outcome.Invalid? ==> s.outcome.error == UsernameError(st.displayName, world.unique).value
    ensures !s.outcome.Saved? ==> s.users == users && s.form.submitted == st.submitted
    ensures s.outcome.Saved? ==>
      && s.form.submitted
      && s.outcome.row.creatorId == creatorAddress.value
      && s.users == users[creatorAddress.value := s.outcome.row]
      && s.outcome.row.displayName == Some(Trim(st.displayName))
    ensures s.outcome.Saved? <==>
      && Present(creatorAddress) && UsernameError(st.displayName, world.unique).None?
      && (st.avatarFile.Some? ==> world.upload.Success? && world.upload.value != "")
      && world.readFault.None? && world.upsertReadFault.None? && world.upsertWriteFault.None?
  {
    if !Present(creatorAddress) then SubmitStep(st, users, NoWallet)
    else
      var addr := creatorAddress.value;
      match UsernameError(st.displayName, world.unique)
      case Some(e) => SubmitStep(st.(errors := SetupErrors(Some(e), None)), users, Invalid(e))
      case None =>
        var checked := st.(errors := SetupErrors(None, None));
        var avatarUrl: Result<string, SubmitOutcome> :=
          if st.avatarFile.None? then Success(st.avatar)
          else match world.upload
            case Failure(m) => Failure(Threw(ThrownMessage(m)))
            case Success(url) => if url == "" then Failure(UploadEmpty) else Success(url);
        match avatarUrl
        case Failure(outcome) => SubmitStep(checked, users, outcome)
        case Success(url) =>
          match Store.GetUserProfile(users, addr, world.readFault)
          case Failure(m) => SubmitStep(checked, users, Threw(ThrownMessage(m)))
          case Success(existing) =>
            var row := SetupRow(addr, st.displayName, url, existing);
            var write := Store.UpsertUserProfile(users, row, world.upsertReadFault, world.upsertWriteFault);
            match write.result
            case Failure(m) => SubmitStep(checked, users, Threw(ThrownMessage(m)))
            case Success(_) => SubmitStep(checked.(submitted := true), write.table, Saved(row))
  }

  /** A successful submit keeps the subscriptions, links and bio the profile
      already had and touches no other profile. */
  lemma SubmitPreservesProfile(st: SetupForm, addr: string, world: SubmitWorld, users: Store.Table<Store.UserRow>)
    requires addr != "" && addr in users
    requires Submit(st, Some(addr), world, users).outcome.Saved?
    ensures var after := Submit(st, Some(addr), world, users).users;
      && addr in after
      && after[addr].channels == users[addr].channels
      && after[addr].socialLinks == users[addr].socialLinks
      && (Present(users[addr].bio) ==> after[addr].bio == users[addr].bio)
      && (forall k :: k in users && k != addr ==> k in after && after[k] == users[k])
  {
  }

  /** After a successful submit the dialog can close, even in first-time
      setup. */
  lemma SavedDialogCloses(st: SetupForm, creatorAddress: Option<string>, world: SubmitWorld, users: Store.Table<Store.UserRow>)
    requires Submit(st, creatorAddress, world, users).outcome.Saved?
    ensures CloseHonoured(Submit(st, creatorAddress, world, users).form.submitted, true)
  {
  }

  /** A failed uniqueness query, like any username rule, stops the submit
      before any write. */
  lemma UniquenessFailureWritesNothing(st: SetupForm, creatorAddress: Option<string>, world: SubmitWorld, users: Store.Table<Store.UserRow>)
    requires world.unique.Failure?
    ensures Submit(st, creatorAddress, world, users).users == users
    ensures !Submit(st, creatorAddress, world, users).outcome.Saved?
  {
  }
}
