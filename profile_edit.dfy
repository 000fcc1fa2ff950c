/** The profile page: the form is filled from the user's `profiles` row
    (missing text as empty fields), an avatar is uploaded under a path made
    from the user id and the file's extension, and saving writes the fields
    back (empty phone and location as null) before going to the dashboard.
    The avatar's initials come from the user's name. */
module ProfileEdit {
  import opened Js
  import opened Ui
  import opened Text

  // -------------------------------------------------------------------
  // Initials
  // -------------------------------------------------------------------

  /** `n[0]` joined: the first character of a word, nothing for an empty one. */
  function FirstChar(w: string): (r: string)
    ensures |r| <= 1
  {
    if w == [] then [] else [w[0]]
  }

  /** `words.map(n => n[0]).join("")`. */
  function FirstChars(words: seq<string>): string {
    if words == [] then [] else FirstChars(words[..|words| - 1]) + FirstChar(Last(words))
  }

  /** The reference definition: the characters of `s` that start a word,
      that is, that are not a space and follow a space or the start. */
  function WordStarts(s: string): (r: string)
    ensures ' ' !in r
  {
    if s == [] then []
    else
      var n := |s|;
      WordStarts(s[..n - 1]) + (if s[n - 1] != ' ' && (n == 1 || s[n - 2] == ' ') then [s[n - 1]] else [])
  }

  /** Splitting on spaces and taking first characters picks out exactly the
      word starts: the empty words that repeated spaces make contribute
      nothing. */
  lemma {:induction false} FirstCharsOfSplit(s: string)
    ensures FirstChars(Split(s, ' ')) == WordStarts(s)
    decreases |s|
  {
    if s != [] {
      var s' := s[..|s| - 1];
      FirstCharsOfSplit(s');
      if Last(s) == ' ' {
        FirstCharsSnoc(Split(s', ' '), "");
      } else {
        var init := Split(s', ' ');
        var k := |init| - 1;
        assert init[..k] + [Last(init)] == init;
        SplitPopIsAfterLast(s', ' ');
        FirstCharsExtendLast(init[..k], Last(init), Last(s));
      }
    }
  }

  /** One more word adds its first character. */
  lemma FirstCharsSnoc(words: seq<string>, w: string)
    ensures FirstChars(words + [w]) == FirstChars(words) + FirstChar(w)
  {
    assert (words + [w])[..|words|] == words;
  }

  /** Extending the last word by a character adds that character exactly
      when the last word was empty. */
  lemma FirstCharsExtendLast(init: seq<string>, w: string, ch: char)
    ensures FirstChars(init + [w + [ch]]) == FirstChars(init + [w]) + (if w == [] then [ch] else [])
  {
    FirstCharsSnoc(init, w + [ch]);
    FirstCharsSnoc(init, w);
  }

  /** `getInitials`: the word starts, upper-cased, at most two. */
  function Initials(name: string): (r: string)
    ensures |r| <= 2
  {
    var all := ToUpper(FirstChars(Split(name, ' ')));
    if |all| <= 2 then all else all[..2]
  }

  /** The initials are the first two word starts of the name, upper-cased. */
  lemma InitialsAreWordStarts(name: string)
    ensures |Initials(name)| == if |WordStarts(name)| <= 2 then |WordStarts(name)| else 2
    ensures forall i :: 0 <= i < |Initials(name)| ==> Initials(name)[i] == UpperChar(WordStarts(name)[i])
  {
    FirstCharsOfSplit(name);
  }

  // -------------------------------------------------------------------
  // Load and save
  // -------------------------------------------------------------------

  /** The `profiles` columns the page reads. */
  datatype ProfileRow = ProfileRow(fullName: Option<string>, phone: Option<string>, location: Option<string>,
                                   avatarUrl: Option<string>)

  /** The form fields. */
  datatype ProfileForm = ProfileForm(fullName: string, phone: string, location: string, avatarUrl: Option<string>)

  /** `fetchProfile`'s conversion: missing text becomes an empty field. */
  function LoadedForm(row: ProfileRow): (f: ProfileForm)
    ensures f.avatarUrl == row.avatarUrl
    ensures f.phone == "" <==> row.phone.None? || row.phone == Some("")
    ensures row.phone.Some? ==> f.phone == row.phone.value
  {
    ProfileForm(OrEmpty(row.fullName), OrEmpty(row.phone), OrEmpty(row.location), row.avatarUrl)
  }

  /** The update `handleSave` sends. */
  datatype ProfileUpdate = ProfileUpdate(userId: string, fullName: string, phone: Option<string>,
                                         location: Option<string>, avatarUrl: Option<string>)

  /** `handleSave`'s conversion: the name as typed, an empty phone or
      location as null. */
  function SavedUpdate(userId: string, f: ProfileForm): (u: ProfileUpdate)
    ensures u.fullName == f.fullName && u.avatarUrl == f.avatarUrl
    ensures u.phone.None? <==> f.phone == ""
    ensures u.location.None? <==> f.location == ""
  {
    ProfileUpdate(userId, f.fullName, OrNull(f.phone), OrNull(f.location), f.avatarUrl)
  }

  /** Loading and saving without edits writes back what was stored, except
      that a stored empty phone or location comes back null and a missing
      name comes back empty. */
  lemma LoadSaveRoundTrip(userId: string, row: ProfileRow)
    ensures SavedUpdate(userId, LoadedForm(row)).phone == (if row.phone == Some("") then None else row.phone)
    ensures SavedUpdate(userId, LoadedForm(row)).location == (if row.location == Some("") then None else row.location)
    ensures SavedUpdate(userId, LoadedForm(row)).fullName == OrEmpty(row.fullName)
    ensures SavedUpdate(userId, LoadedForm(row)).avatarUrl == row.avatarUrl
  {
    NullEmptyRoundTrip(row.phone, "");
    NullEmptyRoundTrip(row.location, "");
  }

  /** `avatars/${user.id}.${fileExt}`. */
  function AvatarPath(userId: string, fileName: string): (r: string)
    ensures StartsWith(r, "avatars/")
  {
    "avatars/" + userId + "." + FileExtension(fileName)
  }

  /** The avatar keeps the file's extension, and a user's avatar path does
      not depend on the rest of the file name: a new upload replaces the old
      one when the extensions agree. */
  lemma AvatarPathProperties(userId: string, name1: string, name2: string)
    ensures AfterLast(AvatarPath(userId, name1), '.') == FileExtension(name1)
    ensures FileExtension(name1) == FileExtension(name2) ==> AvatarPath(userId, name1) == AvatarPath(userId, name2)
  {
    assert AvatarPath(userId, name1) == ("avatars/" + userId) + ['.'] + FileExtension(name1);
    AfterLastOfJoin("avatars/" + userId, '.', FileExtension(name1));
  }

  class ProfileEditor {
    var loading: bool
    var saving: bool
    var uploading: bool
    var form: ProfileForm
    var uploads: seq<string>
    var writes: seq<ProfileUpdate>
    var toasts: seq<Toast>
    var navigations: seq<string>

    constructor ()
      ensures loading && !saving && !uploading && form == ProfileForm("", "", "", None)
      ensures uploads == [] && writes == [] && toasts == [] && navigations == []
    {
      loading, saving, uploading := true, false, false;
      form := ProfileForm("", "", "", None);
      uploads, writes, toasts, navigations := [], [], [], [];
    }

    /** The profile effect: runs only with a signed-in user; `data` is the
        row the query found. Without a user the page keeps loading. */
    method FetchProfile(user: Option<string>, data: Option<ProfileRow>)
      modifies this
      ensures user.None? ==> loading == old(loading) && form == old(form)
      ensures user.Some? ==> !loading && form == (if data.Some? then LoadedForm(data.value) else old(form))
      ensures saving == old(saving) && uploading == old(uploading) && uploads == old(uploads)
      ensures writes == old(writes) && toasts == old(toasts) && navigations == old(navigations)
    {
      if user.None? {
        return;
      }
      if data.Some? {
        form := LoadedForm(data.value);
      }
      loading := false;
    }

    /** `handleAvatarUpload` with the chosen file's name, the upload's answer
        and the public URL of the stored file. */
    method HandleAvatarUpload(fileName: Option<string>, user: Option<string>, upload: WriteOutcome, publicUrl: string)
      modifies this
      ensures fileName.None? || user.None? ==>
        uploads == old(uploads) && form == old(form) && toasts == old(toasts) && uploading == old(uploading)
      ensures fileName.Some? && user.Some? ==>
        uploads == old(uploads) + [AvatarPath(user.value, fileName.value)] && !uploading
      ensures fileName.Some? && user.Some? && upload.WriteFailed? ==>
        form == old(form) && toasts == old(toasts) + [Toast("Upload failed", upload.error.message, true)]
      ensures fileName.Some? && user.Some? && upload.Written? ==>
        form == old(form).(avatarUrl := Some(publicUrl))
        && toasts == old(toasts) + [Toast("Avatar uploaded", "Your profile photo has been updated.", false)]
      ensures loading == old(loading) && saving == old(saving) && writes == old(writes) && navigations == old(navigations)
    {
      if fileName.None? || user.None? {
        return;
      }
      uploading := true;
      uploads := uploads + [AvatarPath(user.value, fileName.value)];
      if upload.WriteFailed? {
        toasts := toasts + [Toast("Upload failed", upload.error.message, true)];
      } else {
        form := form.(avatarUrl := Some(publicUrl));
        toasts := toasts + [Toast("Avatar uploaded", "Your profile photo has been updated.", false)];
      }
      uploading := false;
    }

    /** `handleSave`: the update is sent; on success the page goes to the
        dashboard, on failure the error is shown; `saving` is reset either
        way. */
    method HandleSave(user: Option<string>, result: WriteOutcome)
      modifies this
      ensures user.None? ==>
        writes == old(writes) && toasts == old(toasts) && navigations == old(navigations) && saving == old(saving)
      ensures user.Some? ==> writes == old(writes) + [SavedUpdate(user.value, old(form))] && !saving
      ensures user.Some? && result.WriteFailed? ==>
        navigations == old(navigations) && toasts == old(toasts) + [Toast("Error", result.error.message, true)]
      ensures user.Some? && result.Written? ==>
        navigations == old(navigations) + ["/dashboard"]
        && toasts == old(toasts) + [Toast("Profile updated", "Your profile has been saved successfully.", false)]
      ensures form == old(form) && loading == old(loading) && uploading == old(uploading) && uploads == old(uploads)
    {
      if user.None? {
        return;
      }
      saving := true;
      writes := writes + [SavedUpdate(user.value, form)];
      if result.WriteFailed? {
        toasts := toasts + [Toast("Error", result.error.message, true)];
      } else {
        toasts := toasts + [Toast("Profile updated", "Your profile has been saved successfully.", false)];
        navigations := navigations + ["/dashboard"];
      }
      saving := false;
    }
  }
}
