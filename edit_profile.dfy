/** The profile editor (features/profile/ui/edit-profile-modal.tsx): the
    form filled from the current profile, the filtered username field, and
    the avatar URL the submit saves. The avatar upload, the clock and the
    profile update are parameters; the preview that `FileReader` produces is
    outside the model. */
module EditProfile {
  import opened Common
  import opened Types
  import Username

  datatype FormData = FormData(fullName: string, username: string, bio: string, website: string)

  /** The fields `updateUserProfile` is called with. */
  datatype ProfileUpdate = ProfileUpdate(form: FormData, avatarUrl: Option<string>)

  /** The form as the open modal fills it: each field from the profile, a
      null or empty one as "". */
  function InitialForm(p: Profile): (f: FormData)
    ensures f.username == p.username
    ensures f.fullName == (if Truthy(p.fullName) then p.fullName.value else "")
    ensures f.bio == (if Truthy(p.bio) then p.bio.value else "")
    ensures f.website == (if Truthy(p.website) then p.website.value else "")
  {
    FormData(OrElse(p.fullName, ""), OrElse(Some(p.username), ""), OrElse(p.bio, ""), OrElse(p.website, ""))
  }

  /** `${publicUrl}?t=${Date.now()}`. */
  function CacheBustedUrl(publicUrl: string, now: nat): string {
    (publicUrl + "?t") + ['='] + NatToString(now)
  }

  /** The URL is the public URL followed by a `t` parameter. */
  lemma CacheBustedUrlPrefix(publicUrl: string, now: nat)
    ensures StartsWith(CacheBustedUrl(publicUrl, now), publicUrl + "?t=")
  {
    var head := publicUrl + "?t";
    var url := CacheBustedUrl(publicUrl, now);
    assert head + ['='] == publicUrl + "?t=";
    assert url[..|head + ['=']|] == head + ['='];
  }

  /** The `t` parameter's value, the text after the last '=', is the clock
      reading. */
  lemma CacheBustedUrlValue(publicUrl: string, now: nat)
    ensures LastSegment(CacheBustedUrl(publicUrl, now), '=') == NatToString(now)
  {
    var digits := NatToString(now);
    DigitsLackSeparator(digits, '=');
    LastSegmentAfter(publicUrl + "?t", '=', digits);
  }

  /** Two uploads at different times are saved under different URLs, so a
      cached old avatar is never shown for the new one. */
  lemma CacheBustedUrlsDiffer(url1: string, url2: string, t1: nat, t2: nat)
    requires t1 != t2
    ensures CacheBustedUrl(url1, t1) != CacheBustedUrl(url2, t2)
  {
    if CacheBustedUrl(url1, t1) == CacheBustedUrl(url2, t2) {
      CacheBustedUrlValue(url1, t1);
      CacheBustedUrlValue(url2, t2);
      NatToStringInjective(t1, t2);
    }
  }

  /** The `avatar_url` sent: the new upload's URL when a file was chosen,
      the profile's own otherwise. `uploaded` is the chosen file's public URL
      and the clock reading, when there is a file. */
  function SavedAvatarUrl(current: Option<string>, uploaded: Option<(string, nat)>): (r: Option<string>)
    ensures uploaded.None? ==> r == current
    ensures uploaded.Some? ==> r == Some(CacheBustedUrl(uploaded.value.0, uploaded.value.1))
  {
    var avatarUrl := if uploaded.Some? then Some(CacheBustedUrl(uploaded.value.0, uploaded.value.1)) else current;
    // `avatarUrl || currentUser.avatar_url`
    if Truthy(avatarUrl) then avatarUrl else current
  }

  /** What `handleSubmit` does for a signed-in user: the update it asks
      for, if it gets that far, and whether it succeeds (then `onSuccess`
      and `onClose` run). `upload` is what `uploadAvatar` returns or throws
      when a file was chosen; `update` what `updateUserProfile` does. */
  function Submit(user: Profile, form: FormData, avatarFile: Option<File>, upload: Result<string>, now: nat,
                  update: Result<()>): (r: (Option<ProfileUpdate>, bool))
    ensures r.1 ==> r.0.Some?
    ensures r.0.None? <==> avatarFile.Some? && upload.Err?
    ensures r.0.Some? ==> r.0.value.form == form
    ensures r.0.Some? && avatarFile.None? ==> r.0.value.avatarUrl == user.avatarUrl
    ensures r.0.Some? && avatarFile.Some? ==> r.0.value.avatarUrl == Some(CacheBustedUrl(upload.value, now))
    ensures r.1 <==> r.0.Some? && update.Ok?
  {
    if avatarFile.Some? && upload.Err? then (None, false)
    else
      var uploaded := if avatarFile.Some? then Some((upload.value, now)) else None;
      (Some(ProfileUpdate(form, SavedAvatarUrl(user.avatarUrl, uploaded))), update.Ok?)
  }

  class Modal {
    var currentUser: Option<Profile>
    var isOpen: bool
    var loading: bool
    var avatarFile: Option<File>
    var avatarPreview: string
    var form: FormData

    constructor (currentUser: Option<Profile>, isOpen: bool)
      ensures this.currentUser == currentUser && this.isOpen == isOpen
      ensures !loading && avatarFile.None? && avatarPreview == "" && form == FormData("", "", "", "")
    {
      this.currentUser := currentUser;
      this.isOpen := isOpen;
      loading := false;
      avatarFile := None;
      avatarPreview := "";
      form := FormData("", "", "", "");
    }

    /** The effect that runs when the user or `isOpen` changes. */
    method Sync()
      modifies this`form, this`avatarPreview
      ensures currentUser.Some? && isOpen ==>
        form == InitialForm(currentUser.value) && avatarPreview == OrElse(currentUser.value.avatarUrl, "")
      ensures !(currentUser.Some? && isOpen) ==> form == old(form) && avatarPreview == old(avatarPreview)
    {
      if currentUser.Some? && isOpen {
        form := InitialForm(currentUser.value);
        avatarPreview := OrElse(currentUser.value.avatarUrl, "");
      }
    }

    /** `handleAvatarChange`: a chosen file replaces the pending one; no
        file keeps it. */
    method ChooseAvatar(file: Option<File>)
      modifies this`avatarFile
      ensures avatarFile == if file.Some? then file else old(avatarFile)
    {
      if file.Some? {
        avatarFile := file;
      }
    }

    /** The username field's `onChange`. */
    method SetUsername(input: string)
      modifies this`form
      ensures form == old(form).(username := Username.Sanitize(input))
    {
      form := form.(username := Username.Sanitize(input));
    }

    /** `handleSubmit`. Returns the update it asks for and whether the
        success callbacks run; without a user nothing happens. */
    method HandleSubmit(upload: Result<string>, now: nat, update: Result<()>)
      returns (request: Option<ProfileUpdate>, succeeded: bool)
      modifies this`loading
      ensures currentUser.None? ==> request.None? && !succeeded && loading == old(loading)
      ensures currentUser.Some? ==>
        (request, succeeded) == Submit(currentUser.value, form, avatarFile, upload, now, update) && !loading
    {
      if currentUser.None? {
        return None, false;
      }
      loading := true;
      var user := currentUser.value;
      var avatarUrl := user.avatarUrl;
      if avatarFile.Some? {
        if upload.Err? {
          loading := false;
          return None, false;
        }
        avatarUrl := Some(CacheBustedUrl(upload.value, now));
      }
      request := Some(ProfileUpdate(form, if Truthy(avatarUrl) then avatarUrl else user.avatarUrl));
      succeeded := update.Ok?;
      loading := false;
    }
  }
}
