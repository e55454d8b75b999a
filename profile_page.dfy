/**
 * The profile page (app/profile/page.tsx): the initials drawn from a name,
 * the profile a Google sign-in is shown with (built from the provider's
 * metadata rather than fetched), and the page's state: the shown profile,
 * the edit form and the editing/saving flags, which loading, saving,
 * cancelling and replacing the avatar update in turn.
 */
module ProfilePage {
  import opened Common
  import opened AuthContext

  // ---------------------------------------------------------------------
  // Initials

  /** A word that `charAt(0)` draws a letter from. */
  predicate NonEmpty(w: string) {
    w != ""
  }

  /** `word.charAt(0)`: the empty string for an empty word. */
  function CharAt0(word: string): string {
    if |word| == 0 then "" else [word[0]]
  }

  /** `words.map(word => word.charAt(0))`. */
  function FirstChars(words: seq<string>): (r: seq<string>)
    ensures |r| == |words|
    ensures forall k :: 0 <= k < |words| ==> r[k] == CharAt0(words[k])
  {
    if |words| == 0 then [] else [CharAt0(words[0])] + FirstChars(words[1..])
  }

  /** The words of a name: its space-separated parts that are not empty. */
  function Words(name: string): (ws: seq<string>)
    ensures forall k :: 0 <= k < |ws| ==> ws[k] != "" && ' ' !in ws[k]
  {
    Filter(Split(name, ' '), NonEmpty)
  }

  lemma JoinEmptySepCons(parts: seq<string>)
    requires |parts| >= 1
    ensures Join(parts, "") == parts[0] + Join(parts[1..], "")
  {
  }

  /**
   * Joining the first characters of the parts with no separator gives the
   * first letters of the non-empty parts, in order: an empty part (two
   * spaces in a row, a leading or trailing space) adds nothing.
   */
  lemma {:induction false} InitialsAreFirstLetters(parts: seq<string>)
    ensures |Join(FirstChars(parts), "")| == |Filter(parts, NonEmpty)|
    ensures forall k :: 0 <= k < |Filter(parts, NonEmpty)| ==>
      Join(FirstChars(parts), "")[k] == Filter(parts, NonEmpty)[k][0]
  {
    if |parts| > 0 {
      var rest := parts[1..];
      InitialsAreFirstLetters(rest);
      assert parts == [parts[0]] + rest;
      FilterCons(parts[0], rest, NonEmpty);
      assert FirstChars(parts)[1..] == FirstChars(rest);
      JoinEmptySepCons(FirstChars(parts));
      InitialsStep(parts[0], Join(FirstChars(rest), ""), Filter(rest, NonEmpty));
    }
  }

  /** One word in front: its first letter, if any, goes in front of the rest's. */
  lemma InitialsStep(word: string, initials: string, words: seq<string>)
    requires |initials| == |words|
    requires forall k :: 0 <= k < |words| ==> |words[k]| > 0 && initials[k] == words[k][0]
    ensures var ws := if NonEmpty(word) then [word] + words else words;
      && |CharAt0(word) + initials| == |ws|
      && forall k :: 0 <= k < |ws| ==> |ws[k]| > 0 && (CharAt0(word) + initials)[k] == ws[k][0]
  {
  }

  /**
   * `getInitials`: the upper-cased first letters of the name's words, in
   * order, cut to at most two characters.
   */
  function GetInitials(name: string): (r: string)
    ensures |r| <= 2
    ensures |r| == if |Words(name)| < 2 then |Words(name)| else 2
    ensures forall k :: 0 <= k < |r| ==> r[k] == UpperChar(Words(name)[k][0])
  {
    InitialsAreFirstLetters(Split(name, ' '));
    var s := Upper(Join(FirstChars(Split(name, ' ')), ""));
    s[..if |s| < 2 then |s| else 2]
  }

  /** `split` of a string without the separator is the string alone. */
  lemma SplitWithout(s: string, c: char)
    requires c !in s
    ensures Split(s, c) == [s]
  {
    assert IndexOf(s, c) == |s|;
  }

  /** Splitting two space-free words joined by one space gives the two words. */
  lemma SplitTwo(first: string, last: string)
    requires ' ' !in first && ' ' !in last
    ensures Split(first + " " + last, ' ') == [first, last]
  {
    var name := first + " " + last;
    assert name[|first|] == ' ';
    assert forall k :: 0 <= k < |first| ==> name[k] == first[k];
    assert IndexOf(name, ' ') == |first|;
    assert name[..|first|] == first && name[|first| + 1..] == last;
    SplitWithout(last, ' ');
  }

  /** A first and a last name, one space apart, give the usual two initials. */
  lemma TwoWordInitials(first: string, last: string)
    requires first != "" && last != ""
    requires ' ' !in first && ' ' !in last
    ensures GetInitials(first + " " + last) == [UpperChar(first[0]), UpperChar(last[0])]
  {
    TwoWords(first, last);
    InitialsOfTwoWords(first + " " + last);
  }

  /** Two space-free words one space apart are the name's words. */
  lemma TwoWords(first: string, last: string)
    requires first != "" && last != ""
    requires ' ' !in first && ' ' !in last
    ensures Words(first + " " + last) == [first, last]
  {
    SplitTwo(first, last);
    FilterCons(first, [last], NonEmpty);
    FilterCons(last, [], NonEmpty);
  }

  /** A name of exactly two words has their upper-cased first letters as initials. */
  lemma InitialsOfTwoWords(name: string)
    requires |Words(name)| == 2
    ensures GetInitials(name) == [UpperChar(Words(name)[0][0]), UpperChar(Words(name)[1][0])]
  {
    var r := GetInitials(name);
    assert |r| == 2;
    assert r[0] == UpperChar(Words(name)[0][0]);
    assert r[1] == UpperChar(Words(name)[1][0]);
  }

  /** A blank name has no initials. */
  lemma BlankNameInitials(n: nat)
    ensures GetInitials(seq(n, _ => ' ')) == ""
  {
    var name := seq(n, _ => ' ');
    var parts := Split(name, ' ');
    forall k | 0 <= k < |parts|
      ensures parts[k] == ""
    {
      assert forall j :: 0 <= j < |parts[k]| ==> parts[k][j] != ' ';
      BlankPart(name, parts, k);
    }
    NoneKept(parts);
  }

  /** Every part of splitting a run of spaces at spaces is empty. */
  lemma BlankPart(name: string, parts: seq<string>, k: nat)
    requires forall j :: 0 <= j < |name| ==> name[j] == ' '
    requires parts == Split(name, ' ') && k < |parts|
    ensures parts[k] == ""
    decreases |name|
  {
    var i := IndexOf(name, ' ');
    if i < |name| {
      assert i == 0;
      if k > 0 {
        BlankPart(name[1..], parts[1..], k - 1);
      }
    }
  }

  lemma {:induction false} NoneKept(parts: seq<string>)
    requires forall k :: 0 <= k < |parts| ==> parts[k] == ""
    ensures Filter(parts, NonEmpty) == []
  {
    if |parts| > 0 {
      NoneKept(parts[1..]);
      assert parts == [parts[0]] + parts[1..];
      FilterCons(parts[0], parts[1..], NonEmpty);
    }
  }

  // ---------------------------------------------------------------------
  // The profile and the edit form

  /** `UserProfile`; the optional fields may be missing. */
  datatype UserProfile = UserProfile(
    id: string,
    email: string,
    name: string,
    phone: Option<string>,
    avatar_url: Option<string>,
    role: Option<string>,
    email_verified: bool,
    is_active: bool,
    provider: Option<string>,
    created_at: string,
    updated_at: string)

  /** The three editable fields of the form, always strings. */
  datatype FormData = FormData(name: string, phone: string, avatar_url: string)

  /** `user.app_metadata?.provider === 'google'`. */
  predicate IsGoogleProvider(u: AuthUser) {
    u.app_metadata.provider == Some("google")
  }

  /** `isGoogleUser`: the shown profile or the signed-in user comes from Google. */
  predicate IsGoogleUser(profile: Option<UserProfile>, user: Option<AuthUser>) {
    (profile.Some? && profile.value.provider == Some("google"))
    || (user.Some? && IsGoogleProvider(user.value))
  }

  /**
   * The profile built for a Google sign-in from the provider's data, `now`
   * standing for `new Date().toISOString()`: the name is the first present
   * of full_name, name and the e-mail's local part, else 'Usuario'; the role
   * defaults to 'buyer'; the account is active and marked as Google's.
   */
  function GoogleProfile(u: AuthUser, now: string): (p: UserProfile)
    ensures p.id == u.id && p.email == u.email.GetOr("")
    ensures p.name != ""
    ensures Truthy(u.user_metadata.full_name) ==> p.name == u.user_metadata.full_name.value
    ensures !Truthy(u.user_metadata.full_name) && Truthy(u.user_metadata.name) ==>
      p.name == u.user_metadata.name.value
    ensures (!Truthy(u.user_metadata.full_name) && !Truthy(u.user_metadata.name)
             && Truthy(EmailLocalPart(u))) ==> p.name == EmailLocalPart(u).value
    ensures (!Truthy(u.user_metadata.full_name) && !Truthy(u.user_metadata.name)
             && !Truthy(EmailLocalPart(u))) ==> p.name == "Usuario"
    ensures p.phone == Some(u.user_metadata.phone.GetOr(""))
    ensures Truthy(u.user_metadata.avatar_url) ==> p.avatar_url == u.user_metadata.avatar_url
    ensures !Truthy(u.user_metadata.avatar_url) && Truthy(u.user_metadata.picture) ==>
      p.avatar_url == u.user_metadata.picture
    ensures !Truthy(u.user_metadata.avatar_url) && !Truthy(u.user_metadata.picture) ==> p.avatar_url == Some("")
    ensures p.role.Some? && p.role.value != ""
    ensures Truthy(u.user_metadata.role) ==> p.role == u.user_metadata.role
    ensures !Truthy(u.user_metadata.role) ==> p.role == Some("buyer")
    ensures p.email_verified <==> Truthy(u.email_confirmed_at)
    ensures p.is_active && p.provider == Some("google")
    ensures p.created_at == (if Truthy(u.created_at) then u.created_at.value else now)
    ensures p.updated_at == (if Truthy(u.updated_at) then u.updated_at.value else now)
  {
    var m := u.user_metadata;
    UserProfile(
      u.id,
      OrElse(u.email, ""),
      OrElse(Or(Or(m.full_name, m.name), EmailLocalPart(u)), "Usuario"),
      Some(OrElse(m.phone, "")),
      Some(OrElse(Or(m.avatar_url, m.picture), "")),
      Some(OrElse(m.role, "buyer")),
      Truthy(u.email_confirmed_at),
      true,
      Some("google"),
      OrElse(u.created_at, now),
      OrElse(u.updated_at, now))
  }

  /**
   * The name on the profile page agrees with the display name the
   * authentication context derives, unless the provider sent only a
   * display_name, which the profile page does not consult; the avatar
   * agrees unless only a photo was sent.
   */
  lemma GoogleProfileAgreesWithContext(u: AuthUser, now: string)
    ensures !Truthy(u.user_metadata.display_name) ==> GoogleProfile(u, now).name == ExtractUserName(u)
    ensures !Truthy(u.user_metadata.photo) ==>
      GoogleProfile(u, now).avatar_url == Some(ExtractAvatarUrl(u).GetOr(""))
  {
  }

  /**
   * The form as loaded from a profile (and as reset by Cancel): every
   * missing field reads as the empty string.
   */
  function FormOf(p: UserProfile): (f: FormData)
    ensures f.name == p.name
    ensures f.phone == p.phone.GetOr("") && f.avatar_url == p.avatar_url.GetOr("")
  {
    FormData(OrElse(Some(p.name), ""), OrElse(p.phone, ""), OrElse(p.avatar_url, ""))
  }

  /** The form shows exactly what the profile holds. */
  predicate InStep(p: UserProfile, f: FormData) {
    f == FormOf(p)
  }

  /** The update `handleSave` sends to `/api/profile`. */
  datatype ProfileUpdate =
    | PhoneUpdate(phone: string)
    | FullUpdate(name: string, phone: string, avatar_url: string)

  /** The fields the page lets its user type into. */
  datatype Field = NameField | PhoneField | AvatarField

  /**
   * The inputs on screen: none outside edit mode; the phone and the avatar
   * URL in edit mode, and the name too unless the user comes from Google.
   */
  function EditableFields(isEditing: bool, googleUser: bool): (fs: set<Field>)
    ensures !isEditing ==> fs == {}
    ensures isEditing ==> PhoneField in fs && AvatarField in fs
    ensures NameField in fs <==> isEditing && !googleUser
  {
    if !isEditing then {}
    else if googleUser then {PhoneField, AvatarField}
    else {NameField, PhoneField, AvatarField}
  }

  // ---------------------------------------------------------------------
  // The page's state

  class ProfilePage {
    var profile: Option<UserProfile>
    var loading: bool
    var isEditing: bool
    var isSaving: bool
    var formData: FormData

    constructor()
      ensures profile.None? && loading && !isEditing && !isSaving
      ensures formData == FormData("", "", "")
    {
      profile := None;
      loading := true;
      isEditing := false;
      isSaving := false;
      formData := FormData("", "", "");
    }

    /**
     * `loadProfile`: a Google user's profile is built from the provider's
     * data; anyone else's is `fetched` from `/api/profile`, and a failed
     * fetch leaves profile and form as they were. Either way the form is
     * loaded from the new profile and loading ends.
     */
    method LoadProfile(user: Option<AuthUser>, now: string, fetched: Result<UserProfile>)
      modifies this
      ensures user.None? ==> unchanged(this)
      ensures user.Some? ==> !loading && isEditing == old(isEditing) && isSaving == old(isSaving)
      ensures user.Some? && IsGoogleProvider(user.value) ==>
        profile == Some(GoogleProfile(user.value, now)) && InStep(profile.value, formData)
      ensures user.Some? && !IsGoogleProvider(user.value) && fetched.Ok? ==>
        profile == Some(fetched.value) && InStep(profile.value, formData)
      ensures user.Some? && !IsGoogleProvider(user.value) && fetched.Err? ==>
        profile == old(profile) && formData == old(formData)
    {
      if user.None? {
        return;
      }
      loading := true;
      if IsGoogleProvider(user.value) {
        var googleProfile := GoogleProfile(user.value, now);
        profile := Some(googleProfile);
        formData := FormData(googleProfile.name, OrElse(googleProfile.phone, ""),
                             OrElse(googleProfile.avatar_url, ""));
      } else if fetched.Ok? {
        var profileData := fetched.value;
        profile := Some(profileData);
        formData := FormOf(profileData);
      }
      loading := false;
    }

    /** The Edit button. */
    method StartEditing()
      modifies this
      ensures isEditing
      ensures profile == old(profile) && formData == old(formData)
      ensures loading == old(loading) && isSaving == old(isSaving)
    {
      isEditing := true;
    }

    /**
     * `handleSave`, `now` standing for the current time and `reply` for the
     * answer of `/api/profile` to a full update. Without a user or a profile
     * nothing happens. A Google user's profile changes in its phone and
     * update time only; the phone is sent only when it differs from the
     * stored one, and a failure to store it is ignored. Anyone else's form
     * is sent whole and the reply becomes the profile; a failed reply keeps
     * the old profile and edit mode. Saving always ends.
     */
    method HandleSave(user: Option<AuthUser>, now: string, reply: Result<UserProfile>)
      returns (sent: Option<ProfileUpdate>)
      modifies this
      ensures user.None? || old(profile).None? ==> unchanged(this) && sent.None?
      ensures user.Some? && old(profile).Some? ==>
        !isSaving && loading == old(loading) && formData == old(formData)
      ensures user.Some? && old(profile).Some? && IsGoogleProvider(user.value) ==>
        && profile == Some(old(profile).value.(phone := Some(old(formData).phone), updated_at := now))
        && !isEditing
        && (sent.Some? <==> old(profile).value.phone != Some(old(formData).phone))
        && (sent.Some? ==> sent.value == PhoneUpdate(old(formData).phone))
      ensures user.Some? && old(profile).Some? && !IsGoogleProvider(user.value) ==>
        && sent == Some(FullUpdate(old(formData).name, old(formData).phone, old(formData).avatar_url))
        && (reply.Ok? ==> profile == Some(reply.value) && !isEditing)
        && (reply.Err? ==> profile == old(profile) && isEditing == old(isEditing))
    {
      sent := None;
      if user.None? || profile.None? {
        return;
      }
      isSaving := true;
      if IsGoogleProvider(user.value) {
        var updatedProfile := profile.value.(phone := Some(formData.phone), updated_at := now);
        if Some(formData.phone) != profile.value.phone {
          sent := Some(PhoneUpdate(formData.phone));
        }
        profile := Some(updatedProfile);
        isEditing := false;
      } else {
        sent := Some(FullUpdate(formData.name, formData.phone, formData.avatar_url));
        if reply.Ok? {
          profile := Some(reply.value);
          isEditing := false;
        }
      }
      isSaving := false;
    }

    /** `handleCancel`: the form is reset from the profile, if any, and editing ends. */
    method HandleCancel()
      modifies this
      ensures !isEditing
      ensures profile == old(profile) && loading == old(loading) && isSaving == old(isSaving)
      ensures profile.Some? ==> InStep(profile.value, formData)
      ensures profile.None? ==> formData == old(formData)
    {
      if profile.Some? {
        var p := profile.value;
        formData := FormData(OrElse(Some(p.name), ""), OrElse(p.phone, ""), OrElse(p.avatar_url, ""));
      }
      isEditing := false;
    }

    /**
     * `handleAvatarUpdate`: with a profile, the new URL goes into both the
     * profile (with a new update time) and the form, the rest unchanged;
     * without one, nothing happens.
     */
    method HandleAvatarUpdate(newAvatarUrl: string, now: string)
      modifies this
      ensures old(profile).None? ==> unchanged(this)
      ensures old(profile).Some? ==>
        && profile == Some(old(profile).value.(avatar_url := Some(newAvatarUrl), updated_at := now))
        && formData == old(formData).(avatar_url := newAvatarUrl)
      ensures loading == old(loading) && isEditing == old(isEditing) && isSaving == old(isSaving)
    {
      if profile.Some? {
        profile := Some(profile.value.(avatar_url := Some(newAvatarUrl), updated_at := now));
        formData := formData.(avatar_url := newAvatarUrl);
      }
    }
  }

  // ---------------------------------------------------------------------
  // What the handlers keep

  /** Replacing the avatar keeps a form that matched its profile matching it. */
  lemma AvatarUpdateKeepsStep(p: UserProfile, f: FormData, url: string, now: string)
    requires InStep(p, f)
    ensures InStep(p.(avatar_url := Some(url), updated_at := now), f.(avatar_url := url))
  {
  }

  /**
   * After a Google user saves, the stored phone reads back as the one typed,
   * so the form matches the new profile whenever it matched the old one
   * apart from the phone.
   */
  lemma GoogleSaveKeepsStep(p: UserProfile, f: FormData, now: string)
    requires f.name == p.name && f.avatar_url == p.avatar_url.GetOr("")
    ensures InStep(p.(phone := Some(f.phone), updated_at := now), f)
  {
  }

  /** A Google user is never offered a name input, in edit mode or out of it. */
  lemma GoogleNameFixed(isEditing: bool)
    ensures NameField !in EditableFields(isEditing, true)
  {
  }
}
