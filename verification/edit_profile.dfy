/**
 * The profile editor (src/pages/EditProfilePage.tsx): a form filled from the
 * signed-in profile, the same chip toggles and comma lists as onboarding, and
 * a save that rebuilds the profile record and installs it in the auth
 * context without writing to the backend.
 */
module EditProfile {
  import opened Wrappers
  import opened Text
  import opened Schema
  import opened Auth
  import opened ProfileSetup

  datatype EditForm = EditForm(
    display_name: string,
    location: string,
    bio: string,
    age: FormAge,
    genres: seq<string>,
    instruments: seq<string>,
    seeking: seq<string>,
    roles: seq<string>,
    influences: string,
    members: seq<Member>
  )

  const EMPTY_EDIT_FORM: EditForm := EditForm("", "", "", AgeText(""), [], [], [], [], "", [])

  /** The form's first state: the profile's values, `''` or `[]` where it has none. */
  function InitialForm(profile: Option<Profile>): (f: EditForm)
    ensures profile.None? ==> f == EMPTY_EDIT_FORM
    ensures profile.Some? ==> f.influences == Join(profile.value.influences.GetOr([]), ", ")
    ensures profile.Some? ==>
      && f.display_name == profile.value.display_name
      && f.location == profile.value.location.GetOr("") && f.bio == profile.value.bio.GetOr("")
      && f.age == (if profile.value.age.Some? then AgeNumber(profile.value.age.value) else AgeText(""))
      && f.genres == profile.value.genres.GetOr([]) && f.instruments == profile.value.instruments.GetOr([])
      && f.seeking == profile.value.seeking.GetOr([]) && f.roles == profile.value.roles.GetOr([])
      && f.members == profile.value.members.GetOr([])
  {
    match profile
    case None => EMPTY_EDIT_FORM
    case Some(p) =>
      EditForm(
        p.display_name,
        p.location.GetOr(""),
        p.bio.GetOr(""),
        if p.age.Some? then AgeNumber(p.age.value) else AgeText(""),
        p.genres.GetOr([]),
        p.instruments.GetOr([]),
        p.seeking.GetOr([]),
        p.roles.GetOr([]),
        Join(p.influences.GetOr([]), ", "),
        p.members.GetOr([]))
  }

  /** `list.length ? list : null`. */
  function NonEmptyOrNull<T>(list: seq<T>): (r: Option<seq<T>>)
    ensures r.None? <==> list == []
    ensures r.Some? ==> r.value == list
  {
    if |list| > 0 then Some(list) else None
  }

  /** `text.trim() ? <the comma list> : null`. */
  function InfluencesOrNull(text: string): (r: Option<seq<string>>)
    ensures r.None? <==> AllSpace(text)
    ensures r.Some? ==> r.value == SplitList(text)
  {
    if Trim(text) != "" then Some(SplitList(text)) else None
  }

  /**
   * handleSubmit's record: the profile with the form's fields written over
   * it, blanks and empty lists stored as null, and `updated_at` set to `now`.
   */
  function EditedProfile(p: Profile, f: EditForm, now: string, toNumber: string -> real): (r: Profile)
    ensures && r.id == p.id && r.user_id == p.user_id && r.role == p.role
            && r.avatar_url == p.avatar_url && r.gallery_urls == p.gallery_urls && r.links == p.links
            && r.latitude == p.latitude && r.longitude == p.longitude
            && r.last_active_at == p.last_active_at && r.created_at == p.created_at
    ensures r.updated_at == now
    ensures r.display_name == NameOrAnonymous(f.display_name)
    ensures r.location == TrimOrNull(f.location) && r.bio == TrimOrNull(f.bio)
    ensures r.age == PayloadAge(f.age, toNumber)
    ensures r.genres == NonEmptyOrNull(f.genres) && r.instruments == NonEmptyOrNull(f.instruments)
    ensures r.seeking == NonEmptyOrNull(f.seeking) && r.roles == NonEmptyOrNull(f.roles)
    ensures r.members == NonEmptyOrNull(f.members)
    ensures r.influences == InfluencesOrNull(f.influences)
  {
    p.(display_name := NameOrAnonymous(f.display_name),
       location := TrimOrNull(f.location),
       bio := TrimOrNull(f.bio),
       age := PayloadAge(f.age, toNumber),
       genres := NonEmptyOrNull(f.genres),
       instruments := NonEmptyOrNull(f.instruments),
       seeking := NonEmptyOrNull(f.seeking),
       roles := NonEmptyOrNull(f.roles),
       influences := InfluencesOrNull(f.influences),
       members := NonEmptyOrNull(f.members),
       updated_at := now)
  }

  /** A comma list the influences field shows and reads back unchanged. */
  predicate CanonicalList(items: seq<string>) {
    forall i :: 0 <= i < |items| ==> items[i] != "" && Trimmed(items[i]) && ',' !in items[i]
  }

  /** A text field's value that saving stores unchanged: absent, or trimmed and non-empty. */
  predicate CanonicalText(t: Option<string>) {
    t.Some? ==> t.value != "" && Trimmed(t.value)
  }

  /** A list saving stores unchanged: absent or non-empty (an empty list is saved as null). */
  predicate CanonicalOptList<T>(list: Option<seq<T>>) {
    list.Some? ==> list.value != []
  }

  /** A profile whose every edited field is already in the form saving produces. */
  predicate Canonical(p: Profile) {
    && p.display_name != "" && Trimmed(p.display_name)
    && CanonicalText(p.location) && CanonicalText(p.bio)
    && (p.age.Some? ==> p.age.value != 0.0)
    && CanonicalOptList(p.genres) && CanonicalOptList(p.instruments)
    && CanonicalOptList(p.seeking) && CanonicalOptList(p.roles) && CanonicalOptList(p.members)
    && CanonicalOptList(p.influences)
    && (p.influences.Some? ==> CanonicalList(p.influences.value))
  }

  /** A trimmed non-empty name is kept as it is by `trim() || 'Anonymous'`. */
  lemma KeepsName(name: string)
    requires name != "" && Trimmed(name)
    ensures NameOrAnonymous(name) == name
  {
    assert !IsSpace(name[0]);
  }

  /** A trimmed non-empty text is kept as it is by `trim() || null`. */
  lemma KeepsCanonicalText(t: Option<string>)
    requires CanonicalText(t)
    ensures TrimOrNull(t.GetOr("")) == t
  {
    if t.Some? {
      assert !IsSpace(t.value[0]);
    }
  }

  /** A non-empty list, or none, is kept as it is by `length ? list : null`. */
  lemma KeepsList<T>(list: Option<seq<T>>)
    requires CanonicalOptList(list)
    ensures NonEmptyOrNull(list.GetOr([])) == list
  {
  }

  /** The influences of a canonical profile come back from the text the form shows. */
  lemma {:induction false} KeepsInfluences(influences: Option<seq<string>>)
    requires CanonicalOptList(influences)
    requires influences.Some? ==> CanonicalList(influences.value)
    ensures InfluencesOrNull(Join(influences.GetOr([]), ", ")) == influences
  {
    var text := Join(influences.GetOr([]), ", ");
    if influences.Some? {
      ListRoundTrip(influences.value);
      if AllSpace(text) {
        BlankListsNothing(text);
      }
    }
  }

  /**
   * Saving the form untouched changes only `updated_at` when the profile is
   * already in the form saving produces.
   */
  lemma {:induction false} SaveUntouchedKeepsProfile(p: Profile, now: string, toNumber: string -> real)
    requires Canonical(p)
    ensures EditedProfile(p, InitialForm(Some(p)), now, toNumber) == p.(updated_at := now)
  {
    var f := InitialForm(Some(p));
    var r := EditedProfile(p, f, now, toNumber);
    assert r.display_name == p.display_name by { KeepsName(p.display_name); }
    assert r.location == p.location by { KeepsCanonicalText(p.location); }
    assert r.bio == p.bio by { KeepsCanonicalText(p.bio); }
    assert r.age == p.age;
    assert r.genres == p.genres by { KeepsList(p.genres); }
    assert r.instruments == p.instruments by { KeepsList(p.instruments); }
    assert r.seeking == p.seeking by { KeepsList(p.seeking); }
    assert r.roles == p.roles by { KeepsList(p.roles); }
    assert r.members == p.members by { KeepsList(p.members); }
    assert r.influences == p.influences by { KeepsInfluences(p.influences); }
  }

  /** The inputs of the form that store their text as typed. */
  datatype EditField = NameField | LocationField | BioField | AgeField | InfluencesField

  class EditPage {
    var form: EditForm

    constructor(profile: Option<Profile>)
      ensures form == InitialForm(profile)
    {
      form := InitialForm(profile);
    }

    /** Typing into one of the plain inputs. */
    method EditText(field: EditField, text: string)
      modifies this
      ensures form == match field
        case NameField => old(form).(display_name := text)
        case LocationField => old(form).(location := text)
        case BioField => old(form).(bio := text)
        case AgeField => old(form).(age := AgeText(text))
        case InfluencesField => old(form).(influences := text)
    {
      match field
      case NameField => form := form.(display_name := text);
      case LocationField => form := form.(location := text);
      case BioField => form := form.(bio := text);
      case AgeField => form := form.(age := AgeText(text));
      case InfluencesField => form := form.(influences := text);
    }

    /** Clicking a chip toggles its item in its group. */
    method ToggleChip(group: ChipGroup, item: string)
      modifies this
      ensures form == match group
        case GenreChips => old(form).(genres := ToggleArray(old(form).genres, item))
        case InstrumentChips => old(form).(instruments := ToggleArray(old(form).instruments, item))
        case SeekingChips => old(form).(seeking := ToggleArray(old(form).seeking, item))
    {
      match group
      case GenreChips => form := form.(genres := ToggleArray(form.genres, item));
      case InstrumentChips => form := form.(instruments := ToggleArray(form.instruments, item));
      case SeekingChips => form := form.(seeking := ToggleArray(form.seeking, item));
    }

    /** Typing into the roles field stores the comma list. */
    method EditRoles(text: string)
      modifies this
      ensures form == old(form).(roles := SplitList(text))
    {
      form := form.(roles := SplitList(text));
    }

    /** Typing into the members field stores the parsed members. */
    method EditMembers(text: string)
      modifies this
      ensures form == old(form).(members := ParseMembers(text))
    {
      form := form.(members := ParseMembers(text));
    }

    /**
     * handleSubmit: without a profile nothing happens; otherwise the edited
     * record replaces the profile in the auth context and the page goes to
     * `/profile`. Nothing is sent to the backend.
     */
    method Submit(auth: AuthProvider, now: string, toNumber: string -> real) returns (navigatedTo: Option<string>)
      modifies auth
      ensures auth.user == old(auth.user) && auth.loading == old(auth.loading)
      ensures old(auth.profile).None? ==> navigatedTo.None? && auth.profile == old(auth.profile)
      ensures old(auth.profile).Some? ==>
        && navigatedTo == Some("/profile")
        && auth.profile == Some(EditedProfile(old(auth.profile).value, form, now, toNumber))
    {
      if auth.profile.None? {
        return None;
      }
      auth.SetProfile(Some(EditedProfile(auth.profile.value, form, now, toNumber)));
      navigatedTo := Some("/profile");
    }
  }
}
