/**
 * The three-step onboarding form (src/pages/ProfileSetupPage.tsx): chip
 * toggles, step gating, the comma lists and the "Name (NN)" member list, the
 * payload written on completion, and the page state that holds them.
 */
module ProfileSetup {
  import opened Wrappers
  import opened Seqs
  import opened Text
  import opened Schema
  import opened Geocoding
  import opened LocationGeocode
  import opened Auth

  const GENRES: seq<string> :=
    ["Rock", "Indie", "Jazz", "Pop", "Alternative", "Funk", "Electronic", "Folk", "Metal", "Punk"]
  const INSTRUMENTS: seq<string> :=
    ["Guitar", "Bass", "Drums", "Keys", "Vocals", "Percussion", "Saxophone", "Trumpet", "Violin", "Other"]

  // ---- toggleArray ----

  /** The filter test `(x) => x !== item`. */
  function Without(item: string): string -> bool {
    x => x != item
  }

  /** toggleArray: remove every copy of a present item, append an absent one. */
  function ToggleArray(arr: seq<string>, item: string): (r: seq<string>)
    ensures item in r <==> item !in arr
    ensures item !in arr ==> r == arr + [item]
    ensures item in arr ==> IsSubsequence(r, arr)
    ensures item in arr ==> forall x :: x != item ==> multiset(r)[x] == multiset(arr)[x]
  {
    if item in arr then
      FilterMultiset(arr, Without(item));
      Filter(arr, Without(item))
    else
      arr + [item]
  }

  /** Toggling an absent item on and off again gives the list back. */
  lemma {:induction false} ToggleTwiceRestores(arr: seq<string>, item: string)
    requires item !in arr
    ensures ToggleArray(ToggleArray(arr, item), item) == arr
  {
    FilterAppend(arr, [item], Without(item));
    FilterAll(arr, Without(item));
    assert Filter([item], Without(item)) == [];
    assert arr + [] == arr;
  }

  // ---- The form and its gates ----

  /** The age box holds the profile's number until the user types text into it. */
  datatype FormAge = AgeText(text: string) | AgeNumber(n: real)

  datatype SetupForm = SetupForm(
    display_name: string,
    location: string,
    latitude: Option<real>,
    longitude: Option<real>,
    bio: string,
    age: FormAge,
    genres: seq<string>,
    instruments: seq<string>,
    seeking: seq<string>,
    roles: seq<string>,
    influences: string,
    members: seq<Member>
  )

  const EMPTY_FORM: SetupForm :=
    SetupForm("", "", None, None, "", AgeText(""), [], [], [], [], "", [])

  /** canProceedStep1: both the name and the location have a non-blank character. */
  function CanProceedStep1(form: SetupForm): (b: bool)
    ensures b <==> !AllSpace(form.display_name) && !AllSpace(form.location)
  {
    |Trim(form.display_name)| > 0 && |Trim(form.location)| > 0
  }

  /** canProceedStep2: venues skip; musicians and bands pick at least one chip. */
  function CanProceedStep2(role: UserRole, form: SetupForm): (b: bool)
    ensures role == Venue ==> b
    ensures role != Venue ==> (b <==> form.genres != [] || form.instruments != [] || form.seeking != [])
  {
    if role != Musician && role != Band then
      assert role == Venue;
      true
    else |form.genres| > 0 || |form.instruments| > 0 || |form.seeking| > 0
  }

  /** Whether the Next button is enabled on a step below the last. */
  function NextEnabled(step: int, role: UserRole, form: SetupForm): (b: bool)
    ensures step == 1 ==> (b <==> CanProceedStep1(form))
    ensures step == 2 ==> (b <==> CanProceedStep2(role, form))
  {
    !(step == 1 && !CanProceedStep1(form)) && !(step == 2 && !CanProceedStep2(role, form))
  }

  // ---- The payload ----

  datatype SetupPayload = SetupPayload(
    display_name: string,
    location: Option<string>,
    latitude: Option<real>,
    longitude: Option<real>,
    bio: Option<string>,
    age: Option<real>,
    genres: seq<string>,
    instruments: seq<string>,
    seeking: seq<string>,
    roles: seq<string>,
    influences: seq<string>,
    members: seq<Member>,
    last_active_at: string
  )

  /** `text.trim() || null`. */
  function TrimOrNull(text: string): (r: Option<string>)
    ensures r.None? <==> AllSpace(text)
    ensures r.Some? ==> r.value == Trim(text) && r.value != "" && Trimmed(r.value)
  {
    if Trim(text) == "" then None else Some(Trim(text))
  }

  /** `text.trim() || 'Anonymous'`. */
  function NameOrAnonymous(text: string): (r: string)
    ensures AllSpace(text) ==> r == "Anonymous"
    ensures !AllSpace(text) ==> r == Trim(text)
    ensures r != "" && Trimmed(r)
  {
    if Trim(text) == "" then "Anonymous" else Trim(text)
  }

  /** `form.age ? Number(form.age) : null`; `toNumber` is `Number` on text. */
  function PayloadAge(age: FormAge, toNumber: string -> real): (r: Option<real>)
    ensures r.None? <==> age == AgeText("") || age == AgeNumber(0.0)
    ensures age.AgeText? && age.text != "" ==> r == Some(toNumber(age.text))
    ensures age.AgeNumber? && age.n != 0.0 ==> r == Some(age.n)
  {
    match age
    case AgeText(t) => if t == "" then None else Some(toNumber(t))
    case AgeNumber(n) => if n == 0.0 then None else Some(n)
  }

  /** The influences sent: `text.trim() ? SplitList(text) : []`. */
  function PayloadInfluences(text: string): (r: seq<string>)
    ensures r == SplitList(text)
  {
    if Trim(text) != "" then SplitList(text)
    else
      BlankListsNothing(text);
      []
  }

  /** The payload handleSubmit builds from the form at the instant `now`. */
  function BuildPayload(form: SetupForm, now: string, toNumber: string -> real): (p: SetupPayload)
    ensures p.display_name == NameOrAnonymous(form.display_name)
    ensures p.location == TrimOrNull(form.location) && p.bio == TrimOrNull(form.bio)
    ensures p.age == PayloadAge(form.age, toNumber)
    ensures p.latitude == form.latitude && p.longitude == form.longitude
    ensures p.genres == form.genres && p.instruments == form.instruments
    ensures p.seeking == form.seeking && p.roles == form.roles && p.members == form.members
    ensures p.influences == SplitList(form.influences)
    ensures p.last_active_at == now
  {
    SetupPayload(
      NameOrAnonymous(form.display_name),
      TrimOrNull(form.location),
      form.latitude,
      form.longitude,
      TrimOrNull(form.bio),
      PayloadAge(form.age, toNumber),
      if |form.genres| > 0 then form.genres else [],
      if |form.instruments| > 0 then form.instruments else [],
      if |form.seeking| > 0 then form.seeking else [],
      if |form.roles| > 0 then form.roles else [],
      PayloadInfluences(form.influences),
      if |form.members| > 0 then form.members else [],
      now)
  }

  /** What the backend is asked to write: an update of the existing row, or a new row. */
  datatype WriteRequest =
    | UpdateRow(id: string, payload: SetupPayload)
    | InsertRow(user_id: string, role: UserRole, payload: SetupPayload)

  /** The mock-mode profile: `{ ...profile, ...payload, updated_at: now }`. */
  function MergePayload(p: Profile, payload: SetupPayload, now: string): (r: Profile)
    ensures r.id == p.id && r.user_id == p.user_id && r.role == p.role
    ensures r.avatar_url == p.avatar_url && r.gallery_urls == p.gallery_urls && r.links == p.links
    ensures r.created_at == p.created_at && r.updated_at == now
    ensures r.display_name == payload.display_name && r.location == payload.location
    ensures r.latitude == payload.latitude && r.longitude == payload.longitude
    ensures r.bio == payload.bio && r.age == payload.age
    ensures r.genres == Some(payload.genres) && r.instruments == Some(payload.instruments)
    ensures r.seeking == Some(payload.seeking) && r.roles == Some(payload.roles)
    ensures r.influences == Some(payload.influences) && r.members == Some(payload.members)
    ensures r.last_active_at == Some(payload.last_active_at)
  {
    p.(display_name := payload.display_name, location := payload.location,
       latitude := payload.latitude, longitude := payload.longitude,
       bio := payload.bio, age := payload.age,
       genres := Some(payload.genres), instruments := Some(payload.instruments),
       seeking := Some(payload.seeking), roles := Some(payload.roles),
       influences := Some(payload.influences), members := Some(payload.members),
       last_active_at := Some(payload.last_active_at), updated_at := now)
  }

  /** The form the page fills in from a loaded profile. */
  function FormFromProfile(p: Profile): (f: SetupForm)
    ensures f.display_name == p.display_name
    ensures f.location == p.location.GetOr("") && f.bio == p.bio.GetOr("")
    ensures f.latitude == p.latitude && f.longitude == p.longitude
    ensures p.age.Some? ==> f.age == AgeNumber(p.age.value)
    ensures p.age.None? ==> f.age == AgeText("")
    ensures f.genres == p.genres.GetOr([]) && f.instruments == p.instruments.GetOr([])
    ensures f.seeking == p.seeking.GetOr([]) && f.roles == p.roles.GetOr([])
    ensures f.members == p.members.GetOr([])
    ensures f.influences == Join(p.influences.GetOr([]), ", ")
  {
    SetupForm(
      p.display_name,
      p.location.GetOr(""),
      p.latitude,
      p.longitude,
      p.bio.GetOr(""),
      if p.age.Some? then AgeNumber(p.age.value) else AgeText(""),
      p.genres.GetOr([]),
      p.instruments.GetOr([]),
      p.seeking.GetOr([]),
      p.roles.GetOr([]),
      Join(p.influences.GetOr([]), ", "),
      p.members.GetOr([]))
  }

  // ---- Members: "Name (NN)" ----

  /**
   * `/\((\d+)\)$/` matches `p` with its `(` at index `k`: one or more digits
   * between that parenthesis and a closing one that ends the text.
   */
  predicate AgeSuffixAt(p: string, k: int) {
    && 0 <= k && k + 2 < |p|
    && p[k] == '(' && p[|p| - 1] == ')'
    && AllDigits(p[k + 1..|p| - 1])
  }

  predicate HasAgeSuffix(p: string) {
    exists k :: 0 <= k < |p| && AgeSuffixAt(p, k)
  }

  /** The regex can match at one place only. */
  lemma AgeSuffixUnique(p: string, j: int, k: int)
    requires AgeSuffixAt(p, j) && AgeSuffixAt(p, k)
    ensures j == k
  {
  }

  /** The start of the run of digits that ends just before `end`. */
  function DigitRunStart(p: string, end: nat): (j: nat)
    requires end <= |p|
    ensures j <= end && AllDigits(p[j..end])
    ensures j == 0 || !IsDigit(p[j - 1])
    decreases end
  {
    if end > 0 && IsDigit(p[end - 1]) then
      var j := DigitRunStart(p, end - 1);
      assert p[j..end] == p[j..end - 1] + [p[end - 1]];
      j
    else end
  }

  lemma {:induction false} DigitRunStartAt(p: string, end: nat, k: nat)
    requires k < end <= |p| && !IsDigit(p[k]) && AllDigits(p[k + 1..end])
    ensures DigitRunStart(p, end) == k + 1
    decreases end
  {
    if end > k + 1 {
      assert p[k + 1..end][end - k - 2] == p[end - 1];
      assert p[k + 1..end - 1] == p[k + 1..end][..end - k - 2];
      DigitRunStartAt(p, end - 1, k);
    }
  }

  /** Where the age suffix of a member text starts, if it has one. */
  function AgeSuffixStart(p: string): (k: Option<nat>)
    ensures k.Some? ==> AgeSuffixAt(p, k.value)
  {
    if |p| < 3 || p[|p| - 1] != ')' then None
    else
      var j := DigitRunStart(p, |p| - 1);
      if 1 <= j < |p| - 1 && p[j - 1] == '(' then Some(j - 1) else None
  }

  /** AgeSuffixStart finds the suffix wherever the regex would match. */
  lemma AgeSuffixFound(p: string, k: nat)
    requires AgeSuffixAt(p, k)
    ensures AgeSuffixStart(p) == Some(k)
  {
    DigitRunStartAt(p, |p| - 1, k);
  }

  lemma NoAgeSuffixFound(p: string)
    requires AgeSuffixStart(p).None?
    ensures !HasAgeSuffix(p)
  {
    forall k | AgeSuffixAt(p, k)
      ensures false
    {
      AgeSuffixFound(p, k);
    }
  }

  /** One member text parsed: `Name (NN)` gives a name and an age; anything else is all name. */
  function ParseMember(p: string): (m: Member)
    ensures m.age.Some? <==> HasAgeSuffix(p)
    ensures m.age.None? ==> m.name == p
    ensures m.age.Some? ==> exists k :: (&& AgeSuffixAt(p, k) && m.name == TrimEnd(p[..k])
                                         && m.age.value == DigitsValue(p[k + 1..|p| - 1]))
  {
    match AgeSuffixStart(p)
    case Some(k) => Member(TrimEnd(p[..k]), Some(DigitsValue(p[k + 1..|p| - 1])))
    case None =>
      NoAgeSuffixFound(p);
      Member(p, None)
  }

  /** `m.age ?` : an age is shown when present and non-zero. */
  predicate ShowsAge(m: Member) {
    m.age.Some? && m.age.value != 0
  }

  /** `m.name + (m.age ? ` (${m.age})` : '')`. */
  function MemberText(m: Member): string {
    if ShowsAge(m) then m.name + " (" + IntText(m.age.value) + ")" else m.name
  }

  /** The members field's text: the members shown and joined by ", ". */
  function FormatMembers(ms: seq<Member>): string {
    Join(seq(|ms|, i requires 0 <= i < |ms| => MemberText(ms[i])), ", ")
  }

  /** What typing `text` into the members field stores. */
  function ParseMembers(text: string): (ms: seq<Member>)
    ensures |ms| == |SplitList(text)|
    ensures forall i :: 0 <= i < |ms| ==> ms[i] == ParseMember(SplitList(text)[i])
  {
    var parts := SplitList(text);
    seq(|parts|, i requires 0 <= i < |parts| => ParseMember(parts[i]))
  }

  /** A member the text field can carry unchanged. */
  predicate WellFormedMember(m: Member) {
    && m.name != "" && Trimmed(m.name) && ',' !in m.name
    && (m.age.Some? ==> m.age.value > 0)
    && (m.age.None? ==> !HasAgeSuffix(m.name))
  }

  lemma MemberTextCanonical(m: Member)
    requires WellFormedMember(m)
    ensures MemberText(m) != "" && Trimmed(MemberText(m)) && ',' !in MemberText(m)
  {
    if ShowsAge(m) {
      var digits := NatText(m.age.value);
      var t := m.name + " (" + digits + ")";
      assert t[0] == m.name[0];
      forall i | 0 <= i < |digits|
        ensures digits[i] != ','
      {
        assert IsDigit(digits[i]);
      }
    }
  }

  /** Parsing the text of a well-formed member gives the member back. */
  lemma MemberRoundTrip(m: Member)
    requires WellFormedMember(m)
    ensures ParseMember(MemberText(m)) == m
  {
    if ShowsAge(m) {
      var n: nat := m.age.value;
      var digits := NatText(n);
      var p := m.name + " (" + digits + ")";
      var k := |m.name| + 1;
      assert p[k + 1..|p| - 1] == digits;
      assert p[..k] == m.name + " ";
      AgeSuffixFound(p, k);
      TrimEndSpaces(m.name, " ");
      NatTextRoundTrip(n);
    }
  }

  /** Showing well-formed members in the field and reading the text back gives the same members. */
  lemma MembersRoundTrip(ms: seq<Member>)
    requires forall i :: 0 <= i < |ms| ==> WellFormedMember(ms[i])
    ensures ParseMembers(FormatMembers(ms)) == ms
  {
    var texts := seq(|ms|, i requires 0 <= i < |ms| => MemberText(ms[i]));
    forall i | 0 <= i < |texts|
      ensures texts[i] != "" && Trimmed(texts[i]) && ',' !in texts[i]
    {
      MemberTextCanonical(ms[i]);
    }
    ListRoundTrip(texts);
    forall i | 0 <= i < |ms|
      ensures ParseMember(texts[i]) == ms[i]
    {
      MemberRoundTrip(ms[i]);
    }
  }

  // ---- The page ----

  /** The chip groups of step 2. */
  datatype ChipGroup = GenreChips | InstrumentChips | SeekingChips

  /** The plain text inputs, whose edits store the typed text as it is. */
  datatype TextInput = DisplayNameInput | BioInput | AgeInput | InfluencesInput

  class SetupPage {
    const geocoder: Geocoder
    var step: int
    var role: UserRole
    var loading: bool
    var error: string
    var form: SetupForm

    /** The step counter stays within the three steps. */
    predicate Valid()
      reads this
    {
      1 <= step <= 3
    }

    constructor()
      ensures Valid() && step == 1 && role == Musician && !loading && error == "" && form == EMPTY_FORM
      ensures fresh(geocoder) && !geocoder.geocoding && geocoder.geocodeError == None
    {
      geocoder := new Geocoder();
      step, role, loading, error, form := 1, Musician, false, "", EMPTY_FORM;
    }

    /**
     * The effect on `profile`: a loaded profile fills the form and sets the
     * role; without one, a backend session's metadata role (musician by
     * default) is taken.
     */
    method LoadProfile(profile: Option<Profile>, backend: bool, sessionRole: Option<UserRole>)
      modifies this
      ensures profile.Some? ==> form == FormFromProfile(profile.value) && role == profile.value.role
      ensures profile.None? && backend ==> form == old(form) && role == sessionRole.GetOr(Musician)
      ensures profile.None? && !backend ==> form == old(form) && role == old(role)
      ensures step == old(step) && loading == old(loading) && error == old(error)
    {
      if profile.Some? {
        form := FormFromProfile(profile.value);
        role := profile.value.role;
      } else if backend {
        role := sessionRole.GetOr(Musician);
      }
    }

    /** Next: the form's submit below step 3, which can only happen while the button is enabled. */
    method Next()
      requires Valid()
      modifies this
      ensures Valid()
      ensures old(step) < 3 && NextEnabled(old(step), role, form) ==> step == old(step) + 1
      ensures !(old(step) < 3 && NextEnabled(old(step), role, form)) ==> step == old(step)
      ensures form == old(form) && role == old(role) && loading == old(loading) && error == old(error)
    {
      if step < 3 && NextEnabled(step, role, form) {
        step := step + 1;
      }
    }

    /** Back: shown only above step 1. */
    method Back()
      requires Valid()
      modifies this
      ensures Valid()
      ensures step == if old(step) > 1 then old(step) - 1 else old(step)
      ensures form == old(form) && role == old(role) && loading == old(loading) && error == old(error)
    {
      if step > 1 {
        step := step - 1;
      }
    }

    /** Typing into one of the plain text inputs. */
    method EditText(input: TextInput, text: string)
      modifies this
      ensures form == match input
        case DisplayNameInput => old(form).(display_name := text)
        case BioInput => old(form).(bio := text)
        case AgeInput => old(form).(age := AgeText(text))
        case InfluencesInput => old(form).(influences := text)
      ensures step == old(step) && role == old(role) && loading == old(loading) && error == old(error)
    {
      match input
      case DisplayNameInput => form := form.(display_name := text);
      case BioInput => form := form.(bio := text);
      case AgeInput => form := form.(age := AgeText(text));
      case InfluencesInput => form := form.(influences := text);
    }

    /** Editing the location clears the geocoding message and forgets the coordinates. */
    method EditLocation(text: string)
      modifies this, geocoder
      ensures form == old(form).(location := text, latitude := None, longitude := None)
      ensures geocoder.geocodeError == None && geocoder.geocoding == old(geocoder.geocoding)
      ensures step == old(step) && role == old(role) && loading == old(loading) && error == old(error)
    {
      geocoder.ClearError();
      form := form.(location := text, latitude := None, longitude := None);
    }

    /**
     * Leaving the location field geocodes the trimmed location when it is not
     * blank, and stores the coordinates when some are found.
     */
    method BlurLocation(outcome: LookupOutcome)
      modifies this, geocoder
      ensures AllSpace(old(form).location) ==> form == old(form)
      ensures !AllSpace(old(form).location) ==>
        (match outcome
         case Resolved(Some(g)) => form == old(form).(latitude := Some(g.lat), longitude := Some(g.lng))
         case _ => form == old(form))
      ensures AllSpace(old(form).location) ==>
        geocoder.geocoding == old(geocoder.geocoding) && geocoder.geocodeError == old(geocoder.geocodeError)
      ensures !AllSpace(old(form).location) ==>
        && !geocoder.geocoding
        && geocoder.geocodeError == match outcome
             case Resolved(Some(_)) => None
             case Resolved(None) => Some(NOT_FOUND_MESSAGE)
             case Rejected => Some(FAILED_MESSAGE)
      ensures step == old(step) && role == old(role) && loading == old(loading) && error == old(error)
    {
      var location := Trim(form.location);
      if location != "" {
        var coords := geocoder.Geocode(location, outcome);
        if coords.Some? {
          form := form.(latitude := Some(coords.value.lat), longitude := Some(coords.value.lng));
        }
      }
    }

    /** Clicking a chip toggles its item in its group. */
    method ToggleChip(group: ChipGroup, item: string)
      modifies this
      ensures form == match group
        case GenreChips => old(form).(genres := ToggleArray(old(form).genres, item))
        case InstrumentChips => old(form).(instruments := ToggleArray(old(form).instruments, item))
        case SeekingChips => old(form).(seeking := ToggleArray(old(form).seeking, item))
      ensures step == old(step) && role == old(role) && loading == old(loading) && error == old(error)
    {
      match group
      case GenreChips => form := form.(genres := ToggleArray(form.genres, item));
      case InstrumentChips => form := form.(instruments := ToggleArray(form.instruments, item));
      case SeekingChips => form := form.(seeking := ToggleArray(form.seeking, item));
    }

    /** Typing into the roles field stores the comma list. */
    method EditRoles(text: string)
      modifies this
      ensures form == old(form).(roles := SplitList(text))
      ensures step == old(step) && role == old(role) && loading == old(loading) && error == old(error)
    {
      form := form.(roles := SplitList(text));
    }

    /** Typing into the members field stores the parsed members. */
    method EditMembers(text: string)
      modifies this
      ensures form == old(form).(members := ParseMembers(text))
      ensures step == old(step) && role == old(role) && loading == old(loading) && error == old(error)
    {
      form := form.(members := ParseMembers(text));
    }

    /**
     * handleSubmit, the form's submit on step 3. With no user nothing happens.
     * With a backend the payload is written (update or insert); a write error
     * is shown and the page stays, otherwise the profile is re-fetched. In
     * mock mode an existing profile is merged with the payload. Then the
     * page goes home.
     */
    method Submit(auth: AuthProvider, writeError: Option<string>, lookup: (string, nat) -> Option<Profile>,
                  now: string, toNumber: string -> real)
      returns (request: Option<WriteRequest>, navigated: bool)
      requires Valid() && step == 3
      modifies this`error, this`loading, auth
      ensures auth.user == old(auth.user) && auth.loading == old(auth.loading)
      ensures old(auth.user).None? ==>
        request.None? && !navigated && loading == old(loading) && error == old(error) && auth.profile == old(auth.profile)
      ensures old(auth.user).Some? ==> !loading
      ensures old(auth.user).Some? && auth.backend ==>
        request == Some(WriteFor(old(auth.profile), old(auth.user).value, old(role), BuildPayload(old(form), now, toNumber)))
        && (writeError.Some? ==> !navigated && error == writeError.value && auth.profile == old(auth.profile))
        && (writeError.None? ==>
              navigated && error == "" &&
              auth.profile == FetchResult(true, auth.loadedAt, lookup, old(auth.user).value.id, DEFAULT_RETRIES))
      ensures old(auth.user).Some? && !auth.backend ==>
        request.None? && navigated && error == ""
        && auth.profile == MockMerge(old(auth.profile), BuildPayload(old(form), now, toNumber), now)
    {
      var payload := BuildPayload(form, now, toNumber);
      request, navigated := None, false;
      if auth.user.None? {
        return;
      }
      error := "";
      loading := true;
      if auth.backend {
        request := Some(WriteFor(auth.profile, auth.user.value, role, payload));
        navigated := Write(auth, writeError, lookup);
      } else {
        auth.SetProfile(MockMerge(auth.profile, payload, now));
        navigated := true;
      }
      loading := false;
    }

    /** The backend write's end: show its error, or re-fetch the profile and go home. */
    method Write(auth: AuthProvider, writeError: Option<string>, lookup: (string, nat) -> Option<Profile>)
      returns (navigated: bool)
      requires auth.backend && auth.user.Some? && error == ""
      modifies this`error, auth
      ensures auth.user == old(auth.user) && auth.loading == old(auth.loading)
      ensures writeError.Some? ==> !navigated && error == writeError.value && auth.profile == old(auth.profile)
      ensures writeError.None? ==>
        navigated && error == "" && auth.profile == FetchResult(true, auth.loadedAt, lookup, old(auth.user).value.id, DEFAULT_RETRIES)
    {
      if writeError.Some? {
        error := writeError.value;
        return false;
      }
      auth.RefreshProfile(lookup);
      return true;
    }
  }

  /** The write handleSubmit sends: an update of the loaded profile's row, or an insert for the user. */
  function WriteFor(profile: Option<Profile>, user: AuthUser, role: UserRole, payload: SetupPayload): (w: WriteRequest)
    ensures profile.Some? <==> w.UpdateRow?
    ensures w.UpdateRow? ==> w == UpdateRow(profile.value.id, payload)
    ensures w.InsertRow? ==> w == InsertRow(user.id, role, payload)
  {
    if profile.Some? then UpdateRow(profile.value.id, payload) else InsertRow(user.id, role, payload)
  }

  /** Mock mode's `setProfile({ ...profile, ...payload, updated_at })`, only when a profile is loaded. */
  function MockMerge(profile: Option<Profile>, payload: SetupPayload, now: string): (r: Option<Profile>)
    ensures r.Some? <==> profile.Some?
    ensures profile.Some? ==> r == Some(MergePayload(profile.value, payload, now))
  {
    if profile.Some? then Some(MergePayload(profile.value, payload, now)) else None
  }
}
