/**
 * The profile list hook (src/hooks/useProfiles.ts): raw rows from the
 * `profiles` table are normalised into Profile values, and a refresh replaces
 * the list, the loading flag and the error.
 *
 * A row is untyped JSON; `String(n)` of a number is the parameter `showNumber`,
 * and the clock reading used for missing timestamps is the parameter `now`.
 */
module ProfileRows {
  import opened Wrappers
  import opened Seqs
  import opened Text
  import opened Schema

  /** A JSON value as a query returns it, plus `undefined` for a missing key. */
  datatype JsValue =
    | JUndefined
    | JNull
    | JBool(b: bool)
    | JNum(n: real)
    | JStr(str: string)
    | JArr(items: seq<JsValue>)
    | JObj(fields: map<string, JsValue>)

  type Row = map<string, JsValue>

  /** `row.key`: undefined when the key is absent. */
  function Get(row: Row, key: string): JsValue {
    if key in row then row[key] else JUndefined
  }

  /** `v == null`, which holds for both null and undefined. */
  predicate IsNullish(v: JsValue) {
    v.JUndefined? || v.JNull?
  }

  /** `String(v)`. */
  function ToText(v: JsValue, showNumber: real -> string): (s: string)
    ensures v.JStr? ==> s == v.str
    ensures v.JArr? && v.items == [] ==> s == ""
    decreases v, 1
  {
    match v
    case JUndefined => "undefined"
    case JNull => "null"
    case JBool(b) => if b then "true" else "false"
    case JNum(n) => showNumber(n)
    case JStr(t) => t
    case JArr(items) => Join(ElementTexts(v, items, showNumber), ",")
    case JObj(_) => "[object Object]"
  }

  /** The texts Array.prototype.join puts between commas: null and undefined become "". */
  function ElementTexts(whole: JsValue, items: seq<JsValue>, showNumber: real -> string): (r: seq<string>)
    requires forall i :: 0 <= i < |items| ==> items[i] < whole
    ensures |r| == |items|
    decreases whole, 0, |items|
  {
    if items == [] then []
    else
      [if IsNullish(items[0]) then "" else ToText(items[0], showNumber)]
      + ElementTexts(whole, items[1..], showNumber)
  }

  /** `String(v ?? fallback)`. */
  function TextOr(v: JsValue, fallback: string, showNumber: real -> string): (s: string)
    ensures IsNullish(v) ==> s == fallback
    ensures v.JStr? ==> s == v.str
  {
    if IsNullish(v) then fallback else ToText(v, showNumber)
  }

  /** `v != null ? String(v) : null`. */
  function NullableText(v: JsValue, showNumber: real -> string): (r: Option<string>)
    ensures r.None? <==> IsNullish(v)
    ensures v.JStr? ==> r == Some(v.str)
  {
    if IsNullish(v) then None else Some(ToText(v, showNumber))
  }

  /** `typeof v === 'number' ? v : null`. */
  function NumberOrNull(v: JsValue): (r: Option<real>)
    ensures r.Some? <==> v.JNum?
    ensures r.Some? ==> r.value == v.n
  {
    if v.JNum? then Some(v.n) else None
  }

  /** `(v as role) ?? 'musician'`. */
  function RoleOf(v: JsValue): (r: UserRole)
    ensures r == Band <==> v == JStr("band")
    ensures r == Venue <==> v == JStr("venue")
    ensures IsNullish(v) ==> r == Musician
  {
    if v == JStr("band") then Band
    else if v == JStr("venue") then Venue
    else Musician
  }

  predicate IsString(v: JsValue) {
    v.JStr?
  }

  /** The JSON strings holding the given texts, in order. */
  function Strings(texts: seq<string>): (r: seq<JsValue>)
    ensures |r| == |texts|
    ensures forall i :: 0 <= i < |r| ==> r[i] == JStr(texts[i])
  {
    seq(|texts|, i requires 0 <= i < |texts| => JStr(texts[i]))
  }

  /** `items.filter((x) => typeof x === 'string')`: the string elements, in their order. */
  function StringItems(items: seq<JsValue>): (r: seq<string>)
    ensures Strings(r) == Filter(items, IsString)
    ensures IsSubsequence(Strings(r), items)
    ensures forall s :: s in r <==> JStr(s) in items
  {
    var kept := Filter(items, IsString);
    var r := seq(|kept|, i requires 0 <= i < |kept| => TextOf(kept[i]));
    forall i | 0 <= i < |kept|
      ensures kept[i] == JStr(r[i])
    {
      assert kept[i] in kept;
    }
    assert Strings(r) == kept;
    forall s | s in r
      ensures JStr(s) in items
    {
      var i :| 0 <= i < |r| && r[i] == s;
      assert kept[i] in kept;
    }
    forall s | JStr(s) in items
      ensures s in r
    {
      assert JStr(s) in kept;
      var i :| 0 <= i < |kept| && kept[i] == JStr(s);
      assert r[i] == s;
    }
    r
  }

  function TextOf(v: JsValue): string {
    if v.JStr? then v.str else ""
  }

  /** A list of strings survives the string filter unchanged. */
  lemma {:induction false} StringItemsOfStrings(texts: seq<string>)
    ensures StringItems(Strings(texts)) == texts
  {
    var items := Strings(texts);
    FilterAll(items, IsString);
    assert Filter(items, IsString) == items;
  }

  /** `Array.isArray(v) ? v.filter(isString) : null`. */
  function StringArray(v: JsValue): (r: Option<seq<string>>)
    ensures r.Some? <==> v.JArr?
    ensures r.Some? ==> Strings(r.value) == Filter(v.items, IsString)
    ensures r.Some? ==> IsSubsequence(Strings(r.value), v.items)
    ensures r.Some? ==> forall s :: s in r.value <==> JStr(s) in v.items
  {
    if v.JArr? then Some(StringItems(v.items)) else None
  }

  /** A member entry survives `m && typeof m.name === 'string'`: an object with a string name. */
  predicate IsNamedObject(v: JsValue) {
    v.JObj? && "name" in v.fields && v.fields["name"].JStr?
  }

  /** The age of a member object: a whole number; any other value counts as no age. */
  function MemberAge(v: JsValue): (r: Option<int>)
    ensures r.Some? ==> v == JNum(r.value as real)
    ensures v.JNum? && v.n == v.n.Floor as real ==> r == Some(v.n.Floor)
  {
    if v.JNum? && v.n == v.n.Floor as real then Some(v.n.Floor) else None
  }

  function ToMember(v: JsValue): (m: Member)
    requires IsNamedObject(v)
    ensures JStr(m.name) == v.fields["name"]
  {
    Member(v.fields["name"].str, MemberAge(Get(v.fields, "age")))
  }

  /** `Array.isArray(v) ? v.filter((m) => m && typeof m.name === 'string') : null`. */
  function MemberArray(v: JsValue): (r: Option<seq<Member>>)
    ensures r.Some? <==> v.JArr?
    ensures r.Some? ==> |r.value| == |Filter(v.items, IsNamedObject)| <= |v.items|
    ensures r.Some? ==> forall i :: 0 <= i < |r.value| ==> r.value[i] == ToMember(Filter(v.items, IsNamedObject)[i])
    ensures r.Some? ==> forall i :: 0 <= i < |r.value| ==> exists e :: e in v.items && IsNamedObject(e) && r.value[i] == ToMember(e)
  {
    if v.JArr? then
      var kept := Filter(v.items, IsNamedObject);
      assert forall i :: 0 <= i < |kept| ==> kept[i] in kept;
      Some(seq(|kept|, i requires 0 <= i < |kept| => ToMember(kept[i])))
    else None
  }

  /** normalizeProfile: a typed profile from an untyped row, with a default for every field. */
  function NormalizeProfile(row: Row, now: string, showNumber: real -> string): (p: Profile)
    // the texts: String(v ?? '') or String(v ?? now), so '' or the clock reading when missing
    ensures p.id == TextOr(Get(row, "id"), "", showNumber)
    ensures p.user_id == TextOr(Get(row, "user_id"), "", showNumber)
    ensures p.display_name == TextOr(Get(row, "display_name"), "", showNumber)
    ensures p.created_at == TextOr(Get(row, "created_at"), now, showNumber)
    ensures p.updated_at == TextOr(Get(row, "updated_at"), now, showNumber)
    ensures IsNullish(Get(row, "id")) ==> p.id == ""
    ensures IsNullish(Get(row, "user_id")) ==> p.user_id == ""
    ensures IsNullish(Get(row, "created_at")) ==> p.created_at == now
    // the role: 'band' and 'venue' kept, musician otherwise, in particular when missing
    ensures p.role == RoleOf(Get(row, "role"))
    ensures p.role == Venue <==> Get(row, "role") == JStr("venue")
    ensures IsNullish(Get(row, "role")) ==> p.role == Musician
    // the nullable texts: null exactly when the value is nullish
    ensures p.avatar_url == NullableText(Get(row, "avatar_url"), showNumber)
    ensures p.location == NullableText(Get(row, "location"), showNumber)
    ensures p.bio == NullableText(Get(row, "bio"), showNumber)
    ensures p.last_active_at == NullableText(Get(row, "last_active_at"), showNumber)
    // the numbers: kept only when they are numbers
    ensures p.latitude == NumberOrNull(Get(row, "latitude"))
    ensures p.longitude == NumberOrNull(Get(row, "longitude"))
    ensures p.age == NumberOrNull(Get(row, "age"))
    // the lists: the string elements of an array, null for anything else
    ensures p.gallery_urls == StringArray(Get(row, "gallery_urls"))
    ensures p.links == StringArray(Get(row, "links"))
    ensures p.genres == StringArray(Get(row, "genres"))
    ensures p.instruments == StringArray(Get(row, "instruments"))
    ensures p.seeking == StringArray(Get(row, "seeking"))
    ensures p.influences == StringArray(Get(row, "influences"))
    ensures p.roles == StringArray(Get(row, "roles"))
    ensures p.members == MemberArray(Get(row, "members"))
  {
    Profile(
      TextOr(Get(row, "id"), "", showNumber),
      TextOr(Get(row, "user_id"), "", showNumber),
      RoleOf(Get(row, "role")),
      TextOr(Get(row, "display_name"), "", showNumber),
      NullableText(Get(row, "avatar_url"), showNumber),
      StringArray(Get(row, "gallery_urls")),
      NullableText(Get(row, "location"), showNumber),
      NumberOrNull(Get(row, "latitude")),
      NumberOrNull(Get(row, "longitude")),
      NullableText(Get(row, "bio"), showNumber),
      StringArray(Get(row, "links")),
      StringArray(Get(row, "genres")),
      StringArray(Get(row, "instruments")),
      StringArray(Get(row, "seeking")),
      StringArray(Get(row, "influences")),
      NumberOrNull(Get(row, "age")),
      StringArray(Get(row, "roles")),
      MemberArray(Get(row, "members")),
      NullableText(Get(row, "last_active_at"), showNumber),
      TextOr(Get(row, "created_at"), now, showNumber),
      TextOr(Get(row, "updated_at"), now, showNumber))
  }

  // ---- The row a profile is stored as, and the round trip through normalisation ----

  function RoleName(r: UserRole): string {
    match r
    case Musician => "musician"
    case Band => "band"
    case Venue => "venue"
  }

  lemma RoleOfName(r: UserRole)
    ensures RoleOf(JStr(RoleName(r))) == r
    ensures RoleName(r) != "venue" <==> r != Venue
  {
  }

  function TextValue(t: Option<string>): JsValue {
    if t.Some? then JStr(t.value) else JNull
  }

  function NumberValue(n: Option<real>): JsValue {
    if n.Some? then JNum(n.value) else JNull
  }

  function ListValue(l: Option<seq<string>>): JsValue {
    if l.Some? then JArr(Strings(l.value)) else JNull
  }

  function MemberValue(m: Member): JsValue {
    if m.age.Some? then JObj(map["name" := JStr(m.name), "age" := JNum(m.age.value as real)])
    else JObj(map["name" := JStr(m.name)])
  }

  function MembersValue(ms: Option<seq<Member>>): JsValue {
    if ms.Some? then JArr(seq(|ms.value|, i requires 0 <= i < |ms.value| => MemberValue(ms.value[i]))) else JNull
  }

  /** `row` holds the stored form of every field of `p`, whatever else it holds. */
  predicate StoresProfile(row: Row, p: Profile) {
    && Get(row, "id") == JStr(p.id)
    && Get(row, "user_id") == JStr(p.user_id)
    && Get(row, "role") == JStr(RoleName(p.role))
    && Get(row, "display_name") == JStr(p.display_name)
    && Get(row, "avatar_url") == TextValue(p.avatar_url)
    && Get(row, "gallery_urls") == ListValue(p.gallery_urls)
    && Get(row, "location") == TextValue(p.location)
    && Get(row, "latitude") == NumberValue(p.latitude)
    && Get(row, "longitude") == NumberValue(p.longitude)
    && Get(row, "bio") == TextValue(p.bio)
    && Get(row, "links") == ListValue(p.links)
    && Get(row, "genres") == ListValue(p.genres)
    && Get(row, "instruments") == ListValue(p.instruments)
    && Get(row, "seeking") == ListValue(p.seeking)
    && Get(row, "influences") == ListValue(p.influences)
    && Get(row, "age") == NumberValue(p.age)
    && Get(row, "roles") == ListValue(p.roles)
    && Get(row, "members") == MembersValue(p.members)
    && Get(row, "last_active_at") == TextValue(p.last_active_at)
    && Get(row, "created_at") == JStr(p.created_at)
    && Get(row, "updated_at") == JStr(p.updated_at)
  }

  lemma StringArrayOfList(l: Option<seq<string>>)
    ensures StringArray(ListValue(l)) == l
  {
    if l.Some? {
      StringItemsOfStrings(l.value);
    }
  }

  lemma {:induction false} MemberArrayOfMembers(ms: Option<seq<Member>>)
    ensures MemberArray(MembersValue(ms)) == ms
  {
    if ms.Some? {
      var items := MembersValue(ms).items;
      forall i | 0 <= i < |items|
        ensures IsNamedObject(items[i]) && ToMember(items[i]) == ms.value[i]
      {
        ToMemberOfValue(ms.value[i]);
      }
      FilterAll(items, IsNamedObject);
      var r := MemberArray(MembersValue(ms)).value;
      assert |r| == |ms.value|;
      assert forall i :: 0 <= i < |r| ==> r[i] == ms.value[i];
      assert r == ms.value;
    }
  }

  lemma ToMemberOfValue(m: Member)
    ensures IsNamedObject(MemberValue(m)) && ToMember(MemberValue(m)) == m
  {
    if m.age.Some? {
      assert Get(MemberValue(m).fields, "age") == JNum(m.age.value as real);
    } else {
      assert Get(MemberValue(m).fields, "age") == JUndefined;
    }
  }

  lemma StoredIdentity(row: Row, p: Profile, now: string, showNumber: real -> string)
    requires StoresProfile(row, p)
    ensures var q := NormalizeProfile(row, now, showNumber); q.id == p.id && q.user_id == p.user_id && q.role == p.role
  {
    RoleOfName(p.role);
  }

  lemma StoredNames(row: Row, p: Profile, now: string, showNumber: real -> string)
    requires StoresProfile(row, p)
    ensures var q := NormalizeProfile(row, now, showNumber); q.display_name == p.display_name && q.avatar_url == p.avatar_url && q.bio == p.bio
  {
  }

  lemma StoredPlace(row: Row, p: Profile, now: string, showNumber: real -> string)
    requires StoresProfile(row, p)
    ensures var q := NormalizeProfile(row, now, showNumber); q.location == p.location && q.latitude == p.latitude && q.longitude == p.longitude
  {
  }

  lemma StoredMedia(row: Row, p: Profile, now: string, showNumber: real -> string)
    requires StoresProfile(row, p)
    ensures var q := NormalizeProfile(row, now, showNumber); q.gallery_urls == p.gallery_urls && q.links == p.links && q.age == p.age
  {
    StringArrayOfList(p.gallery_urls);
    StringArrayOfList(p.links);
  }

  lemma StoredMusic(row: Row, p: Profile, now: string, showNumber: real -> string)
    requires StoresProfile(row, p)
    ensures var q := NormalizeProfile(row, now, showNumber); q.genres == p.genres && q.instruments == p.instruments && q.seeking == p.seeking
  {
    StringArrayOfList(p.genres);
    StringArrayOfList(p.instruments);
    StringArrayOfList(p.seeking);
  }

  lemma StoredBackground(row: Row, p: Profile, now: string, showNumber: real -> string)
    requires StoresProfile(row, p)
    ensures var q := NormalizeProfile(row, now, showNumber); q.influences == p.influences && q.roles == p.roles && q.members == p.members
  {
    StringArrayOfList(p.influences);
    StringArrayOfList(p.roles);
    MemberArrayOfMembers(p.members);
  }

  lemma StoredTimes(row: Row, p: Profile, now: string, showNumber: real -> string)
    requires StoresProfile(row, p)
    ensures var q := NormalizeProfile(row, now, showNumber); q.last_active_at == p.last_active_at && q.created_at == p.created_at && q.updated_at == p.updated_at
  {
  }

  /** Normalising a row that stores a profile gives the profile back, field for field. */
  lemma {:induction false} NormalizeStoredRow(row: Row, p: Profile, now: string, showNumber: real -> string)
    requires StoresProfile(row, p)
    ensures NormalizeProfile(row, now, showNumber) == p
  {
    StoredIdentity(row, p, now, showNumber);
    StoredNames(row, p, now, showNumber);
    StoredPlace(row, p, now, showNumber);
    StoredMedia(row, p, now, showNumber);
    StoredMusic(row, p, now, showNumber);
    StoredBackground(row, p, now, showNumber);
    StoredTimes(row, p, now, showNumber);
  }

  // ---- The query and the hook's state ----

  /**
   * The server side of `.neq('role', 'venue')`: SQL `<>` keeps rows whose
   * role is present and different from 'venue' (a null role compares unknown).
   */
  predicate NotVenueRow(row: Row) {
    Get(row, "role").JStr? && Get(row, "role").str != "venue"
  }

  /** How the `profiles` query ends: an error reply, data (the table the query runs over), or a throw. */
  datatype QueryOutcome =
    | QueryFailed(message: string)
    | QueryAnswered(table: Option<seq<Row>>)
    | QueryThrew(errorMessage: Option<string>)

  /** The list a refresh with a backend leaves: the normalised selected rows, or [] on any failure. */
  function RefreshedProfiles(outcome: QueryOutcome, now: string, showNumber: real -> string): (ps: seq<Profile>)
    ensures !outcome.QueryAnswered? ==> ps == []
    ensures outcome.QueryAnswered? && outcome.table.None? ==> ps == []
    ensures outcome.QueryAnswered? && outcome.table.Some? ==>
              && |ps| == |Filter(outcome.table.value, NotVenueRow)|
              && forall i :: 0 <= i < |ps| ==>
                   ps[i] == NormalizeProfile(Filter(outcome.table.value, NotVenueRow)[i], now, showNumber)
    ensures outcome.QueryAnswered? ==>
              forall p :: p in ps ==> exists row :: row in outcome.table.GetOr([]) && NotVenueRow(row)
                                                    && p == NormalizeProfile(row, now, showNumber)
  {
    match outcome
    case QueryAnswered(table) =>
      var rows := Filter(table.GetOr([]), NotVenueRow);
      var ps := seq(|rows|, i requires 0 <= i < |rows| => NormalizeProfile(rows[i], now, showNumber));
      forall p | p in ps
        ensures exists row :: row in table.GetOr([]) && NotVenueRow(row) && p == NormalizeProfile(row, now, showNumber)
      {
        var i :| 0 <= i < |ps| && ps[i] == p;
        assert rows[i] in rows;
      }
      ps
    case _ => []
  }

  /** The error a refresh with a backend leaves: the reply's message, the thrown message or the default. */
  function RefreshError(outcome: QueryOutcome): (e: Option<string>)
    ensures e.None? <==> outcome.QueryAnswered?
    ensures outcome.QueryFailed? ==> e == Some(outcome.message)
    ensures outcome.QueryThrew? && outcome.errorMessage.Some? ==> e == outcome.errorMessage
    ensures outcome.QueryThrew? && outcome.errorMessage.None? ==> e == Some("Failed to load profiles")
  {
    match outcome
    case QueryFailed(message) => Some(message)
    case QueryAnswered(_) => None
    case QueryThrew(m) => Some(m.GetOr("Failed to load profiles"))
  }

  /** No venue ever reaches the refreshed list, and an error always comes with an empty list. */
  lemma {:induction false} RefreshListsNoVenue(outcome: QueryOutcome, now: string, showNumber: real -> string)
    ensures forall p :: p in RefreshedProfiles(outcome, now, showNumber) ==> p.role != Venue
    ensures RefreshError(outcome).Some? ==> RefreshedProfiles(outcome, now, showNumber) == []
  {
    if outcome.QueryAnswered? {
      var rows := Filter(outcome.table.GetOr([]), NotVenueRow);
      var ps := RefreshedProfiles(outcome, now, showNumber);
      forall i | 0 <= i < |ps|
        ensures ps[i].role != Venue
      {
        assert rows[i] in rows;
        assert NotVenueRow(rows[i]);
      }
    }
  }

  /** Rows that store profiles other than venues all pass the query's filter. */
  lemma {:induction false} StoredRowsSelected(table: seq<Row>, ps: seq<Profile>)
    requires |table| == |ps|
    requires forall i :: 0 <= i < |ps| ==> StoresProfile(table[i], ps[i]) && ps[i].role != Venue
    ensures Filter(table, NotVenueRow) == table
  {
    forall i | 0 <= i < |table|
      ensures NotVenueRow(table[i])
    {
      RoleOfName(ps[i].role);
    }
    FilterAll(table, NotVenueRow);
  }

  /** Stored profiles that are not venues come back from a refresh unchanged and in order. */
  lemma {:induction false} RefreshReturnsStoredProfiles(table: seq<Row>, ps: seq<Profile>, now: string,
                                                       showNumber: real -> string)
    requires |table| == |ps|
    requires forall i :: 0 <= i < |ps| ==> StoresProfile(table[i], ps[i]) && ps[i].role != Venue
    ensures RefreshedProfiles(QueryAnswered(Some(table)), now, showNumber) == ps
  {
    StoredRowsSelected(table, ps);
    var r := RefreshedProfiles(QueryAnswered(Some(table)), now, showNumber);
    assert |r| == |ps|;
    forall i | 0 <= i < |ps|
      ensures r[i] == ps[i]
    {
      NormalizeStoredRow(table[i], ps[i], now, showNumber);
    }
  }

  /** The state of one useProfiles hook. */
  class ProfilesStore {
    const backend: bool
    var profiles: seq<Profile>
    var loading: bool
    var error: Option<string>

    /** Initially empty, loading exactly when a backend is configured. */
    constructor(backend: bool)
      ensures this.backend == backend
      ensures profiles == [] && loading == backend && error == None
    {
      this.backend := backend;
      profiles, loading, error := [], backend, None;
    }

    /**
     * refresh: without a backend the list is emptied and the error is kept;
     * otherwise the list and error come from the query's outcome. Either way
     * loading ends false.
     */
    method Refresh(outcome: QueryOutcome, now: string, showNumber: real -> string)
      modifies this
      ensures !loading
      ensures !backend ==> profiles == [] && error == old(error)
      ensures backend ==> profiles == RefreshedProfiles(outcome, now, showNumber) && error == RefreshError(outcome)
    {
      if !backend {
        profiles := [];
        loading := false;
        return;
      }
      loading := true;
      error := None;
      match outcome {
        case QueryFailed(message) =>
          error := Some(message);
          profiles := [];
        case QueryAnswered(table) =>
          var rows := Filter(table.GetOr([]), NotVenueRow);
          profiles := seq(|rows|, i requires 0 <= i < |rows| => NormalizeProfile(rows[i], now, showNumber));
        case QueryThrew(m) =>
          error := Some(m.GetOr("Failed to load profiles"));
          profiles := [];
      }
      loading := false;
    }
  }
}
