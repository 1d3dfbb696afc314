/**
 * Another member's profile page (src/pages/ProfileViewPage.tsx): the profile
 * looked up by the id in the URL, its labels, and the Follow
 * button backed by the shared set of followed ids.
 */
module ProfileView {
  import opened Wrappers
  import opened Text
  import opened Schema
  import opened ProfileSetup

  /** The first index at or after `from` whose profile has id `id`. */
  function FindFrom(profiles: seq<Profile>, id: string, from: nat): (k: Option<nat>)
    requires from <= |profiles|
    ensures k.Some? ==> from <= k.value < |profiles| && profiles[k.value].id == id
    ensures k.Some? ==> forall j :: from <= j < k.value ==> profiles[j].id != id
    ensures k.None? ==> forall j :: from <= j < |profiles| ==> profiles[j].id != id
    decreases |profiles| - from
  {
    if from == |profiles| then None
    else if profiles[from].id == id then Some(from)
    else FindFrom(profiles, id, from + 1)
  }

  /**
   * `profiles.find(p => p.id === id) ?? null`: the first profile with that
   * id; an absent id matches no profile.
   */
  function FindProfile(profiles: seq<Profile>, id: Option<string>): (r: Option<Profile>)
    ensures id.None? ==> r.None?
    ensures r.None? <==> id.None? || forall j :: 0 <= j < |profiles| ==> profiles[j].id != id.value
    ensures r.Some? ==> exists k :: && 0 <= k < |profiles| && r.value == profiles[k]
                                    && r.value.id == id.value
                                    && forall j :: 0 <= j < k ==> profiles[j].id != id.value
  {
    if id.None? then None
    else
      match FindFrom(profiles, id.value, 0)
      case None => None
      case Some(k) => Some(profiles[k])
  }

  /** No two profiles share an id. */
  predicate UniqueIds(profiles: seq<Profile>) {
    forall i, j :: 0 <= i < j < |profiles| ==> profiles[i].id != profiles[j].id
  }

  /** With unique ids, looking up a listed profile's id finds that profile. */
  lemma FindsListedProfile(profiles: seq<Profile>, k: nat)
    requires UniqueIds(profiles) && k < |profiles|
    ensures FindProfile(profiles, Some(profiles[k].id)) == Some(profiles[k])
  {
    var r := FindProfile(profiles, Some(profiles[k].id));
    var k' :| && 0 <= k' < |profiles| && r.value == profiles[k']
              && r.value.id == profiles[k].id
              && forall j :: 0 <= j < k' ==> profiles[j].id != profiles[k].id;
    if k' < k {
      assert profiles[k'].id != profiles[k].id;
    }
  }

  /** `currentProfile?.id === id`: true also when both are absent. */
  function IsOwn(current: Option<Profile>, id: Option<string>): bool {
    match current
    case None => id.None?
    case Some(p) => id == Some(p.id)
  }

  /**
   * Once a profile was found, the page is the viewer's own exactly when the
   * viewer's profile has the found profile's id; the Follow button shows otherwise.
   */
  lemma OwnIffSameId(profiles: seq<Profile>, current: Option<Profile>, id: Option<string>)
    requires FindProfile(profiles, id).Some?
    ensures IsOwn(current, id) <==> current.Some? && current.value.id == FindProfile(profiles, id).value.id
  {
  }

  /** The label under the name. */
  function TypeLabel(role: UserRole): (shown: string)
    ensures shown == "Band" <==> role == Band
    ensures shown == "Venue" <==> role == Venue
    ensures shown == "Musician" <==> role == Musician
  {
    match role
    case Band => "Band"
    case Venue => "Venue"
    case Musician => "Musician"
  }

  /** `list?.join(', ') ?? '—'`: the dash only for a missing list; an empty list shows nothing. */
  function JoinOrDash(list: Option<seq<string>>): (text: string)
    ensures list.None? ==> text == "—"
    ensures list == Some([]) ==> text == ""
  {
    match list
    case None => "—"
    case Some(items) => Join(items, ", ")
  }

  /** A shown list of trimmed, comma-free names reads back as the list. */
  lemma ShownListReadsBack(items: seq<string>)
    requires forall i :: 0 <= i < |items| ==> items[i] != "" && Trimmed(items[i]) && ',' !in items[i]
    ensures SplitList(JoinOrDash(Some(items))) == items
  {
    ListRoundTrip(items);
  }

  /** `m.name + ((m.age ?? null) !== null ? ` (${m.age})` : '')`. */
  function ViewMemberText(m: Member): string {
    if m.age.Some? then m.name + " (" + IntText(m.age.value) + ")" else m.name
  }

  /**
   * The profile page and the setup form show a member alike, except that
   * the profile page also shows an age of zero.
   */
  lemma MemberTextsAgree(m: Member)
    ensures ViewMemberText(m) == MemberText(m) <==> m.age != Some(0)
  {
    if m.age == Some(0) {
      var shown := m.name + " (" + IntText(0) + ")";
      assert |shown| > |m.name|;
    }
  }

  /** MOCK_FOLLOWING_IDS: the ids the viewer follows, shared by every profile page. */
  class FollowStore {
    var ids: set<string>

    constructor(ids: set<string>)
      ensures this.ids == ids
    {
      this.ids := ids;
    }
  }

  /** `if (id)`: an id that is present and not the empty string. */
  predicate Truthy(id: Option<string>) {
    id.Some? && id.value != ""
  }

  class ProfileViewPage {
    const id: Option<string>
    const store: FollowStore
    var following: bool

    /** The button shows whether the page's id is in the followed set. */
    predicate InSync()
      reads this, store
    {
      Truthy(id) ==> following == (id.value in store.ids)
    }

    /** `useState(MOCK_FOLLOWING_IDS.has(id ?? ''))`. */
    constructor(id: Option<string>, store: FollowStore)
      ensures this.id == id && this.store == store
      ensures following == (id.GetOr("") in store.ids)
      ensures InSync()
    {
      this.id := id;
      this.store := store;
      following := id.GetOr("") in store.ids;
    }

    /** handleFollow: adds the id to the followed set and marks the page as following. */
    method HandleFollow()
      modifies this, store
      ensures Truthy(id) ==> store.ids == old(store.ids) + {id.value} && following
      ensures !Truthy(id) ==> store.ids == old(store.ids) && following == old(following)
      ensures InSync()
    {
      if Truthy(id) {
        store.ids := store.ids + {id.value};
        following := true;
      }
    }

    /** handleUnfollow: removes the id from the followed set and clears the flag. */
    method HandleUnfollow()
      modifies this, store
      ensures Truthy(id) ==> store.ids == old(store.ids) - {id.value} && !following
      ensures !Truthy(id) ==> store.ids == old(store.ids) && following == old(following)
      ensures InSync()
    {
      if Truthy(id) {
        store.ids := store.ids - {id.value};
        following := false;
      }
    }
  }

  /**
   * Following twice leaves the same set as following once, following then
   * unfollowing leaves the id out, and no other id is touched.
   */
  method FollowThenUnfollow(store: FollowStore, id: string) returns (afterFollows: set<string>)
    requires id != ""
    modifies store
    ensures afterFollows == old(store.ids) + {id}
    ensures store.ids == old(store.ids) - {id}
  {
    var page := new ProfileViewPage(Some(id), store);
    page.HandleFollow();
    page.HandleFollow();
    afterFollows := store.ids;
    page.HandleUnfollow();
  }
}
