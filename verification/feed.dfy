/**
 * The discovery feed on the home page (src/pages/HeroPage.tsx): the given
 * profiles without venues, narrowed by a case-insensitive search on the
 * display name or the location.
 */
module Feed {
  import opened Wrappers
  import opened Seqs
  import opened Text
  import opened Schema

  predicate NotVenue(p: Profile) {
    p.role != Venue
  }

  /** The lower-cased query `q` occurs in the lower-cased name, or in the lower-cased location when there is one. */
  predicate MatchesQuery(p: Profile, q: string) {
    || Contains(ToLower(p.display_name), q)
    || (p.location.Some? && Contains(ToLower(p.location.value), q))
  }

  /** What the feed shows for the search box's text. */
  function Feed(profiles: seq<Profile>, search: string): (r: seq<Profile>)
    ensures IsSubsequence(r, profiles)
    ensures forall p :: p in r <==>
      (p in profiles && p.role != Venue && (AllSpace(search) || MatchesQuery(p, ToLower(Trim(search)))))
  {
    var list := Filter(profiles, NotVenue);
    if Trim(search) != "" then
      var q := ToLower(Trim(search));
      var r := Filter(list, p => MatchesQuery(p, q));
      SubsequenceTransitive(r, list, profiles);
      r
    else
      list
  }

  /** A blank search shows every profile that is not a venue, in the given order. */
  lemma BlankSearchShowsAll(profiles: seq<Profile>, search: string)
    requires AllSpace(search)
    ensures Feed(profiles, search) == Filter(profiles, NotVenue)
  {
  }

  /** Surrounding whitespace in the search box changes nothing. */
  lemma SearchIgnoresPadding(profiles: seq<Profile>, search: string)
    ensures Feed(profiles, Trim(search)) == Feed(profiles, search)
  {
    assert Trim(Trim(search)) == Trim(search);
  }

  /** A search only narrows the feed: its result keeps the order of the unsearched feed. */
  lemma SearchNarrows(profiles: seq<Profile>, search: string)
    ensures IsSubsequence(Feed(profiles, search), Feed(profiles, ""))
  {
    var list := Filter(profiles, NotVenue);
    assert Feed(profiles, "") == list;
    if Trim(search) != "" {
      var q := ToLower(Trim(search));
      assert Feed(profiles, search) == Filter(list, p => MatchesQuery(p, q));
    } else {
      SubsequenceOfSelf(list);
    }
  }

  /** A profile without a location is found by its name alone. */
  lemma NoLocationMatchesByName(p: Profile, q: string)
    requires p.location.None?
    ensures MatchesQuery(p, q) <==> Contains(ToLower(p.display_name), q)
  {
  }
}
