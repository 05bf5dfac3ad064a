/**
 * The education list page: the premium-access predicate, the search / category /
 * access filter over the fetched items, the topic tags on each card and the
 * condition for the upgrade call to action.
 */
module Edukasi {
  import opened Wrappers
  import opened Text
  import opened CivilDate
  import opened Database
  import Seqs

  /** An `educations` row joined with its category name. */
  datatype Education = Education(
    id: string,
    judul: string,
    topik: string,
    konten: string,
    mediaUrl: Option<string>,
    tipe: string,
    isPremium: bool,
    kategori: string)

  /**
   * The access predicate both education pages use: free content is open to all;
   * premium content needs a profile whose role is premium and whose `premium_until`
   * is absent or later than `now`.
   */
  predicate CanView(e: Education, profile: Option<Profile>, now: Date) {
    !e.isPremium || (profile.Some? && HasActivePremium(profile.value, now))
  }

  /** Title or topic contains the query, ignoring case. */
  predicate MatchesSearch(e: Education, query: string) {
    Contains(Lower(e.judul), Lower(query)) || Contains(Lower(e.topik), Lower(query))
  }

  /** The category tab: 'semua' (all) or one category name, compared exactly. */
  predicate MatchesCategory(e: Education, selected: string) {
    selected == "semua" || e.kategori == selected
  }

  predicate Shown(e: Education, query: string, selected: string, profile: Option<Profile>, now: Date) {
    MatchesSearch(e, query) && MatchesCategory(e, selected) && CanView(e, profile, now)
  }

  /**
   * `filteredEducations`: the items that match the search, the category and the
   * access predicate, in their fetched order, each as often as it was fetched.
   */
  function FilteredEducations(educations: seq<Education>, query: string, selected: string,
                              profile: Option<Profile>, now: Date): (r: seq<Education>)
    ensures Seqs.IsSubsequence(r, educations)
    ensures forall e :: e in r <==> e in educations && Shown(e, query, selected, profile, now)
    ensures forall e :: multiset(r)[e] == if Shown(e, query, selected, profile, now) then multiset(educations)[e] else 0
  {
    Seqs.Filter(educations, e => Shown(e, query, selected, profile, now))
  }

  // ---------------------------------------------------------------- search and category

  /** An empty query matches every item. */
  lemma EmptyQueryMatchesAll(e: Education)
    ensures MatchesSearch(e, "")
  {
    ContainsEmpty(Lower(e.judul));
  }

  /** The search ignores the case of the query. */
  lemma SearchIgnoresQueryCase(e: Education, query: string)
    ensures MatchesSearch(e, Lower(query)) <==> MatchesSearch(e, query)
  {
    LowerIdempotent(query);
  }

  /** A title that starts with the query (in any case) is found. */
  lemma TitlePrefixFound(e: Education, query: string, rest: string)
    requires Lower(e.judul) == Lower(query) + rest
    ensures MatchesSearch(e, query)
  {
    ContainsPrefix(Lower(query), rest);
  }

  /** With query "" and tab 'semua', the list is exactly the items the viewer may see. */
  lemma NoFilterShowsViewable(educations: seq<Education>, profile: Option<Profile>, now: Date)
    ensures FilteredEducations(educations, "", "semua", profile, now)
            == Seqs.Filter(educations, e => CanView(e, profile, now))
  {
    NoFilterShowsViewableRec(educations, profile, now);
  }

  lemma {:induction false} NoFilterShowsViewableRec(educations: seq<Education>, profile: Option<Profile>, now: Date)
    ensures Seqs.Filter(educations, e => Shown(e, "", "semua", profile, now))
            == Seqs.Filter(educations, e => CanView(e, profile, now))
    decreases |educations|
  {
    if educations != [] {
      EmptyQueryMatchesAll(educations[0]);
      NoFilterShowsViewableRec(educations[1..], profile, now);
    }
  }

  /** Typing a query or choosing a tab never lengthens the list. */
  lemma FilteringNarrows(educations: seq<Education>, query: string, selected: string, profile: Option<Profile>, now: Date)
    ensures |FilteredEducations(educations, query, selected, profile, now)|
            <= |FilteredEducations(educations, "", "semua", profile, now)|
  {
    forall e ensures Shown(e, query, selected, profile, now) ==> Shown(e, "", "semua", profile, now) {
      EmptyQueryMatchesAll(e);
    }
    Seqs.FilterMonotone(educations, e => Shown(e, query, selected, profile, now), e => Shown(e, "", "semua", profile, now));
  }

  // ---------------------------------------------------------------- access

  /**
   * A premium item is visible exactly to a premium profile that has not expired:
   * admins, ordinary users, visitors without a profile and expired premium users
   * do not see it.
   */
  lemma PremiumItemAccess(e: Education, profile: Option<Profile>, now: Date)
    requires e.isPremium
    ensures CanView(e, profile, now) <==>
              && profile.Some? && profile.value.role == Premium
              && (profile.value.premiumUntil.None? || Before(now, profile.value.premiumUntil.value))
    ensures profile.None? || profile.value.role in {Admin, Biasa} ==> !CanView(e, profile, now)
  {
  }

  /** Content one may view now could also be viewed at any earlier moment. */
  lemma AccessHoldsEarlier(e: Education, profile: Option<Profile>, earlier: Date, now: Date)
    requires CanView(e, profile, now) && Before(earlier, now)
    ensures CanView(e, profile, earlier)
  {
    if e.isPremium {
      ActivePremiumEarlier(profile.value, earlier, now);
    }
  }

  /** Premium items never reach the list of a viewer without active premium. */
  lemma PremiumHiddenFromInactive(educations: seq<Education>, query: string, selected: string,
                                  profile: Option<Profile>, now: Date)
    requires profile.None? || !HasActivePremium(profile.value, now)
    ensures forall e :: e in FilteredEducations(educations, query, selected, profile, now) ==> !e.isPremium
  {
  }

  // ---------------------------------------------------------------- card tags and the upgrade call

  /** `topik.split(' ').slice(0, 2)`: the first two words of the topic (fewer if it has fewer). */
  function CardTags(topik: string): (tags: seq<string>)
    ensures 1 <= |tags| <= 2 && |tags| <= |Split(topik, ' ')|
    ensures tags == Split(topik, ' ')[..|tags|]
    ensures |tags| == 2 || tags == Split(topik, ' ')
  {
    var words := Split(topik, ' ');
    if |words| <= 2 then words else words[..2]
  }

  /** A topic of two words a and b (no spaces in them) shows both as tags, and a third word is cut. */
  lemma CardTagsOfWords(a: string, b: string, c: string)
    requires ' ' !in a && ' ' !in b && ' ' !in c
    ensures CardTags(a + " " + b) == [a, b]
    ensures CardTags(a + " " + b + " " + c) == [a, b]
  {
    SplitAtSep(a, b, ' ');
    SplitWithoutSep(b, ' ');
    assert a + " " + b == a + [' '] + b;
    assert a + " " + b + " " + c == a + [' '] + (b + [' '] + c);
    SplitAtSep(a, b + [' '] + c, ' ');
    SplitAtSep(b, c, ' ');
  }

  /** `profile?.role !== 'premium'`: the upgrade call is shown to everyone whose role is not premium. */
  predicate ShowUpgradeCta(profile: Option<Profile>) {
    profile.None? || profile.value.role != Premium
  }

  /**
   * The call to action keys on the role alone: an active premium user never sees it,
   * and a premium user whose membership has expired sees neither the premium items
   * nor the invitation to upgrade.
   */
  lemma ExpiredPremiumSeesNeither(educations: seq<Education>, query: string, selected: string, p: Profile, now: Date)
    requires p.role == Premium && !Unexpired(p, now)
    ensures !ShowUpgradeCta(Some(p))
    ensures forall e :: e in FilteredEducations(educations, query, selected, Some(p), now) ==> !e.isPremium
  {
  }

  /**
   * Everyone shown the call to action is locked out of premium items, and everyone
   * with active premium is spared it.
   */
  lemma CtaAudience(e: Education, profile: Option<Profile>, now: Date)
    ensures ShowUpgradeCta(profile) && e.isPremium ==> !CanView(e, profile, now)
    ensures profile.Some? && HasActivePremium(profile.value, now) ==> !ShowUpgradeCta(profile)
  {
  }
}
