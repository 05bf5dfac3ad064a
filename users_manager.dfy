/**
 * The admin screen for users: the role/expiry update record `onSubmit` builds and
 * writes to one profile row, the edit form `handleEdit` fills in, the name search,
 * the role badge, the Expired marker and the three counters.
 */
module UsersManager {
  import opened Wrappers
  import opened Text
  import opened CivilDate
  import opened Database
  import Seqs

  /** The form: a role and the text of the date input ("" or `YYYY-MM-DD`). */
  datatype UserForm = UserForm(role: Role, premiumUntil: string)

  /** The form's default values. */
  const DefaultForm := UserForm(Biasa, "")

  /** What the update does to `premium_until`: leave it out of the record, set it to null, or set a date. */
  datatype ExpiryUpdate = KeepExpiry | ClearExpiry | SetExpiry(until: Date)

  /** `updateData`: always the role, and the expiry treatment. */
  datatype ProfileUpdate = ProfileUpdate(role: Role, expiry: ExpiryUpdate)

  /**
   * The update record for a submitted form, or `None` when the date text does not
   * denote a date (`toISOString` throws on an invalid date and the submit fails).
   * The record always holds the role; a premium role with a date sets that date, a
   * premium role without one leaves the stored expiry alone, and any other role
   * clears it.
   */
  function UpdateRecord(form: UserForm): (r: Option<ProfileUpdate>)
    ensures r.Some? ==> r.value.role == form.role
    ensures form.role != Premium ==> r == Some(ProfileUpdate(form.role, ClearExpiry))
    ensures form.role == Premium && form.premiumUntil == "" ==> r == Some(ProfileUpdate(Premium, KeepExpiry))
    ensures form.role == Premium && form.premiumUntil != "" ==>
              && (r.Some? <==> ParseIsoDate(form.premiumUntil).Some?)
              && (r.Some? ==> r.value.expiry == SetExpiry(ParseIsoDate(form.premiumUntil).value))
  {
    if form.role == Premium && form.premiumUntil != "" then
      var d := ParseIsoDate(form.premiumUntil);
      if d.None? then None else Some(ProfileUpdate(Premium, SetExpiry(d.value)))
    else if form.role != Premium then Some(ProfileUpdate(form.role, ClearExpiry))
    else Some(ProfileUpdate(Premium, KeepExpiry))
  }

  /** The row after `.update(updateData)`: keys left out of the record keep their values. */
  function ApplyUpdate(p: Profile, u: ProfileUpdate): (q: Profile)
    ensures q.id == p.id && q.nama == p.nama && q.role == u.role
    ensures u.expiry == KeepExpiry ==> q.premiumUntil == p.premiumUntil
    ensures u.expiry == ClearExpiry ==> q.premiumUntil.None?
    ensures u.expiry.SetExpiry? ==> q.premiumUntil == Some(u.expiry.until)
  {
    match u.expiry
    case KeepExpiry => p.(role := u.role)
    case ClearExpiry => p.(role := u.role, premiumUntil := None)
    case SetExpiry(d) => p.(role := u.role, premiumUntil := Some(d))
  }

  /** The profiles after a submit, and whether it succeeded. */
  datatype SubmitResult = SubmitResult(profiles: map<string, Profile>, saved: bool)

  /**
   * `onSubmit` for the user being edited (`None` when no user is): nothing happens
   * without one; otherwise the record is written to the row with that id, if there
   * is such a row, unless building the record or the update fails.
   */
  function Submit(profiles: map<string, Profile>, editingId: Option<string>, form: UserForm, updateFails: bool): (r: SubmitResult)
    ensures r.profiles.Keys == profiles.Keys
    ensures forall id :: id in profiles && Some(id) != editingId ==> r.profiles[id] == profiles[id]
    ensures editingId.None? ==> r == SubmitResult(profiles, false)
    ensures !r.saved ==> r.profiles == profiles
    ensures r.saved ==> UpdateRecord(form).Some? && !updateFails
    ensures editingId.Some? ==> (r.saved <==> UpdateRecord(form).Some? && !updateFails)
    ensures r.saved && editingId.value in profiles ==>
              r.profiles[editingId.value] == ApplyUpdate(profiles[editingId.value], UpdateRecord(form).value)
  {
    if editingId.None? then SubmitResult(profiles, false)
    else
      var u := UpdateRecord(form);
      if u.None? || updateFails then SubmitResult(profiles, false)
      else
        var id := editingId.value;
        if id in profiles then SubmitResult(profiles[id := ApplyUpdate(profiles[id], u.value)], true)
        else SubmitResult(profiles, true)
  }

  /** The submit handler, building `updateData` key by key as the component does. */
  method OnSubmit(db: Store, editingId: Option<string>, form: UserForm, updateFails: bool) returns (saved: bool)
    requires db.Valid()
    modifies db
    ensures db.Valid()
    ensures SubmitResult(db.profiles, saved) == Submit(old(db.profiles), editingId, form, updateFails)
    ensures db.transactions == old(db.transactions) && db.emailsSent == old(db.emailsSent)
  {
    if editingId.None? {
      return false;
    }
    var expiry := KeepExpiry;
    if form.role == Premium && form.premiumUntil != "" {
      var parsed := ParseIsoDate(form.premiumUntil);
      if parsed.None? {
        return false;
      }
      expiry := SetExpiry(parsed.value);
    } else if form.role != Premium {
      expiry := ClearExpiry;
    }
    var updateData := ProfileUpdate(form.role, expiry);
    if updateFails {
      return false;
    }
    var id := editingId.value;
    if id in db.profiles {
      db.profiles := db.profiles[id := ApplyUpdate(db.profiles[id], updateData)];
    }
    return true;
  }

  /** Demoting a user (to 'biasa' or 'admin') erases the expiry, so no Expired marker or entitlement remains. */
  lemma DemotionClearsExpiry(profiles: map<string, Profile>, id: string, form: UserForm, now: Date)
    requires id in profiles && form.role != Premium
    ensures var r := Submit(profiles, Some(id), form, false);
            && r.saved
            && r.profiles[id].role == form.role && r.profiles[id].premiumUntil.None?
            && !HasActivePremium(r.profiles[id], now) && !ExpiredMarker(r.profiles[id], now)
  {
  }

  /**
   * Promoting a user whose old expiry has passed without entering a date keeps that
   * expiry: the user gets role premium but no access.
   */
  lemma PromotionWithoutDateStaysExpired(profiles: map<string, Profile>, id: string, now: Date)
    requires id in profiles && profiles[id].premiumUntil.Some? && !Before(now, profiles[id].premiumUntil.value)
    ensures var r := Submit(profiles, Some(id), UserForm(Premium, ""), false);
            && r.saved && r.profiles[id].role == Premium
            && r.profiles[id].premiumUntil == profiles[id].premiumUntil
            && !HasActivePremium(r.profiles[id], now)
  {
  }

  /** Promoting with a date later than `now` grants access until that date. */
  lemma PromotionWithDateGrantsAccess(profiles: map<string, Profile>, id: string, d: Date, now: Date)
    requires id in profiles && Valid(d) && 0 <= d.year <= 9999 && Before(now, d)
    ensures var r := Submit(profiles, Some(id), UserForm(Premium, FormatIsoDate(d)), false);
            && r.saved && r.profiles[id].premiumUntil == Some(d)
            && HasActivePremium(r.profiles[id], now)
  {
    ParseFormat(d);
  }

  // ---------------------------------------------------------------- the edit form

  /**
   * `handleEdit`: the role is copied; the date field receives the stored expiry as
   * `YYYY-MM-DD`, and keeps whatever it held when the user has no expiry.
   */
  function EditForm(user: Profile, current: UserForm): (f: UserForm)
    requires user.premiumUntil.Some? ==> Valid(user.premiumUntil.value) && 0 <= user.premiumUntil.value.year <= 9999
    ensures f.role == user.role
    ensures user.premiumUntil.Some? ==> ParseIsoDate(f.premiumUntil) == user.premiumUntil
    ensures user.premiumUntil.None? ==> f.premiumUntil == current.premiumUntil
  {
    if user.premiumUntil.Some? then
      ParseFormat(user.premiumUntil.value);
      UserForm(user.role, FormatIsoDate(user.premiumUntil.value))
    else UserForm(user.role, current.premiumUntil)
  }

  /**
   * Opening the editor on a freshly reset form and saving it unchanged leaves a
   * premium user's row as it was, and clears the expiry of any other user.
   */
  lemma EditThenSaveUnchanged(user: Profile)
    requires user.premiumUntil.Some? ==> Valid(user.premiumUntil.value) && 0 <= user.premiumUntil.value.year <= 9999
    ensures var u := UpdateRecord(EditForm(user, DefaultForm));
            && u.Some?
            && (user.role == Premium ==> ApplyUpdate(user, u.value) == user)
            && (user.role != Premium ==> ApplyUpdate(user, u.value) == user.(premiumUntil := None))
  {
  }

  // ---------------------------------------------------------------- list, badge, counters

  /** `filteredUsers`: the users whose name contains the query, ignoring case, in their order. */
  function FilteredUsers(users: seq<Profile>, query: string): (r: seq<Profile>)
    ensures Seqs.IsSubsequence(r, users)
    ensures forall u :: u in r <==> u in users && Contains(Lower(u.nama), Lower(query))
  {
    Seqs.Filter(users, (u: Profile) => Contains(Lower(u.nama), Lower(query)))
  }

  /** An empty search lists every user. */
  lemma EmptySearchListsAll(users: seq<Profile>)
    ensures FilteredUsers(users, "") == users
  {
    forall u | u in users ensures Contains(Lower(u.nama), Lower("")) {
      ContainsEmpty(Lower(u.nama));
    }
    Seqs.FilterKeepsAll(users, (u: Profile) => Contains(Lower(u.nama), Lower("")));
  }

  datatype Badge = AdminBadge | PremiumBadge(active: bool) | BiasaBadge

  /** `getRoleBadge`: admin first, then premium (active or expired), then ordinary. */
  function RoleBadge(p: Profile, now: Date): (b: Badge)
    ensures b == AdminBadge <==> p.role == Admin
    ensures b.PremiumBadge? <==> p.role == Premium
    ensures b == PremiumBadge(true) <==> HasActivePremium(p, now)
  {
    if p.role == Admin then AdminBadge
    else if p.role == Premium then PremiumBadge(p.premiumUntil.None? || Before(now, p.premiumUntil.value))
    else BiasaBadge
  }

  /** The Expired marker next to the date: an expiry at or before `now`, whatever the role. */
  predicate ExpiredMarker(p: Profile, now: Date) {
    p.premiumUntil.Some? && !Before(now, p.premiumUntil.value)
  }

  /**
   * For premium users the marker and the greyed-out badge agree; the marker never
   * shows next to an active entitlement, but it can show next to an admin.
   */
  lemma ExpiredMarkerAgreesWithBadge(p: Profile, now: Date)
    ensures p.role == Premium ==> (ExpiredMarker(p, now) <==> RoleBadge(p, now) == PremiumBadge(false))
    ensures ExpiredMarker(p, now) ==> !HasActivePremium(p, now)
    ensures p.role == Admin && ExpiredMarker(p, now) ==> RoleBadge(p, now) == AdminBadge
  {
  }

  /** "Premium Aktif": users with role premium whose expiry is absent or later than `now`. */
  function ActivePremiumCount(users: seq<Profile>, now: Date): nat {
    |Seqs.Filter(users, (u: Profile) => HasActivePremium(u, now))|
  }

  /** "Admin": users with role admin. */
  function AdminCount(users: seq<Profile>): nat {
    |Seqs.Filter(users, (u: Profile) => u.role == Admin)|
  }

  /** The two counters never add up to more than the total. */
  lemma CountsWithinTotal(users: seq<Profile>, now: Date)
    ensures ActivePremiumCount(users, now) + AdminCount(users) <= |users|
  {
    Seqs.FilterDisjointCounts(users, (u: Profile) => HasActivePremium(u, now), (u: Profile) => u.role == Admin);
  }

  /** The active counter counts exactly the users whose badge is the active premium badge. */
  lemma {:induction false} ActiveCountMatchesBadges(users: seq<Profile>, now: Date)
    ensures ActivePremiumCount(users, now) == |Seqs.Filter(users, (u: Profile) => RoleBadge(u, now) == PremiumBadge(true))|
    decreases |users|
  {
    if users != [] {
      ActiveCountMatchesBadges(users[1..], now);
    }
  }
}
