/**
 * The `Profile` record of the users app and its computed properties.
 *
 * Dates are whole day numbers; "today" is an explicit parameter instead of a
 * read of the wall clock.
 */
module Models {
  import opened Wrappers

  /** A calendar day, counted in whole days from a fixed origin. */
  type Day = int

  /**
   * The primary key of an `auth.User` row. Keys are never negative; a
   * negative id passed to a service can only end as "not found", so such
   * ids are left out.
   */
  type UserId = nat

  /** A row of `auth.User` as far as the account services touch it; `password` holds the hash. */
  datatype User = User(id: UserId, username: string, email: string, password: string)

  /** One activity event of a profile; only its day is used. */
  datatype Activity = Activity(date: Day)

  /**
   * A profile: the linked user (one-to-one), the creation day, the optional
   * first and last names, and the profile's activities in query order.
   */
  datatype Profile = Profile(
    user: User,
    createdAt: Day,
    firstName: Option<string>,
    lastName: Option<string>,
    activities: seq<Activity>)

  /** `last_activity`: the day of the last activity, absent when there is none. */
  function LastActivity(p: Profile): (r: Option<Day>)
    ensures r == None <==> p.activities == []
    ensures r.Some? ==> Activity(r.value) == p.activities[|p.activities| - 1]
  {
    if p.activities == [] then None else Some(p.activities[|p.activities| - 1].date)
  }

  /**
   * `is_active`: a profile with no activity is inactive; otherwise it is
   * active exactly when fewer than `inactiveDays` whole days have elapsed
   * since its last activity.
   */
  function IsActive(p: Profile, today: Day, inactiveDays: int): (r: bool)
    ensures r <==> p.activities != [] && today - p.activities[|p.activities| - 1].date < inactiveDays
  {
    match LastActivity(p)
    case None => false
    case Some(last) =>
      var deltaInDays := today - last;
      if deltaInDays >= inactiveDays then false else true
  }

  /** `username`: the linked user's name. */
  function Username(p: Profile): (r: string)
    ensures r == p.user.username
  {
    p.user.username
  }

  /** `email`: the linked user's address. */
  function Email(p: Profile): (r: string)
    ensures r == p.user.email
  {
    p.user.email
  }

  /** `__str__`: a profile prints as its username. */
  function Str(p: Profile): (r: string)
    ensures r == Username(p)
  {
    Username(p)
  }

  /** Once inactive, a profile stays inactive on every later day while its activities are unchanged. */
  lemma InactiveStaysInactive(p: Profile, today: Day, later: Day, inactiveDays: int)
    requires today <= later
    requires !IsActive(p, today, inactiveDays)
    ensures !IsActive(p, later, inactiveDays)
  {
  }

  /** Exactly `inactiveDays` elapsed days make a profile inactive; one day fewer keeps it active. */
  lemma ThresholdBoundary(p: Profile, today: Day, inactiveDays: int)
    requires LastActivity(p).Some?
    ensures LastActivity(p).value == today - inactiveDays ==> !IsActive(p, today, inactiveDays)
    ensures LastActivity(p).value == today - inactiveDays + 1 ==> IsActive(p, today, inactiveDays)
  {
  }

  /** An activity dated after today (a negative delta) counts as active for any non-negative threshold. */
  lemma FutureActivityIsActive(p: Profile, today: Day, inactiveDays: int)
    requires inactiveDays >= 0
    requires LastActivity(p).Some? && LastActivity(p).value > today
    ensures IsActive(p, today, inactiveDays)
  {
  }
}
