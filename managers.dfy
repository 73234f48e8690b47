/**
 * `ProfileManager`: the active / not-active split of a collection of profiles.
 *
 * The manager's date window is computed once, on the day the class is
 * defined, and is not recomputed per query. Each query is a filter over the
 * profiles on the day of their last activity.
 */
module Managers {
  import opened Wrappers
  import opened Models

  /** The class-level constants `START_DATE` and `END_DATE`. */
  datatype ProfileManager = ProfileManager(startDate: Day, endDate: Day)

  /** The manager as defined on `definitionDay`: the window ends that day and starts `inactiveDays` earlier. */
  function Define(definitionDay: Day, inactiveDays: int): (m: ProfileManager)
    ensures m.endDate == definitionDay
    ensures m.endDate - m.startDate == inactiveDays
  {
    var endDate := definitionDay;
    ProfileManager(endDate - inactiveDays, endDate)
  }

  /** The profile's last activity lies in the inclusive window `[startDate, endDate]`. */
  predicate InWindow(m: ProfileManager, p: Profile) {
    match LastActivity(p)
    case None => false
    case Some(last) => m.startDate <= last <= m.endDate
  }

  /** `active()`: the profiles whose last activity lies in the window, both ends included. */
  function Active(m: ProfileManager, ps: set<Profile>): (r: set<Profile>)
    ensures r <= ps
    ensures forall p :: p in ps ==> (p in r <==> p.activities != [] && m.startDate <= LastActivity(p).value <= m.endDate)
  {
    set p | p in ps && InWindow(m, p)
  }

  /** `not_active()`: the profiles the window excludes, among them every profile with no activity. */
  function NotActive(m: ProfileManager, ps: set<Profile>): (r: set<Profile>)
    ensures r <= ps
    ensures forall p :: p in ps && p.activities == [] ==> p in r
    ensures forall p :: p in ps ==> (p in r <==> !InWindow(m, p))
  {
    set p | p in ps && !InWindow(m, p)
  }

  /** Every profile falls on exactly one side: the two queries are disjoint, cover the input, and their sizes add up. */
  lemma Partition(m: ProfileManager, ps: set<Profile>)
    ensures Active(m, ps) !! NotActive(m, ps)
    ensures Active(m, ps) + NotActive(m, ps) == ps
    ensures NotActive(m, ps) == ps - Active(m, ps)
    ensures |Active(m, ps)| + |NotActive(m, ps)| == |ps|
  {
  }

  /**
   * Taking "now" to be the window's end day, the manager and `is_active`
   * agree on every profile except those whose last activity is the start
   * day or lies after the end day.
   */
  lemma AgreesWithIsActive(definitionDay: Day, inactiveDays: int, ps: set<Profile>, p: Profile)
    requires p in ps
    requires LastActivity(p) != Some(definitionDay - inactiveDays)
    requires LastActivity(p).None? || LastActivity(p).value <= definitionDay
    ensures p in Active(Define(definitionDay, inactiveDays), ps) <==> IsActive(p, definitionDay, inactiveDays)
  {
  }

  /** On the start day itself the manager counts a profile as active while `is_active` does not. */
  lemma DisagreesOnStartDay(definitionDay: Day, inactiveDays: int, ps: set<Profile>, p: Profile)
    requires p in ps && inactiveDays >= 0
    requires LastActivity(p) == Some(definitionDay - inactiveDays)
    ensures p in Active(Define(definitionDay, inactiveDays), ps)
    ensures !IsActive(p, definitionDay, inactiveDays)
  {
  }

  /** An activity dated after the end day is outside the window, yet `is_active` counts it as active. */
  lemma DisagreesOnFutureActivity(definitionDay: Day, inactiveDays: int, ps: set<Profile>, p: Profile)
    requires p in ps && inactiveDays >= 0
    requires LastActivity(p).Some? && LastActivity(p).value > definitionDay
    ensures p in NotActive(Define(definitionDay, inactiveDays), ps)
    ensures IsActive(p, definitionDay, inactiveDays)
  {
  }

  /**
   * Because the window is fixed on the definition day, a profile active on
   * a later day, by its activity on that very day, is reported as not active.
   */
  lemma StaleWindow(definitionDay: Day, today: Day, inactiveDays: int, ps: set<Profile>, p: Profile)
    requires p in ps && inactiveDays > 0 && today > definitionDay
    requires LastActivity(p) == Some(today)
    ensures p in NotActive(Define(definitionDay, inactiveDays), ps)
    ensures IsActive(p, today, inactiveDays)
  {
  }
}
