/**
 * The least-loaded coach assignment of the planning API: the coach with the
 * fewest plannings on the requested calendar day gets the new planning, the
 * first such coach in table order winning ties.
 */
module PlanningService {
  import opened Wrappers
  import opened Calendar
  import opened Records

  /** Plannings of coach `coachId` whose date falls on calendar day `day`
      (`func.date(Planning.date) == date.date()`; the time of day is ignored). */
  function CountOn(plannings: seq<Planning>, coachId: int, day: int): (n: nat)
    ensures n <= |plannings|
    ensures n == 0 <==> forall p :: p in plannings ==> p.coachId != coachId || p.date.day != day
  {
    if plannings == [] then 0
    else
      var last := plannings[|plannings| - 1];
      CountOn(plannings[..|plannings| - 1], coachId, day)
        + (if last.coachId == coachId && last.date.day == day then 1 else 0)
  }

  /** Appending one planning adds one to its own coach and day, and nothing elsewhere. */
  lemma CountOnAppend(plannings: seq<Planning>, p: Planning, coachId: int, day: int)
    ensures CountOn(plannings + [p], coachId, day)
         == CountOn(plannings, coachId, day) + (if p.coachId == coachId && p.date.day == day then 1 else 0)
  {
    assert (plannings + [p])[..|plannings|] == plannings;
  }

  /** The load of the coach at index `i` on day `day`. */
  function Load(coaches: seq<Coach>, plannings: seq<Planning>, day: int, i: int): nat
    requires 0 <= i < |coaches|
  {
    CountOn(plannings, coaches[i].id, day)
  }

  /** Index `k` is the coach `assign_coach` picks: its load is minimal, and
      every earlier coach is strictly busier (the comparison is a strict `<`). */
  predicate IsLeastLoaded(coaches: seq<Coach>, plannings: seq<Planning>, day: int, k: int) {
    && 0 <= k < |coaches|
    && (forall j :: 0 <= j < |coaches| ==> Load(coaches, plannings, day, k) <= Load(coaches, plannings, day, j))
    && (forall j :: 0 <= j < k ==> Load(coaches, plannings, day, j) > Load(coaches, plannings, day, k))
  }

  /** At most one coach is the least loaded one: the choice is deterministic. */
  lemma LeastLoadedIsUnique(coaches: seq<Coach>, plannings: seq<Planning>, day: int, k1: int, k2: int)
    requires IsLeastLoaded(coaches, plannings, day, k1)
    requires IsLeastLoaded(coaches, plannings, day, k2)
    ensures k1 == k2
  {
    assert Load(coaches, plannings, day, k1) == Load(coaches, plannings, day, k2);
  }

  /** The arg-min scan of `assign_coach`: `None` stands for `best_coach = None`
      and for `min_sessions = float('inf')`. */
  method LeastLoadedCoach(coaches: seq<Coach>, plannings: seq<Planning>, day: int) returns (best: Option<nat>)
    ensures best.None? <==> coaches == []
    ensures best.Some? ==> IsLeastLoaded(coaches, plannings, day, best.value)
  {
    best := None;
    var minSessions: Option<nat> := None;
    for i := 0 to |coaches|
      invariant best.None? <==> i == 0
      invariant best.None? <==> minSessions.None?
      invariant best.Some? ==> best.value < i && minSessions.value == Load(coaches, plannings, day, best.value)
      invariant best.Some? ==> forall j :: 0 <= j < i ==> minSessions.value <= Load(coaches, plannings, day, j)
      invariant best.Some? ==> forall j :: 0 <= j < best.value ==> Load(coaches, plannings, day, j) > minSessions.value
    {
      var sessionsCount := CountOn(plannings, coaches[i].id, day);
      if minSessions.None? || sessionsCount < minSessions.value {
        minSessions := Some(sessionsCount);
        best := Some(i);
      }
    }
  }

  /** All coaches' loads on `day` are within one of each other. */
  predicate Balanced(coaches: seq<Coach>, plannings: seq<Planning>, day: int) {
    forall i, j :: 0 <= i < |coaches| && 0 <= j < |coaches| ==>
      Load(coaches, plannings, day, i) <= Load(coaches, plannings, day, j) + 1
  }

  /** Giving the least-loaded coach one more planning on `day` keeps the loads balanced. */
  lemma AssignmentKeepsBalance(coaches: seq<Coach>, plannings: seq<Planning>, day: int, k: int, p: Planning)
    requires UniqueCoachIds(coaches)
    requires Balanced(coaches, plannings, day)
    requires IsLeastLoaded(coaches, plannings, day, k)
    requires p.coachId == coaches[k].id && p.date.day == day
    ensures Balanced(coaches, plannings + [p], day)
  {
    forall i | 0 <= i < |coaches|
      ensures Load(coaches, plannings + [p], day, i)
           == Load(coaches, plannings, day, i) + (if i == k then 1 else 0)
    {
      CountOnAppend(plannings, p, coaches[i].id, day);
    }
  }

  /** A planning on another day leaves every load on `day` as it was. */
  lemma AssignmentLeavesOtherDays(coaches: seq<Coach>, plannings: seq<Planning>, day: int, p: Planning, i: int)
    requires 0 <= i < |coaches|
    requires p.date.day != day
    ensures Load(coaches, plannings + [p], day, i) == Load(coaches, plannings, day, i)
  {
    CountOnAppend(plannings, p, coaches[i].id, day);
  }

  /** Plannings carry distinct ids, all below the next id to hand out. */
  predicate IdsBelow(plannings: seq<Planning>, nextId: int) {
    && (forall i :: 0 <= i < |plannings| ==> plannings[i].id < nextId)
    && (forall i, j :: 0 <= i < j < |plannings| ==> plannings[i].id != plannings[j].id)
  }

  /** The `coachs` and `planning` tables; `nextId` is the auto-increment counter. */
  class PlanningStore {
    var coaches: seq<Coach>
    var plannings: seq<Planning>
    var nextId: nat

    ghost predicate Valid()
      reads this
    {
      IdsBelow(plannings, nextId)
    }

    constructor (coaches0: seq<Coach>, plannings0: seq<Planning>, nextId0: nat)
      requires IdsBelow(plannings0, nextId0)
      ensures Valid()
      ensures coaches == coaches0 && plannings == plannings0 && nextId == nextId0
    {
      coaches, plannings, nextId := coaches0, plannings0, nextId0;
    }

    /** `assign_coach(date, session)`: `None` when there is no coach, else the
        planning appended for the least-loaded coach on `date`'s calendar day. */
    method AssignCoach(date: DateTime, session: string) returns (r: Option<Planning>)
      requires Valid()
      modifies this`plannings, this`nextId
      ensures Valid()
      ensures r.None? <==> coaches == []
      ensures r.None? ==> plannings == old(plannings) && nextId == old(nextId)
      ensures r.Some? ==> plannings == old(plannings) + [r.value] && nextId == old(nextId) + 1
      ensures r.Some? ==> r.value.id == old(nextId) && r.value.date == date && r.value.session == session
      ensures r.Some? ==> exists k :: IsLeastLoaded(coaches, old(plannings), date.day, k) && r.value.coachId == coaches[k].id
    {
      var best := LeastLoadedCoach(coaches, plannings, date.day);
      if best.Some? {
        var planning := Planning(nextId, date, session, coaches[best.value].id);
        plannings := plannings + [planning];
        nextId := nextId + 1;
        r := Some(planning);
      } else {
        r := None;
      }
    }
  }
}
