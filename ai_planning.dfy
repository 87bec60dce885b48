/**
 * `generate_smart_planning`: a fixed three-day schedule for each coach, built
 * by two nested loops: a morning session every day and an afternoon session
 * on the days at an even offset from today.
 */
module AiPlanning {
  import opened Wrappers
  import opened Calendar
  import opened Text

  /** The coach dictionaries the generator reads: `id`, and `nom`/`prenom` when present. */
  datatype CoachInput = CoachInput(id: int, nom: Option<string>, prenom: Option<string>)

  /** `{"date": ..., "session": ...}`. */
  datatype SessionSlot = SessionSlot(date: DateTime, session: string)

  /** `{"coach_id": ..., "name": ..., "planning": sessions}`. */
  datatype CoachPlan = CoachPlan(coachId: int, name: string, planning: seq<SessionSlot>)

  const MorningSecond: nat := 10 * 3600
  const AfternoonSecond: nat := 14 * 3600

  /** What iteration `i` of the inner loop appends. */
  function DaySessions(now: DateTime, i: nat): (r: seq<SessionSlot>)
    ensures |r| == if i % 2 == 0 then 2 else 1
  {
    [SessionSlot(DateTime(now.day + i, MorningSecond), "Matin")]
      + (if i % 2 == 0 then [SessionSlot(DateTime(now.day + i, AfternoonSecond), "Après-midi")] else [])
  }

  /** The sessions after `n` iterations of the inner loop. */
  function SessionsUpTo(now: DateTime, n: nat): seq<SessionSlot>
  {
    if n == 0 then [] else SessionsUpTo(now, n - 1) + DaySessions(now, n - 1)
  }

  /** The schedule every coach receives, written out. */
  function ThreeDaySchedule(now: DateTime): seq<SessionSlot> {
    [ SessionSlot(DateTime(now.day, MorningSecond), "Matin"),
      SessionSlot(DateTime(now.day, AfternoonSecond), "Après-midi"),
      SessionSlot(DateTime(now.day + 1, MorningSecond), "Matin"),
      SessionSlot(DateTime(now.day + 2, MorningSecond), "Matin"),
      SessionSlot(DateTime(now.day + 2, AfternoonSecond), "Après-midi") ]
  }

  /** Three iterations of the inner loop give exactly the written-out schedule. */
  lemma ThreeIterations(now: DateTime)
    ensures SessionsUpTo(now, 3) == ThreeDaySchedule(now)
  {
    assert SessionsUpTo(now, 1) == DaySessions(now, 0);
    assert SessionsUpTo(now, 2) == DaySessions(now, 0) + DaySessions(now, 1);
  }

  /** After `n` days, `n` morning sessions and one afternoon per even day. */
  lemma {:induction false} SessionsUpToCount(now: DateTime, n: nat)
    ensures |SessionsUpTo(now, n)| == n + (n + 1) / 2
  {
    if n > 0 {
      SessionsUpToCount(now, n - 1);
    }
  }

  /** Every session lies within the first `n` days from today, at 10:00 as
      "Matin" or at 14:00 as "Après-midi", and afternoons only on even offsets. */
  lemma {:induction false} SessionsUpToShape(now: DateTime, n: nat)
    ensures forall s :: s in SessionsUpTo(now, n) ==>
      && now.day <= s.date.day < now.day + n
      && (s.session == "Matin" <==> s.date.second == MorningSecond)
      && (s.session == "Après-midi" <==> s.date.second == AfternoonSecond)
      && (s.session == "Matin" || s.session == "Après-midi")
      && (s.session == "Après-midi" ==> (s.date.day - now.day) % 2 == 0)
  {
    if n > 0 {
      SessionsUpToShape(now, n - 1);
    }
  }

  /** `f"{coach.get('nom', 'John')} {coach.get('prenom', 'Doe')}"`. */
  function PlanName(c: CoachInput): (r: string)
    ensures c.nom.None? && c.prenom.None? ==> r == "John Doe"
    ensures c.nom.Some? && c.prenom.Some? ==> r == FullName(c.nom.value, c.prenom.value)
    ensures c.nom.Some? && c.prenom.None? ==> r == FullName(c.nom.value, "Doe")
    ensures c.nom.None? && c.prenom.Some? ==> r == FullName("John", c.prenom.value)
  {
    FullName(c.nom.GetOr("John"), c.prenom.GetOr("Doe"))
  }

  /** `generate_smart_planning(coachs)` with `datetime.now()` given as `now`. */
  method GenerateSmartPlanning(coachs: seq<CoachInput>, now: DateTime) returns (planningResult: seq<CoachPlan>)
    ensures |planningResult| == |coachs|
    ensures forall k :: 0 <= k < |coachs| ==>
      && planningResult[k].coachId == coachs[k].id
      && planningResult[k].name == PlanName(coachs[k])
      && planningResult[k].planning == ThreeDaySchedule(now)
  {
    planningResult := [];
    for c := 0 to |coachs|
      invariant |planningResult| == c
      invariant forall k :: 0 <= k < c ==>
        planningResult[k] == CoachPlan(coachs[k].id, PlanName(coachs[k]), ThreeDaySchedule(now))
    {
      var sessions: seq<SessionSlot> := [];
      for i := 0 to 3
        invariant sessions == SessionsUpTo(now, i)
      {
        var day := now.day + i;
        sessions := sessions + [SessionSlot(DateTime(day, MorningSecond), "Matin")];
        if i % 2 == 0 {
          sessions := sessions + [SessionSlot(DateTime(day, AfternoonSecond), "Après-midi")];
        }
      }
      ThreeIterations(now);
      planningResult := planningResult + [CoachPlan(coachs[c].id, PlanName(coachs[c]), sessions)];
    }
  }
}
