/**
 * The planning API handlers over the in-memory tables: the per-coach listing,
 * the detailed listing, the debug listing and the assignment endpoint.
 */
module PlanningRoutes {
  import opened Wrappers
  import opened Text
  import opened Calendar
  import opened Records
  import opened PlanningService

  /** `Planning.query.filter_by(coach_id=coachId)`, in table order. */
  function CoachPlannings(plannings: seq<Planning>, coachId: int): (r: seq<Planning>)
    ensures forall p :: p in r ==> p.coachId == coachId
    ensures forall p :: p in plannings && p.coachId == coachId ==> p in r
    ensures multiset(r) <= multiset(plannings)
    ensures forall p: Planning :: p.coachId == coachId ==> multiset(r)[p] == multiset(plannings)[p]
  {
    if plannings == [] then []
    else
      var rest := CoachPlannings(plannings[1..], coachId);
      assert plannings == [plannings[0]] + plannings[1..];
      if plannings[0].coachId == coachId then [plannings[0]] + rest else rest
  }

  predicate SortedByDate(s: seq<Planning>) {
    forall i, j :: 0 <= i < j < |s| ==> AtOrBefore(s[i].date, s[j].date)
  }

  /** Inserts `p` before the first planning that is not earlier than it. */
  function InsertByDate(p: Planning, s: seq<Planning>): (r: seq<Planning>)
    ensures multiset(r) == multiset(s) + multiset{p}
    ensures |r| == |s| + 1
  {
    if s == [] then [p]
    else if AtOrBefore(p.date, s[0].date) then [p] + s
    else
      assert s == [s[0]] + s[1..];
      [s[0]] + InsertByDate(p, s[1..])
  }

  lemma {:induction false} InsertByDateSorted(p: Planning, s: seq<Planning>)
    requires SortedByDate(s)
    ensures SortedByDate(InsertByDate(p, s))
  {
    if s != [] && !AtOrBefore(p.date, s[0].date) {
      var rest := InsertByDate(p, s[1..]);
      InsertByDateSorted(p, s[1..]);
      assert s == [s[0]] + s[1..];
      forall x | x in rest ensures AtOrBefore(s[0].date, x.date) {
        assert x in multiset(rest);
        if x != p {
          assert x in multiset(s[1..]);
        }
      }
    }
  }

  /** `order_by(Planning.date.asc())`, as a stable insertion sort. */
  function SortByDate(s: seq<Planning>): (r: seq<Planning>)
    ensures multiset(r) == multiset(s)
    ensures |r| == |s|
  {
    if s == [] then []
    else
      assert s == [s[0]] + s[1..];
      InsertByDate(s[0], SortByDate(s[1..]))
  }

  /** The sorted listing is in ascending date order. */
  lemma {:induction false} SortByDateSorted(s: seq<Planning>)
    ensures SortedByDate(SortByDate(s))
  {
    if s != [] {
      SortByDateSorted(s[1..]);
      InsertByDateSorted(s[0], SortByDate(s[1..]));
    }
  }

  // ---------------------------------------------------------------- listing

  /** One element of `planning_list` in `get_planning_by_coach`. */
  datatype ListingEntry = ListingEntry(id: int, date: DateTime, session: string, coachId: int, coachNom: string)

  /** The 404 reply, or the 200 reply with `coach_name`, `count` and `plannings`. */
  datatype ListingResponse =
    | ListingCoachNotFound(coachId: int)
    | Listing(coachName: string, count: nat, plannings: seq<ListingEntry>)

  function ListingEntryOf(p: Planning, coach: Coach): (e: ListingEntry)
    ensures e.id == p.id && e.date == p.date && e.coachId == p.coachId
    ensures e.session != "" && (p.session != "" ==> e.session == p.session)
    ensures e.coachNom == FullName(coach.prenom, coach.nom)
  {
    ListingEntry(p.id, p.date, OrDefault(p.session, "Session non définie"),
                 p.coachId, FullName(coach.prenom, coach.nom))
  }

  /** `get_planning_by_coach(coach_id)`. */
  method PlanningByCoach(coaches: seq<Coach>, plannings: seq<Planning>, coachId: int) returns (resp: ListingResponse)
    ensures resp.ListingCoachNotFound? <==> FindCoach(coaches, coachId).None?
    ensures resp.ListingCoachNotFound? ==> resp.coachId == coachId
    ensures resp.Listing? ==>
      var coach := FindCoach(coaches, coachId).value;
      var rows := SortByDate(CoachPlannings(plannings, coachId));
      && resp.coachName == FullName(coach.prenom, coach.nom)
      && resp.count == |resp.plannings| == |CoachPlannings(plannings, coachId)|
      && (forall k :: 0 <= k < |resp.plannings| ==> resp.plannings[k] == ListingEntryOf(rows[k], coach))
      && (forall k, l :: 0 <= k < l < |resp.plannings| ==> AtOrBefore(resp.plannings[k].date, resp.plannings[l].date))
      && (forall k :: 0 <= k < |resp.plannings| ==> resp.plannings[k].coachId == coachId)
  {
    var found := FindCoach(coaches, coachId);
    if found.None? {
      return ListingCoachNotFound(coachId);
    }
    var coach := found.value;
    var rows := SortByDate(CoachPlannings(plannings, coachId));
    SortByDateSorted(CoachPlannings(plannings, coachId));
    var planningList: seq<ListingEntry> := [];
    for i := 0 to |rows|
      invariant |planningList| == i
      invariant forall k :: 0 <= k < i ==> planningList[k] == ListingEntryOf(rows[k], coach)
    {
      planningList := planningList + [ListingEntryOf(rows[i], coach)];
    }
    forall k | 0 <= k < |rows| ensures rows[k].coachId == coachId {
      assert rows[k] in multiset(CoachPlannings(plannings, coachId));
    }
    resp := Listing(FullName(coach.prenom, coach.nom), |planningList|, planningList);
  }

  // ------------------------------------------------------------ debug listing

  /** One element of `planning_details` in `debug_coach_plannings`. */
  datatype DebugEntry = DebugEntry(planningId: int, date: DateTime, session: string, coachId: int)

  datatype DebugResponse = DebugResponse(coachId: int, totalInDatabase: nat, planningsRetrieved: nat, plannings: seq<DebugEntry>)

  /** `debug_coach_plannings(coach_id)`: no existence check on the coach, the
      rows in table order. */
  method DebugCoachPlannings(plannings: seq<Planning>, coachId: int) returns (resp: DebugResponse)
    ensures resp.coachId == coachId
    ensures resp.totalInDatabase == resp.planningsRetrieved == |resp.plannings|
    ensures |resp.plannings| == |CoachPlannings(plannings, coachId)|
    ensures forall k :: 0 <= k < |resp.plannings| ==>
      var p := CoachPlannings(plannings, coachId)[k];
      resp.plannings[k] == DebugEntry(p.id, p.date, p.session, p.coachId) && p.coachId == coachId
  {
    var totalCount := |CoachPlannings(plannings, coachId)|;
    var rows := CoachPlannings(plannings, coachId);
    var details: seq<DebugEntry> := [];
    for i := 0 to |rows|
      invariant |details| == i
      invariant forall k :: 0 <= k < i ==> details[k] == DebugEntry(rows[k].id, rows[k].date, rows[k].session, rows[k].coachId)
    {
      details := details + [DebugEntry(rows[i].id, rows[i].date, rows[i].session, rows[i].coachId)];
    }
    forall k | 0 <= k < |rows| ensures rows[k].coachId == coachId {
      assert rows[k] in rows;
    }
    resp := DebugResponse(coachId, totalCount, |rows|, details);
  }

  // --------------------------------------------------------- detailed listing

  /** One element of `planning_list` in `get_detailed_planning`; `date` and
      `jour` are the day ordinal and its `weekday()`, before formatting. */
  datatype DetailedEntry = DetailedEntry(date: int, jour: int, session: string, typeSeance: string, duree: string)

  datatype DetailedResponse =
    | DetailedCoachNotFound
    | Detailed(coachName: string, totalSeances: nat, planning: seq<DetailedEntry>)

  /** `coach.specialite or "Non défini"`. */
  function SessionType(coach: Coach): (t: string)
    ensures t != ""
    ensures coach.specialite.Some? && coach.specialite.value != "" ==> t == coach.specialite.value
    ensures coach.specialite.None? || coach.specialite.value == "" ==> t == "Non défini"
  {
    OrDefault(coach.specialite.GetOr(""), "Non défini")
  }

  /** `get_detailed_planning(coach_id)`. */
  method DetailedPlanning(coaches: seq<Coach>, plannings: seq<Planning>, coachId: int) returns (resp: DetailedResponse)
    ensures resp.DetailedCoachNotFound? <==> FindCoach(coaches, coachId).None?
    ensures resp.Detailed? ==>
      var coach := FindCoach(coaches, coachId).value;
      var rows := SortByDate(CoachPlannings(plannings, coachId));
      && resp.coachName == FullName(coach.prenom, coach.nom)
      && resp.totalSeances == |resp.planning| == |CoachPlannings(plannings, coachId)|
      && (forall k :: 0 <= k < |resp.planning| ==>
            && resp.planning[k].duree == "1h"
            && resp.planning[k].typeSeance == SessionType(coach)
            && resp.planning[k].date == rows[k].date.day
            && resp.planning[k].jour == Weekday(rows[k].date.day)
            && resp.planning[k].session == rows[k].session)
  {
    var found := FindCoach(coaches, coachId);
    if found.None? {
      return DetailedCoachNotFound;
    }
    var coach := found.value;
    var rows := SortByDate(CoachPlannings(plannings, coachId));
    var planningList: seq<DetailedEntry> := [];
    for i := 0 to |rows|
      invariant |planningList| == i
      invariant forall k :: 0 <= k < i ==>
        planningList[k] == DetailedEntry(rows[k].date.day, Weekday(rows[k].date.day), rows[k].session, SessionType(coach), "1h")
    {
      var p := rows[i];
      planningList := planningList + [DetailedEntry(p.date.day, Weekday(p.date.day), p.session, SessionType(coach), "1h")];
    }
    resp := Detailed(FullName(coach.prenom, coach.nom), |rows|, planningList);
  }

  // ----------------------------------------------------------- assignment

  /** The replies of `add_planning` with their HTTP status. */
  datatype AssignResponse =
    | MissingFields             // 400 "date et session requis"
    | NoCoachAvailable          // 400 "Aucun coach disponible"
    | Created(planning: Planning)  // 201
    | ServerError               // 500, the `except Exception` branch
  {
    function Status(): int {
      match this
      case MissingFields => 400
      case NoCoachAvailable => 400
      case Created(_) => 201
      case ServerError => 500
    }
  }

  /** `add_planning` with `date` and `session` read from the request body;
      `parseIso` stands for `datetime.fromisoformat`, `None` for its `ValueError`. */
  method AddPlanning(store: PlanningStore, date: Option<string>, session: Option<string>,
                     parseIso: string -> Option<DateTime>) returns (resp: AssignResponse)
    requires store.Valid()
    modifies store`plannings, store`nextId
    ensures store.Valid()
    ensures resp.MissingFields? <==> !Truthy(date) || !Truthy(session)
    ensures resp.ServerError? <==> Truthy(date) && Truthy(session) && parseIso(date.value).None?
    ensures resp.NoCoachAvailable? <==>
      Truthy(date) && Truthy(session) && parseIso(date.value).Some? && store.coaches == []
    ensures !resp.Created? ==> store.plannings == old(store.plannings) && store.nextId == old(store.nextId)
    ensures resp.Created? ==>
      && store.plannings == old(store.plannings) + [resp.planning]
      && resp.planning.date == parseIso(date.value).value
      && resp.planning.session == session.value
      && resp.planning.id == old(store.nextId)
      && exists k :: IsLeastLoaded(store.coaches, old(store.plannings), resp.planning.date.day, k)
                  && resp.planning.coachId == store.coaches[k].id
  {
    if !Truthy(date) || !Truthy(session) {
      return MissingFields;
    }
    var parsed := parseIso(date.value);
    if parsed.None? {
      return ServerError;
    }
    var planning := store.AssignCoach(parsed.value, session.value);
    if planning.Some? {
      resp := Created(planning.value);
    } else {
      resp := NoCoachAvailable;
    }
  }
}
