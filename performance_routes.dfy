/**
 * The performance API: `get_all_performances` groups the flat table of
 * performances into one bucket per coach; `add_performance` inserts a row.
 */
module PerformanceRoutes {
  import opened Wrappers
  import opened Calendar
  import opened Records
  import opened Text

  /** `{"date": ..., "client_count": ..., "rating": ...}`. */
  datatype PerfView = PerfView(date: DateTime, clientCount: int, rating: Option<real>)

  /** `{"coach_id": ..., "name": ..., "performances": coach_perfs}`. */
  datatype CoachPerformances = CoachPerformances(coachId: int, name: string, performances: seq<PerfView>)

  /** `[p for p in performances if p.coach_id == coach.id]`. */
  function CoachPerfRows(perfs: seq<Performance>, coachId: int): (r: seq<Performance>)
    ensures forall p :: p in r ==> p.coachId == coachId
    ensures forall p :: p in perfs && p.coachId == coachId ==> p in r
    ensures forall p: Performance :: p.coachId == coachId ==> multiset(r)[p] == multiset(perfs)[p]
    ensures forall p: Performance :: p.coachId != coachId ==> multiset(r)[p] == 0
  {
    if perfs == [] then []
    else
      var rest := CoachPerfRows(perfs[1..], coachId);
      assert perfs == [perfs[0]] + perfs[1..];
      if perfs[0].coachId == coachId then [perfs[0]] + rest else rest
  }

  /** The filter keeps the original order: it distributes over concatenation. */
  lemma {:induction false} CoachPerfRowsAppend(a: seq<Performance>, b: seq<Performance>, coachId: int)
    ensures CoachPerfRows(a + b, coachId) == CoachPerfRows(a, coachId) + CoachPerfRows(b, coachId)
  {
    if a == [] {
      assert a + b == b;
    } else {
      assert (a + b)[0] == a[0] && (a + b)[1..] == a[1..] + b;
      CoachPerfRowsAppend(a[1..], b, coachId);
    }
  }

  function ViewOf(p: Performance): PerfView {
    PerfView(p.date, p.clientCount, p.rating)
  }

  function ViewsOf(rows: seq<Performance>): (r: seq<PerfView>)
    ensures |r| == |rows| && forall i :: 0 <= i < |rows| ==> r[i] == ViewOf(rows[i])
  {
    seq(|rows|, i requires 0 <= i < |rows| => ViewOf(rows[i]))
  }

  /** `get_all_performances()`: one bucket per coach in table order, holding
      exactly that coach's performances in table order. */
  method GetAllPerformances(coaches: seq<Coach>, perfs: seq<Performance>) returns (result: seq<CoachPerformances>)
    ensures |result| == |coaches|
    ensures forall k :: 0 <= k < |coaches| ==>
      && result[k].coachId == coaches[k].id
      && result[k].name == FullName(coaches[k].nom, coaches[k].prenom)
      && result[k].performances == ViewsOf(CoachPerfRows(perfs, coaches[k].id))
  {
    result := [];
    for i := 0 to |coaches|
      invariant |result| == i
      invariant forall k :: 0 <= k < i ==>
        result[k] == CoachPerformances(coaches[k].id, FullName(coaches[k].nom, coaches[k].prenom),
                                       ViewsOf(CoachPerfRows(perfs, coaches[k].id)))
    {
      var coach := coaches[i];
      var coachPerfs := ViewsOf(CoachPerfRows(perfs, coach.id));
      result := result + [CoachPerformances(coach.id, FullName(coach.nom, coach.prenom), coachPerfs)];
    }
  }

  /** A performance of a coach missing from `coaches` lands in no bucket;
      every other one lands in its coach's bucket. */
  lemma {:induction false} BucketMembership(coaches: seq<Coach>, perfs: seq<Performance>, p: Performance)
    requires p in perfs
    ensures (forall c :: c in coaches ==> c.id != p.coachId) ==>
      forall k :: 0 <= k < |coaches| ==> p !in CoachPerfRows(perfs, coaches[k].id)
    ensures forall k :: 0 <= k < |coaches| && coaches[k].id == p.coachId ==>
      p in CoachPerfRows(perfs, coaches[k].id)
  {
    forall k | 0 <= k < |coaches| && coaches[k].id != p.coachId
      ensures p !in CoachPerfRows(perfs, coaches[k].id)
    {
      assert multiset(CoachPerfRows(perfs, coaches[k].id))[p] == 0;
    }
  }

  /** The fields of the request body `Performance(**data)` is built from. */
  datatype PerformanceInput = PerformanceInput(
    date: Option<DateTime>,
    clientCount: Option<int>,
    rating: Option<real>,
    coachId: Option<int>)

  /** `client_count` and `coach_id` are NOT NULL, and `coach_id` must name a coach. */
  predicate Insertable(coaches: seq<Coach>, data: PerformanceInput) {
    data.clientCount.Some? && data.coachId.Some? && FindCoach(coaches, data.coachId.value).Some?
  }

  /** The `coachs` and `performances` tables. */
  class PerformanceStore {
    var coaches: seq<Coach>
    var performances: seq<Performance>
    var nextId: nat

    constructor (coaches0: seq<Coach>, performances0: seq<Performance>, nextId0: nat)
      ensures coaches == coaches0 && performances == performances0 && nextId == nextId0
    {
      coaches, performances, nextId := coaches0, performances0, nextId0;
    }

    /** `add_performance()`: on commit the row is appended and returned; a row
        the table refuses (NULL or dangling foreign key) leaves it unchanged.
        `now` is `datetime.utcnow()`, the column default of `date`. */
    method AddPerformance(data: PerformanceInput, now: DateTime) returns (r: Option<Performance>)
      modifies this`performances, this`nextId
      ensures r.Some? <==> Insertable(coaches, data)
      ensures r.None? ==> performances == old(performances) && nextId == old(nextId)
      ensures r.Some? ==>
        && performances == old(performances) + [r.value]
        && nextId == old(nextId) + 1
        && r.value == Performance(old(nextId), data.date.GetOr(now), data.clientCount.value,
                                  data.rating, data.coachId.value)
    {
      if !Insertable(coaches, data) {
        return None;
      }
      var perf := Performance(nextId, data.date.GetOr(now), data.clientCount.value, data.rating, data.coachId.value);
      performances := performances + [perf];
      nextId := nextId + 1;
      r := Some(perf);
    }
  }
}
