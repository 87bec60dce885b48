/**
 * The booking chatbot: keyword intent detection, the coach-availability
 * filter, the weekday pick from the message, the next-occurrence date
 * arithmetic, the `BETWEEN` slot-conflict test and the sequence of lookups
 * that decides whether a row is written to `plannings`.
 *
 * The database is the pair of sequences held by `ChatDb`; the clock, the
 * connection state, the language model's decoded answer and `strptime` are
 * parameters.
 */
module BookingChatbot {
  import opened Wrappers
  import opened Text
  import opened Calendar
  import opened Records

  // ------------------------------------------------------------ intentions

  const CoachKeywords: seq<string> :=
    ["coach", "disponible", "dispo", "disponibilité", "qui est disponible",
     "quels coachs", "liste des coachs", "coachs pour", "cherche coach"]

  const ReservationKeywords: seq<string> :=
    ["réserver", "reserver", "booking", "book", "prendre rendez-vous",
     "planifier", "séance", "seance", "créneau"]

  const CancelKeywords: seq<string> :=
    ["annuler", "supprimer", "cancel", "retirer"]

  /** The keys of `activites`, in insertion order. */
  const Activities: seq<string> :=
    ["musculation", "yoga", "cardio", "crossfit", "pilates", "Fitness"]

  /** `any(keyword in text for keyword in keys)`. */
  function AnyKeyword(text: string, keys: seq<string>): (b: bool)
    ensures b <==> exists i :: 0 <= i < |keys| && Contains(text, keys[i])
  {
    if keys == [] then false
    else if Contains(text, keys[0]) then true
    else
      var rest := AnyKeyword(text, keys[1..]);
      assert forall i :: 1 <= i < |keys| ==> keys[i] == keys[1..][i - 1];
      rest
  }

  /** The index of the first name of `names` that occurs in `text`. */
  function FirstPresent(text: string, names: seq<string>): (r: Option<nat>)
    ensures r.Some? ==> r.value < |names| && Contains(text, names[r.value])
    ensures r.Some? ==> forall j :: 0 <= j < r.value ==> !Contains(text, names[j])
    ensures r.None? <==> forall j :: 0 <= j < |names| ==> !Contains(text, names[j])
  {
    if names == [] then None
    else if Contains(text, names[0]) then Some(0)
    else
      var rest := FirstPresent(text, names[1..]);
      assert forall j :: 1 <= j < |names| ==> names[j] == names[1..][j - 1];
      if rest.Some? then Some(rest.value + 1) else None
  }

  datatype Intentions = Intentions(rechercheCoach: bool, reservation: bool, annulation: bool)

  datatype Detection = Detection(intentions: Intentions, activity: Option<string>)

  /** `detect_intention`: three independent keyword flags over the lower-cased
      message and the first activity name found in it. */
  function DetectIntention(message: string): (r: Detection)
    ensures r.intentions.rechercheCoach <==>
      exists i :: 0 <= i < |CoachKeywords| && Contains(Lower(message), CoachKeywords[i])
    ensures r.intentions.reservation <==>
      exists i :: 0 <= i < |ReservationKeywords| && Contains(Lower(message), ReservationKeywords[i])
    ensures r.intentions.annulation <==>
      exists i :: 0 <= i < |CancelKeywords| && Contains(Lower(message), CancelKeywords[i])
  {
    var t := Lower(message);
    var a := FirstPresent(t, Activities);
    Detection(
      Intentions(AnyKeyword(t, CoachKeywords), AnyKeyword(t, ReservationKeywords),
                 AnyKeyword(t, CancelKeywords)),
      if a.Some? then Some(Activities[a.value]) else None)
  }

  lemma FitnessKey()
    ensures Activities[5] == "Fitness" && IsUpper(Activities[5][0])
  {
  }

  /**
   * The detected activity is the first of musculation, yoga, cardio,
   * crossfit and pilates that occurs in the lower-cased message, and none if
   * none does; the capitalised "Fitness" key can never be reported.
   */
  lemma {:induction false} DetectedActivity(message: string)
    ensures DetectIntention(message).activity.Some? <==>
      exists i :: 0 <= i < 5 && Contains(Lower(message), Activities[i])
    ensures DetectIntention(message).activity != Some("Fitness")
    ensures DetectIntention(message).activity.Some? ==>
      exists i :: 0 <= i < 5 && Activities[i] == DetectIntention(message).activity.value
        && Contains(Lower(message), Activities[i])
        && forall j :: 0 <= j < i ==> !Contains(Lower(message), Activities[j])
  {
    FitnessKey();
    LowerHidesUpper(message, Activities[5], 0);
    var a := FirstPresent(Lower(message), Activities);
    if a.Some? {
      assert a.value < 5;
    }
  }

  // -------------------------------------------------- the weekday in a message

  /** The keys of `jours`, at their weekday numbers (0 = Monday). */
  const DayNames: seq<string> :=
    ["lundi", "mardi", "mercredi", "jeudi", "vendredi", "samedi", "dimanche"]

  /** `jours.get(name)`. */
  function JourIndex(name: string): (r: Option<nat>)
    ensures r.Some? ==> r.value < 7 && DayNames[r.value] == name
    ensures r.None? <==> name !in DayNames
  {
    if name == DayNames[0] then Some(0)
    else if name == DayNames[1] then Some(1)
    else if name == DayNames[2] then Some(2)
    else if name == DayNames[3] then Some(3)
    else if name == DayNames[4] then Some(4)
    else if name == DayNames[5] then Some(5)
    else if name == DayNames[6] then Some(6)
    else None
  }

  /** `\bw\b` matches at index `i` of `t`. */
  predicate WordAt(t: string, w: string, i: int) {
    OccursAt(t, w, i)
    && (i == 0 || !IsWordChar(t[i - 1]))
    && (i + |w| == |t| || !IsWordChar(t[i + |w|]))
  }

  /** The first alternative, from `k` on, of the day-name group that matches at `i`. */
  function DayNameAt(t: string, i: int, k: nat): (r: Option<nat>)
    requires k <= 7
    ensures r.Some? ==> k <= r.value < 7 && WordAt(t, DayNames[r.value], i)
    ensures r.Some? ==> forall j :: k <= j < r.value ==> !WordAt(t, DayNames[j], i)
    ensures r.None? <==> forall j :: k <= j < 7 ==> !WordAt(t, DayNames[j], i)
    decreases 7 - k
  {
    if k == 7 then None
    else if WordAt(t, DayNames[k], i) then Some(k)
    else DayNameAt(t, i, k + 1)
  }

  /** Where a match starts and which alternative it is. */
  datatype DayMatch = DayMatch(pos: nat, name: nat)

  /** `re.search` of the day-name pattern from index `from`: the leftmost
      position, and at it the first alternative, that matches. */
  function SearchDay(t: string, from: nat): (r: Option<DayMatch>)
    ensures r.Some? ==>
      from <= r.value.pos <= |t| && r.value.name < 7 && WordAt(t, DayNames[r.value.name], r.value.pos)
    ensures r.Some? ==> forall j, k :: from <= j < r.value.pos && 0 <= k < 7 ==> !WordAt(t, DayNames[k], j)
    ensures r.Some? ==> forall k :: 0 <= k < r.value.name ==> !WordAt(t, DayNames[k], r.value.pos)
    ensures r.None? <==> forall j, k :: from <= j <= |t| && 0 <= k < 7 ==> !WordAt(t, DayNames[k], j)
    decreases |t| + 1 - from
  {
    if from > |t| then None
    else
      var here := DayNameAt(t, from, 0);
      if here.Some? then Some(DayMatch(from, here.value))
      else SearchDay(t, from + 1)
  }

  /** `jour_demande`: the day name matched in the lower-cased message, if any. */
  function FindDay(message: string): (r: Option<string>)
    ensures r.Some? ==> r.value in DayNames
  {
    var m := SearchDay(Lower(message), 0);
    if m.Some? then Some(DayNames[m.value.name]) else None
  }

  /** A day name is found exactly when some day name stands as a whole word in
      the lower-cased message, and then it is the leftmost such word. */
  lemma {:induction false} FoundDayIsLeftmostWord(message: string)
    ensures FindDay(message).Some? <==>
      exists j, k :: 0 <= j <= |message| && 0 <= k < 7 && WordAt(Lower(message), DayNames[k], j)
    ensures FindDay(message).Some? ==>
      exists j :: 0 <= j <= |message| && WordAt(Lower(message), FindDay(message).value, j)
        && forall i, k :: 0 <= i < j && 0 <= k < 7 ==> !WordAt(Lower(message), DayNames[k], i)
  {
    var m := SearchDay(Lower(message), 0);
    if m.Some? {
      var j, k := m.value.pos, m.value.name;
      assert WordAt(Lower(message), DayNames[k], j);
    }
  }

  // ------------------------------------------------------- coach availability

  /** The columns `get_available_coachs` selects. */
  datatype CoachSummary = CoachSummary(id: int, nom: string, specialite: Option<string>, telephone: Option<string>)

  function Summary(c: Coach): CoachSummary {
    CoachSummary(c.id, c.nom, c.specialite, c.telephone)
  }

  /** `c.specialite LIKE '%activite%'` under a case-insensitive collation; a
      missing filter keeps every coach and a NULL specialty matches nothing. */
  predicate ActivityMatch(c: Coach, activite: Option<string>) {
    Truthy(activite) ==>
      c.specialite.Some? && Contains(Lower(c.specialite.value), Lower(activite.value))
  }

  /** A planning of the coach that starts after `now` on the MySQL weekday `sqlDay`. */
  predicate FutureOnSqlDay(b: Booking, coachId: int, now: DateTime, sqlDay: int) {
    b.coachId == coachId && DayOfWeekSql(b.dateDebut.day) == sqlDay && Before(now, b.dateDebut)
  }

  /** The coach id is in the `NOT IN` subquery. */
  predicate BusyOn(bookings: seq<Booking>, coachId: int, now: DateTime, sqlDay: int) {
    exists j :: 0 <= j < |bookings| && FutureOnSqlDay(bookings[j], coachId, now, sqlDay)
  }

  /** The `DAYOFWEEK` parameter the code binds: `jours[jour.lower()] + 1`, and
      no day condition when `jour` is empty or not a known day name. */
  function DayParam(jour: Option<string>): (p: Option<int>)
    ensures p.Some? <==> Truthy(jour) && JourIndex(Lower(jour.value)).Some?
    ensures p.Some? ==> p.value == JourIndex(Lower(jour.value)).value + 1
  {
    if Truthy(jour) && JourIndex(Lower(jour.value)).Some?
    then Some(JourIndex(Lower(jour.value)).value + 1)
    else None
  }

  predicate Eligible(c: Coach, bookings: seq<Booking>, now: DateTime, activite: Option<string>, dayParam: Option<int>) {
    ActivityMatch(c, activite)
    && (dayParam.Some? ==> !BusyOn(bookings, c.id, now, dayParam.value))
  }

  /** The coaches the query returns, in table order, for a given day parameter. */
  function AvailableCoaches(coaches: seq<Coach>, bookings: seq<Booking>, now: DateTime,
                            activite: Option<string>, dayParam: Option<int>): (r: seq<Coach>)
    ensures |r| <= |coaches|
    ensures forall c :: c in r <==> c in coaches && Eligible(c, bookings, now, activite, dayParam)
  {
    if coaches == [] then []
    else
      var init := AvailableCoaches(coaches[..|coaches| - 1], bookings, now, activite, dayParam);
      var last := coaches[|coaches| - 1];
      assert coaches == coaches[..|coaches| - 1] + [last];
      if Eligible(last, bookings, now, activite, dayParam) then init + [last] else init
  }

  datatype Availability = StoreUnavailable | Found(coachs: seq<CoachSummary>)

  /**
   * `get_available_coachs`: builds the conditions from the filters, then
   * keeps, coach by coach, those matching the specialty and not in the
   * `NOT IN` subquery.
   */
  method GetAvailableCoachs(coaches: seq<Coach>, bookings: seq<Booking>, now: DateTime, dbUp: bool,
                            activite: Option<string>, jour: Option<string>)
    returns (r: Availability)
    ensures r.StoreUnavailable? <==> !dbUp
    ensures r.Found? ==> r.coachs == Summaries(AvailableCoaches(coaches, bookings, now, activite, DayParam(jour)))
  {
    if !dbUp {
      return StoreUnavailable;
    }
    var dayParam: Option<int> := None;
    if Truthy(jour) {
      var k := JourIndex(Lower(jour.value));
      if k.Some? {
        dayParam := Some(k.value + 1);
      }
    }
    assert dayParam == DayParam(jour);
    var result: seq<CoachSummary> := [];
    for i := 0 to |coaches|
      invariant result == Summaries(AvailableCoaches(coaches[..i], bookings, now, activite, dayParam))
    {
      var c := coaches[i];
      var keep := true;
      if Truthy(activite) {
        keep := c.specialite.Some? && Contains(Lower(c.specialite.value), Lower(activite.value));
      }
      if keep && dayParam.Some? {
        keep := NotBusy(bookings, c.id, now, dayParam.value);
      }
      assert keep <==> Eligible(c, bookings, now, activite, dayParam);
      assert coaches[..i + 1][..i] == coaches[..i];
      ghost var before := AvailableCoaches(coaches[..i], bookings, now, activite, dayParam);
      if keep {
        SummariesSnoc(before, c);
        result := result + [Summary(c)];
      }
    }
    assert coaches[..|coaches|] == coaches;
    r := Found(result);
  }

  /** The selected columns of each row, in order. */
  function Summaries(cs: seq<Coach>): (r: seq<CoachSummary>)
    ensures |r| == |cs| && forall k :: 0 <= k < |cs| ==> r[k] == Summary(cs[k])
  {
    seq(|cs|, k requires 0 <= k < |cs| => Summary(cs[k]))
  }

  lemma SummariesSnoc(cs: seq<Coach>, c: Coach)
    ensures Summaries(cs + [c]) == Summaries(cs) + [Summary(c)]
  {
    assert forall k :: 0 <= k < |cs| ==> (cs + [c])[k] == cs[k];
  }

  /** The `NOT IN` subquery for one coach: no future planning on the MySQL weekday. */
  method NotBusy(bookings: seq<Booking>, coachId: int, now: DateTime, sqlDay: int) returns (free: bool)
    ensures free <==> !BusyOn(bookings, coachId, now, sqlDay)
  {
    free := true;
    var j := 0;
    while j < |bookings| && free
      invariant 0 <= j <= |bookings|
      invariant free <==> forall m :: 0 <= m < j ==> !FutureOnSqlDay(bookings[m], coachId, now, sqlDay)
    {
      if FutureOnSqlDay(bookings[j], coachId, now, sqlDay) {
        free := false;
      }
      j := j + 1;
    }
  }

  /**
   * As written, a known day name excludes the coaches with a future planning
   * on the weekday BEFORE the named one: `DAYOFWEEK` counts Sunday as 1, so
   * `jours[jour] + 1` names the previous day.
   */
  lemma AsWrittenExcludesDayBefore(coaches: seq<Coach>, bookings: seq<Booking>, now: DateTime,
                                   activite: Option<string>, jour: Option<string>, c: Coach)
    requires DayParam(jour).Some?
    ensures c in AvailableCoaches(coaches, bookings, now, activite, DayParam(jour)) <==>
      c in coaches && ActivityMatch(c, activite)
      && forall j :: 0 <= j < |bookings| && bookings[j].coachId == c.id && Before(now, bookings[j].dateDebut)
           ==> Weekday(bookings[j].dateDebut.day) != (JourIndex(Lower(jour.value)).value + 6) % 7
  {
    var p := DayParam(jour).value;
    forall j | 0 <= j < |bookings|
      ensures DayOfWeekSql(bookings[j].dateDebut.day) == p <==>
        Weekday(bookings[j].dateDebut.day) == (JourIndex(Lower(jour.value)).value + 6) % 7
    {
      SqlDayIsPreviousWeekday(bookings[j].dateDebut.day, JourIndex(Lower(jour.value)).value);
    }
  }

  lemma SqlDayIsPreviousWeekday(d: int, k: nat)
    requires k < 7
    ensures DayOfWeekSql(d) == k + 1 <==> Weekday(d) == (k + 6) % 7
  {
    DayOfWeekFromWeekday(d);
  }

  /** An empty or unknown day name applies no day condition. */
  lemma {:induction false} UnknownDayNoFilter(coaches: seq<Coach>, bookings: seq<Booking>, now: DateTime,
                                              activite: Option<string>, jour: Option<string>)
    requires !Truthy(jour) || Lower(jour.value) !in DayNames
    ensures AvailableCoaches(coaches, bookings, now, activite, DayParam(jour))
         == AvailableCoaches(coaches, bookings, now, activite, None)
  {
    assert DayParam(jour) == None;
  }

  /** The parameter that would select the named weekday in MySQL's numbering. */
  function IntendedDayParam(jour: Option<string>): (p: Option<int>)
    ensures p.Some? <==> DayParam(jour).Some?
  {
    if Truthy(jour) && JourIndex(Lower(jour.value)).Some?
    then Some((JourIndex(Lower(jour.value)).value + 1) % 7 + 1)
    else None
  }

  /** With the corrected parameter a known day name excludes exactly the
      coaches with a future planning on that weekday. */
  lemma IntendedExcludesNamedDay(coaches: seq<Coach>, bookings: seq<Booking>, now: DateTime,
                                 activite: Option<string>, jour: Option<string>, c: Coach)
    requires IntendedDayParam(jour).Some?
    ensures c in AvailableCoaches(coaches, bookings, now, activite, IntendedDayParam(jour)) <==>
      c in coaches && ActivityMatch(c, activite)
      && forall j :: 0 <= j < |bookings| && bookings[j].coachId == c.id && Before(now, bookings[j].dateDebut)
           ==> Weekday(bookings[j].dateDebut.day) != JourIndex(Lower(jour.value)).value
  {
    var k := JourIndex(Lower(jour.value)).value;
    forall j | 0 <= j < |bookings|
      ensures DayOfWeekSql(bookings[j].dateDebut.day) == IntendedDayParam(jour).value <==>
        Weekday(bookings[j].dateDebut.day) == k
    {
      DayOfWeekFromWeekday(bookings[j].dateDebut.day);
    }
  }

  /** Monday 6 January 2025 is day 739257. */
  const SampleMonday: int := 739257

  lemma LundiIsKnown()
    ensures Lower("lundi") == "lundi" && JourIndex("lundi") == Some(0)
  {
  }

  /**
   * A coach whose only future planning is on a Monday is still listed as
   * available for "lundi" as written, and is not with the corrected parameter.
   */
  lemma MondayBookingNotExcluded()
    ensures Weekday(SampleMonday) == 0
    ensures var c := Coach(1, "Martin", "Léa", Some("yoga"), "lea@smartfit.fr", None);
            var b := Booking(1, DateTime(SampleMonday, 36000), DateTime(SampleMonday, 39600), JStr("Yoga"), JStr(""), 1, 1);
            var now := DateTime(SampleMonday - 1, 0);
            AvailableCoaches([c], [b], now, None, DayParam(Some("lundi"))) == [c]
            && AvailableCoaches([c], [b], now, None, IntendedDayParam(Some("lundi"))) == []
  {
    LundiIsKnown();
    var c := Coach(1, "Martin", "Léa", Some("yoga"), "lea@smartfit.fr", None);
    var b := Booking(1, DateTime(SampleMonday, 36000), DateTime(SampleMonday, 39600), JStr("Yoga"), JStr(""), 1, 1);
    var now := DateTime(SampleMonday - 1, 0);
    assert DayParam(Some("lundi")) == Some(1);
    assert IntendedDayParam(Some("lundi")) == Some(2);
    assert DayOfWeekSql(SampleMonday) == 2;
    assert !BusyOn([b], 1, now, 1);
    assert FutureOnSqlDay([b][0], 1, now, 2);
    assert [c][..0] == [];
  }

  // -------------------------------------------------- next occurrence of a day

  /** `target_weekday`: the named day, or today's weekday for an unknown name. */
  function TargetWeekday(jourLower: string, todayWeekday: int): (t: int)
    requires 0 <= todayWeekday <= 6
    ensures 0 <= t <= 6
    ensures JourIndex(jourLower).Some? ==> t == JourIndex(jourLower).value
    ensures JourIndex(jourLower).None? ==> t == todayWeekday
  {
    var k := JourIndex(jourLower);
    if k.Some? then k.value else todayWeekday
  }

  /** `days_ahead`: the number of days from today to the next `target`
      weekday, today included. */
  function DaysAhead(todayWeekday: int, target: int): (d: int)
    requires 0 <= todayWeekday <= 6 && 0 <= target <= 6
    ensures 0 <= d <= 6
    ensures (todayWeekday + d) % 7 == target
  {
    var d := target - todayWeekday;
    if d < 0 then d + 7 else d
  }

  /** The session date: today plus `days_ahead`. */
  function SessionDay(jour: string, today: int): (day: int)
    ensures today <= day <= today + 6
    ensures JourIndex(Lower(jour)).Some? ==> Weekday(day) == JourIndex(Lower(jour)).value
    ensures JourIndex(Lower(jour)).None? ==> day == today
  {
    var w := Weekday(today);
    var d := DaysAhead(w, TargetWeekday(Lower(jour), w));
    WeekdayAdvance(today, d);
    today + d
  }

  lemma WeekdayAdvance(day: int, d: nat)
    ensures Weekday(day + d) == (Weekday(day) + d) % 7
  {
    assert (day + d + 6) % 7 == ((day + 6) % 7 + d) % 7;
  }

  // ------------------------------------------------------------ slot conflicts

  /** `t BETWEEN s AND e`: both bounds included. */
  predicate Between(t: DateTime, s: DateTime, e: DateTime) {
    AtOrBefore(s, t) && AtOrBefore(t, e)
  }

  /** The `WHERE` clause of the conflict query for one row. */
  predicate Clashes(b: Booking, coachId: int, s: DateTime, e: DateTime) {
    b.coachId == coachId && (Between(b.dateDebut, s, e) || Between(b.dateFin, s, e))
  }

  /** `cursor.fetchone()` of the conflict query is not `None`. */
  function AnyClash(bookings: seq<Booking>, coachId: int, s: DateTime, e: DateTime): (r: bool)
    ensures r <==> exists i :: 0 <= i < |bookings| && Clashes(bookings[i], coachId, s, e)
  {
    if bookings == [] then false
    else
      var rest := AnyClash(bookings[..|bookings| - 1], coachId, s, e);
      assert forall i :: 0 <= i < |bookings| - 1 ==> bookings[..|bookings| - 1][i] == bookings[i];
      rest || Clashes(bookings[|bookings| - 1], coachId, s, e)
  }

  /** A planning of the same coach ending exactly when the new one starts
      conflicts with it. */
  lemma TouchingEndpointsConflict(bookings: seq<Booking>, i: nat, s: DateTime, e: DateTime)
    requires i < |bookings| && bookings[i].dateFin == s && AtOrBefore(s, e)
    ensures AnyClash(bookings, bookings[i].coachId, s, e)
  {
    assert Clashes(bookings[i], bookings[i].coachId, s, e);
  }

  /** A planning that starts before and ends after the new slot is not seen. */
  lemma EnclosingNotDetected(b: Booking, s: DateTime, e: DateTime)
    requires Before(b.dateDebut, s) && Before(e, b.dateFin)
    ensures !AnyClash([b], b.coachId, s, e)
  {
    assert [b][..0] == [];
  }

  /** A slot whose end precedes its start conflicts with nothing. */
  lemma {:induction false} InvertedSlotNeverConflicts(bookings: seq<Booking>, coachId: int, s: DateTime, e: DateTime)
    requires Before(e, s)
    ensures !AnyClash(bookings, coachId, s, e)
  {
    forall i | 0 <= i < |bookings|
      ensures !Clashes(bookings[i], coachId, s, e)
    {
      assert !Between(bookings[i].dateDebut, s, e);
    }
  }

  /** Two time ranges share an instant, with each end excluded. */
  predicate Overlaps(b: Booking, s: DateTime, e: DateTime) {
    Before(b.dateDebut, e) && Before(s, b.dateFin)
  }

  /** The overlap test catches the enclosing planning and lets touching slots through. */
  lemma OverlapsCatchesEnclosing(b: Booking, s: DateTime, e: DateTime)
    ensures Before(b.dateDebut, s) && Before(s, e) && Before(e, b.dateFin) ==> Overlaps(b, s, e)
    ensures b.dateFin == s ==> !Overlaps(b, s, e)
    ensures e == b.dateDebut ==> !Overlaps(b, s, e)
  {
    if Before(b.dateDebut, s) && Before(s, e) && Before(e, b.dateFin) {
      assert Before(b.dateDebut, e);
    }
  }

  // ------------------------------------------------------------- the booking

  /** An hour and a minute. */
  datatype ClockTime = ClockTime(hour: nat, minute: nat)

  /** What `strptime(value, "%H:%M")` yields: `%H` is below 24 and `%M` below 60. */
  type Clock = c: ClockTime | c.hour < 24 && c.minute < 60 witness ClockTime(0, 0)

  /** Why a booking request was answered with status 400. */
  datatype Refusal = CoachNotFound(coach: Json) | ClientNotFound(client: string) | SlotTaken(coach: Json)

  datatype BookingOutcome =
    | NotAttempted          // one of the four keys is missing
    | NoConnection          // "Impossible de se connecter à la base de données"
    | Refused(why: Refusal) // answered with 400
    | BadTimeFormat         // the caught ValueError of `strptime`
    | Crash                 // an uncaught exception: a jour or an hour that is not a string
    | Saved(row: Booking)

  predicate HasBookingKeys(parsed: map<string, Json>) {
    "coach" in parsed && "jour" in parsed && "heure_debut" in parsed && "heure_fin" in parsed
  }

  /** `dict.get(key, default)`. */
  function Get(parsed: map<string, Json>, key: string, default: Json): (v: Json)
    ensures key in parsed ==> v == parsed[key]
    ensures key !in parsed ==> v == default
  {
    if key in parsed then parsed[key] else default
  }

  /** `SELECT id FROM coachs WHERE nom = %s`, first row. */
  function CoachIdByName(coaches: seq<Coach>, name: Json): (r: Option<int>)
    ensures r.Some? ==> exists c :: c in coaches && name == JStr(c.nom) && c.id == r.value
    ensures r.None? <==> forall c :: c in coaches ==> name != JStr(c.nom)
  {
    if coaches == [] then None
    else if name == JStr(coaches[0].nom) then Some(coaches[0].id)
    else
      var rest := CoachIdByName(coaches[1..], name);
      assert forall c :: c in coaches[1..] ==> c in coaches;
      assert coaches == [coaches[0]] + coaches[1..];
      rest
  }

  /** `SELECT id FROM client WHERE nom = %s`, first row. */
  function ClientIdByName(clients: seq<Client>, name: string): (r: Option<int>)
    ensures r.Some? ==> exists c :: c in clients && c.nom == name && c.id == r.value
    ensures r.None? <==> forall c :: c in clients ==> c.nom != name
  {
    if clients == [] then None
    else if clients[0].nom == name then Some(clients[0].id)
    else
      var rest := ClientIdByName(clients[1..], name);
      assert forall c :: c in clients[1..] ==> c in clients;
      assert clients == [clients[0]] + clients[1..];
      rest
  }

  /** The booking path of `chat`, over the state before the request. */
  function Decide(coaches: seq<Coach>, clients: seq<Client>, bookings: seq<Booking>, nextId: int,
                  clientName: string, parsed: map<string, Json>, dbUp: bool, today: int,
                  parseClock: string -> Option<Clock>): BookingOutcome
  {
    if !HasBookingKeys(parsed) then NotAttempted
    else if !dbUp then NoConnection
    else
      var coachId := CoachIdByName(coaches, parsed["coach"]);
      if coachId.None? then Refused(CoachNotFound(parsed["coach"]))
      else
        var clientId := ClientIdByName(clients, clientName);
        if clientId.None? then Refused(ClientNotFound(clientName))
        else if !parsed["jour"].JStr? then Crash
        else
          var day := SessionDay(parsed["jour"].s, today);
          if !parsed["heure_debut"].JStr? then Crash
          else
            var start := parseClock(parsed["heure_debut"].s);
            if start.None? then BadTimeFormat
            else if !parsed["heure_fin"].JStr? then Crash
            else
              var end := parseClock(parsed["heure_fin"].s);
              if end.None? then BadTimeFormat
              else
                var s := Combine(day, start.value.hour, start.value.minute);
                var e := Combine(day, end.value.hour, end.value.minute);
                if AnyClash(bookings, coachId.value, s, e) then Refused(SlotTaken(parsed["coach"]))
                else Saved(Booking(nextId, s, e, Get(parsed, "titre", JStr("Séance")),
                                   Get(parsed, "description", JStr("")), clientId.value, coachId.value))
  }

  /**
   * A row is written only when the coach and the client are found and the
   * slot is free: the row names the coach and the client by their ids, starts
   * within the coming week on the named weekday (today for an unknown name),
   * has its start and end on that one day, takes the next id, and defaults
   * `titre` to "Séance" and `description` to "".
   */
  lemma {:induction false} SavedRowIsSound(coaches: seq<Coach>, clients: seq<Client>, bookings: seq<Booking>,
                                           nextId: int, clientName: string, parsed: map<string, Json>,
                                           dbUp: bool, today: int, parseClock: string -> Option<Clock>)
    requires Decide(coaches, clients, bookings, nextId, clientName, parsed, dbUp, today, parseClock).Saved?
    ensures var b := Decide(coaches, clients, bookings, nextId, clientName, parsed, dbUp, today, parseClock).row;
      && dbUp && HasBookingKeys(parsed) && parsed["jour"].JStr?
      && b.id == nextId
      && (exists c :: c in coaches && parsed["coach"] == JStr(c.nom) && c.id == b.coachId)
      && (exists c :: c in clients && c.nom == clientName && c.id == b.clientId)
      && (forall i :: 0 <= i < |bookings| ==> !Clashes(bookings[i], b.coachId, b.dateDebut, b.dateFin))
      && today <= b.dateDebut.day <= today + 6 && b.dateFin.day == b.dateDebut.day
      && (JourIndex(Lower(parsed["jour"].s)).Some? ==> Weekday(b.dateDebut.day) == JourIndex(Lower(parsed["jour"].s)).value)
      && (JourIndex(Lower(parsed["jour"].s)).None? ==> b.dateDebut.day == today)
      && b.titre == Get(parsed, "titre", JStr("Séance"))
      && b.description == Get(parsed, "description", JStr(""))
  {
    var coachId := CoachIdByName(coaches, parsed["coach"]);
    var clientId := ClientIdByName(clients, clientName);
    var day := SessionDay(parsed["jour"].s, today);
    var start := parseClock(parsed["heure_debut"].s);
    var end := parseClock(parsed["heure_fin"].s);
    var s := Combine(day, start.value.hour, start.value.minute);
    var e := Combine(day, end.value.hour, end.value.minute);
    assert !AnyClash(bookings, coachId.value, s, e);
  }

  /** An unknown coach, and a known coach with an unknown client, are each
      refused with their own 400; `ChatDb.Book` writes nothing on a refusal. */
  lemma {:induction false} UnknownNamesRefused(coaches: seq<Coach>, clients: seq<Client>, bookings: seq<Booking>,
                                               nextId: int, clientName: string, parsed: map<string, Json>,
                                               dbUp: bool, today: int, parseClock: string -> Option<Clock>)
    requires HasBookingKeys(parsed) && dbUp
    ensures (forall c :: c in coaches ==> parsed["coach"] != JStr(c.nom)) ==>
      Decide(coaches, clients, bookings, nextId, clientName, parsed, dbUp, today, parseClock)
        == Refused(CoachNotFound(parsed["coach"]))
    ensures CoachIdByName(coaches, parsed["coach"]).Some? && (forall c :: c in clients ==> c.nom != clientName) ==>
      Decide(coaches, clients, bookings, nextId, clientName, parsed, dbUp, today, parseClock)
        == Refused(ClientNotFound(clientName))
  {
    var coachId := CoachIdByName(coaches, parsed["coach"]);
    if forall c :: c in coaches ==> parsed["coach"] != JStr(c.nom) {
      assert coachId.None?;
    }
  }

  /**
   * Conversely, once the coach and the client are found and the day and both
   * times are strings that parse, the request is saved exactly when the slot
   * clashes with no planning of that coach, and refused as taken otherwise.
   */
  lemma ClearRequestIsSaved(coaches: seq<Coach>, clients: seq<Client>, bookings: seq<Booking>,
                            nextId: int, clientName: string, parsed: map<string, Json>,
                            dbUp: bool, today: int, parseClock: string -> Option<Clock>)
    requires HasBookingKeys(parsed) && dbUp
    requires CoachIdByName(coaches, parsed["coach"]).Some? && ClientIdByName(clients, clientName).Some?
    requires parsed["jour"].JStr? && parsed["heure_debut"].JStr? && parsed["heure_fin"].JStr?
    requires parseClock(parsed["heure_debut"].s).Some? && parseClock(parsed["heure_fin"].s).Some?
    ensures var d := Decide(coaches, clients, bookings, nextId, clientName, parsed, dbUp, today, parseClock);
      var day := SessionDay(parsed["jour"].s, today);
      var start := parseClock(parsed["heure_debut"].s).value;
      var end := parseClock(parsed["heure_fin"].s).value;
      var clash := AnyClash(bookings, CoachIdByName(coaches, parsed["coach"]).value,
                            Combine(day, start.hour, start.minute), Combine(day, end.hour, end.minute));
      && (d.Saved? <==> !clash)
      && (clash ==> d == Refused(SlotTaken(parsed["coach"])))
  {
  }

  /** Status code of each booking outcome. */
  function BookingStatus(o: BookingOutcome): (code: int)
    ensures code == 400 <==> o.Refused?
    ensures code == 500 <==> o.Crash?
  {
    match o
    case Refused(_) => 400
    case Crash => 500
    case _ => 200
  }

  /** Whole-number formatting of `len(...)` in an f-string. */
  function NatToString(n: nat): (s: string)
    ensures |s| >= 1
    ensures forall i :: 0 <= i < |s| ==> '0' <= s[i] <= '9'
    ensures n >= 10 ==> s[0] != '0'
  {
    if n < 10 then [('0' as int + n) as char]
    else NatToString(n / 10) + [('0' as int + n % 10) as char]
  }

  /** The number a string of decimal digits denotes, as `int()` reads it. */
  function DecimalValue(s: string): nat
    requires forall i :: 0 <= i < |s| ==> '0' <= s[i] <= '9'
  {
    if s == [] then 0 else DecimalValue(s[..|s| - 1]) * 10 + (s[|s| - 1] as int - '0' as int)
  }

  /** Reading back the digits of `NatToString(n)` gives `n`. */
  lemma {:induction false} NatToStringRoundTrip(n: nat)
    ensures DecimalValue(NatToString(n)) == n
  {
    var s := NatToString(n);
    if n >= 10 {
      NatToStringRoundTrip(n / 10);
      assert s[..|s| - 1] == NatToString(n / 10);
    }
  }

  /** The opening words of the search reply. */
  function SearchHead(count: nat): string {
    if count > 0 then "Voici les coachs disponibles" else "Aucun coach disponible trouvé"
  }

  /** `" en {activite}"` when an activity was detected, else nothing. */
  function ActivityPart(activite: Option<string>): (r: string)
    ensures activite.Some? ==> r == " en " + activite.value
    ensures activite.None? ==> r == ""
  {
    if activite.Some? then " en " + activite.value else ""
  }

  /** `" pour {jour}"` when a day was found, else nothing. */
  function DayPart(jour: Option<string>): (r: string)
    ensures jour.Some? ==> r == " pour " + jour.value
    ensures jour.None? ==> r == ""
  {
    if jour.Some? then " pour " + jour.value else ""
  }

  /** `" : {n} coach(s) trouvé(s)"` for a non-empty result, else nothing. */
  function CountPart(count: nat): (r: string)
    ensures count > 0 ==> r == " : " + NatToString(count) + " coach(s) trouvé(s)"
    ensures count == 0 ==> r == ""
  {
    if count > 0 then " : " + NatToString(count) + " coach(s) trouvé(s)" else ""
  }

  /**
   * The reply text of the coach search: the opening words for an empty or a
   * non-empty result, then the activity part, then the day part, then (for a
   * non-empty result only) the coach count, and nothing else.
   */
  function SearchMessage(count: nat, activite: Option<string>, jour: Option<string>): (m: string)
    ensures OccursAt(m, SearchHead(count), 0)
    ensures OccursAt(m, ActivityPart(activite), |SearchHead(count)|)
    ensures OccursAt(m, DayPart(jour), |SearchHead(count)| + |ActivityPart(activite)|)
    ensures OccursAt(m, CountPart(count), |SearchHead(count)| + |ActivityPart(activite)| + |DayPart(jour)|)
    ensures |m| == |SearchHead(count)| + |ActivityPart(activite)| + |DayPart(jour)| + |CountPart(count)|
  {
    var whole := SearchHead(count) + ActivityPart(activite) + DayPart(jour) + CountPart(count);
    JoinFour(whole, SearchHead(count), ActivityPart(activite), DayPart(jour), CountPart(count));
    whole
  }

  /** Where each of four joined parts sits in the whole. */
  lemma JoinFour(s: string, a: string, b: string, c: string, d: string)
    requires s == a + b + c + d
    ensures |s| == |a| + |b| + |c| + |d|
    ensures OccursAt(s, a, 0) && OccursAt(s, b, |a|)
    ensures OccursAt(s, c, |a| + |b|) && OccursAt(s, d, |a| + |b| + |c|)
  {
    assert s[..|a|] == a;
    assert s[|a|..|a| + |b|] == b;
    assert s[|a| + |b|..|a| + |b| + |c|] == c;
    assert s[|a| + |b| + |c|..] == d;
  }

  const SearchErrorMessage: string :=
    "Erreur lors de la recherche des coachs: Erreur de connexion à la base de données"

  datatype ChatOutcome =
    | NoMessage                                   // 400 "Aucun message fourni"
    | NoClientName                                // 400 "Nom du client non fourni"
    | CoachSearch(message: string, coachs: seq<CoachSummary>, activite: Option<string>, jour: Option<string>)
    | CoachSearchFailed(message: string)          // the search reply without `activite` and `jour`
    | ModelError                                  // 500: the language model call failed
    | BookingReply(parsed: map<string, Json>, booking: BookingOutcome)
  {
    function Status(): (code: int)
      ensures code == 400 <==> NoMessage? || NoClientName? || (BookingReply? && booking.Refused?)
    {
      match this
      case NoMessage => 400
      case NoClientName => 400
      case CoachSearch(_, _, _, _) => 200
      case CoachSearchFailed(_) => 200
      case ModelError => 500
      case BookingReply(_, b) => BookingStatus(b)
    }

    /** The `saved` field of the answer. */
    predicate SavedFlag() {
      BookingReply? && booking.Saved?
    }
  }

  /** The chatbot's database: `coachs`, `client` and `plannings`. */
  class ChatDb {
    var coaches: seq<Coach>
    var clients: seq<Client>
    var bookings: seq<Booking>
    var nextId: int

    constructor (coaches: seq<Coach>, clients: seq<Client>, bookings: seq<Booking>, nextId: int)
      ensures this.coaches == coaches && this.clients == clients
      ensures this.bookings == bookings && this.nextId == nextId
    {
      this.coaches := coaches;
      this.clients := clients;
      this.bookings := bookings;
      this.nextId := nextId;
    }

    /**
     * The booking path: coach lookup, client lookup, date computation, the
     * two `strptime` calls, the conflict query and the insert, in the
     * source's order.
     */
    method Book(clientName: string, parsed: map<string, Json>, dbUp: bool, now: DateTime,
                parseClock: string -> Option<Clock>)
      returns (out: BookingOutcome)
      modifies this`bookings, this`nextId
      ensures out == Decide(old(coaches), old(clients), old(bookings), old(nextId),
                            clientName, parsed, dbUp, now.day, parseClock)
      ensures out.Saved? ==> bookings == old(bookings) + [out.row] && nextId == old(nextId) + 1
      ensures !out.Saved? ==> bookings == old(bookings) && nextId == old(nextId)
    {
      if !HasBookingKeys(parsed) {
        return NotAttempted;
      }
      if !dbUp {
        return NoConnection;
      }
      var coachRow := CoachIdByName(coaches, parsed["coach"]);
      if coachRow.None? {
        return Refused(CoachNotFound(parsed["coach"]));
      }
      var coachId := coachRow.value;
      var clientRow := ClientIdByName(clients, clientName);
      if clientRow.None? {
        return Refused(ClientNotFound(clientName));
      }
      var clientId := clientRow.value;
      if !parsed["jour"].JStr? {
        return Crash;
      }
      var todayWeekday := Weekday(now.day);
      var targetWeekday := TargetWeekday(Lower(parsed["jour"].s), todayWeekday);
      var daysAhead := DaysAhead(todayWeekday, targetWeekday);
      var dateOfSession := now.day + daysAhead;
      assert dateOfSession == SessionDay(parsed["jour"].s, now.day);
      if !parsed["heure_debut"].JStr? {
        return Crash;
      }
      var start := parseClock(parsed["heure_debut"].s);
      if start.None? {
        return BadTimeFormat;
      }
      if !parsed["heure_fin"].JStr? {
        return Crash;
      }
      var end := parseClock(parsed["heure_fin"].s);
      if end.None? {
        return BadTimeFormat;
      }
      var dateDebut := Combine(dateOfSession, start.value.hour, start.value.minute);
      var dateFin := Combine(dateOfSession, end.value.hour, end.value.minute);
      if AnyClash(bookings, coachId, dateDebut, dateFin) {
        return Refused(SlotTaken(parsed["coach"]));
      }
      var row := Booking(nextId, dateDebut, dateFin, Get(parsed, "titre", JStr("Séance")),
                         Get(parsed, "description", JStr("")), clientId, coachId);
      bookings := bookings + [row];
      nextId := nextId + 1;
      out := Saved(row);
    }

    /**
     * `chat`: the two 400 checks, then the coach search when its keywords
     * occur (whatever else the message asks for), else the booking path on
     * the language model's decoded answer (`None` when the call failed).
     */
    method Chat(message: Option<string>, clientName: Option<string>, dbUp: bool, now: DateTime,
                parsed: Option<map<string, Json>>, parseClock: string -> Option<Clock>)
      returns (out: ChatOutcome)
      modifies this`bookings, this`nextId
      ensures out == NoMessage <==> !Truthy(message)
      ensures out == NoClientName <==> Truthy(message) && !Truthy(clientName)
      ensures out.CoachSearch? <==>
        Truthy(message) && Truthy(clientName) && DetectIntention(message.value).intentions.rechercheCoach && dbUp
      ensures out.CoachSearchFailed? <==>
        Truthy(message) && Truthy(clientName) && DetectIntention(message.value).intentions.rechercheCoach && !dbUp
      ensures out.CoachSearchFailed? ==> out.message == SearchErrorMessage
      ensures out.CoachSearch? ==>
        var detection := DetectIntention(message.value);
        var found := AvailableCoaches(old(coaches), old(bookings), now, detection.activity,
                                      DayParam(FindDay(message.value)));
        && out.activite == detection.activity
        && out.jour == FindDay(message.value)
        && out.coachs == Summaries(found)
        && out.message == SearchMessage(|found|, out.activite, out.jour)
      ensures out == ModelError <==>
        Truthy(message) && Truthy(clientName) && !DetectIntention(message.value).intentions.rechercheCoach
        && parsed.None?
      ensures out.BookingReply? ==>
        out.parsed == parsed.value
        && out.booking == Decide(old(coaches), old(clients), old(bookings), old(nextId),
                                 clientName.value, parsed.value, dbUp, now.day, parseClock)
      ensures out.SavedFlag() ==> bookings == old(bookings) + [out.booking.row] && nextId == old(nextId) + 1
      ensures !out.SavedFlag() ==> bookings == old(bookings) && nextId == old(nextId)
    {
      if !Truthy(message) {
        return NoMessage;
      }
      if !Truthy(clientName) {
        return NoClientName;
      }
      var detection := DetectIntention(message.value);
      if detection.intentions.rechercheCoach {
        var jourDemande := FindDay(message.value);
        var available := GetAvailableCoachs(coaches, bookings, now, dbUp, detection.activity, jourDemande);
        if available.StoreUnavailable? {
          return CoachSearchFailed(SearchErrorMessage);
        }
        var text := SearchMessage(|available.coachs|, detection.activity, jourDemande);
        return CoachSearch(text, available.coachs, detection.activity, jourDemande);
      }
      if parsed.None? {
        return ModelError;
      }
      var booking := Book(clientName.value, parsed.value, dbUp, now, parseClock);
      out := BookingReply(parsed.value, booking);
    }
  }
}
