/**
 * The synthetic subscription data set: every row draws a subscription type, a
 * start date, a duration variation, a price noise and a status. The draws of
 * `random` and `numpy.random` are the fields of `Draws`.
 */
module DataGeneration {
  import opened Text
  import opened Calendar

  const Types: seq<string> := [
    "Premium Mensuel",
    "Premium Hebdomadaire",
    "Basique Mensuel",
    "Basique Hebdomadaire",
    "Etudiant Mensuel",
    "Pro Annuel",
    "Family Mensuel"
  ]

  const BasePrice: map<string, real> := map[
    "Premium Mensuel" := 69.99,
    "Premium Hebdomadaire" := 19.99,
    "Basique Mensuel" := 39.99,
    "Basique Hebdomadaire" := 12.99,
    "Etudiant Mensuel" := 27.99,
    "Pro Annuel" := 699.99,
    "Family Mensuel" := 79.99
  ]

  const Statuts: seq<string> := ["ACTIVE", "EXPIRE", "SUSPENDU"]

  /** `base_duration_days(t)`: the first keyword found decides. */
  function BaseDurationDays(t: string): (d: nat)
    ensures d == 7 || d == 30 || d == 365
    ensures d == 7 <==> Contains(t, "Hebdomadaire")
    ensures d == 365 <==> !Contains(t, "Hebdomadaire") && !Contains(t, "Mensuel") && Contains(t, "Annuel")
  {
    if Contains(t, "Hebdomadaire") then 7
    else if Contains(t, "Mensuel") then 30
    else if Contains(t, "Annuel") then 365
    else 30
  }

  /** The period keyword a type name carries, if exactly one. */
  datatype Period = Weekly | Monthly | Yearly

  predicate HasOnly(t: string, p: Period) {
    && (Contains(t, "Hebdomadaire") <==> p == Weekly)
    && (Contains(t, "Mensuel") <==> p == Monthly)
    && (Contains(t, "Annuel") <==> p == Yearly)
  }

  /** The period each entry of `Types` names. */
  function TypePeriod(i: int): Period
    requires 0 <= i < |Types|
  {
    if i == 1 || i == 3 then Weekly else if i == 5 then Yearly else Monthly
  }

  /** A name holding one period keyword and lacking the capital letter of the other two. */
  lemma OnlyKeyword(t: string, p: Period, at: nat)
    requires p == Weekly ==> OccursAt(t, "Hebdomadaire", at) && 'M' !in t && 'A' !in t
    requires p == Monthly ==> OccursAt(t, "Mensuel", at) && 'H' !in t && 'A' !in t
    requires p == Yearly ==> OccursAt(t, "Annuel", at) && 'H' !in t && 'M' !in t
    ensures HasOnly(t, p)
  {
    if p != Weekly { MissingChar(t, "Hebdomadaire", 0); }
    if p != Monthly { MissingChar(t, "Mensuel", 0); }
    if p != Yearly { MissingChar(t, "Annuel", 0); }
  }

  // Where each type name holds its keyword, and which capitals it lacks.
  lemma Name0()
    ensures Types[0] == "Premium Mensuel"
    ensures OccursAt("Premium Mensuel", "Mensuel", 8) && 'H' !in "Premium Mensuel" && 'A' !in "Premium Mensuel"
  {
  }

  lemma Name1()
    ensures Types[1] == "Premium Hebdomadaire"
    ensures OccursAt("Premium Hebdomadaire", "Hebdomadaire", 8) && 'M' !in "Premium Hebdomadaire" && 'A' !in "Premium Hebdomadaire"
  {
  }

  lemma Name2()
    ensures Types[2] == "Basique Mensuel"
    ensures OccursAt("Basique Mensuel", "Mensuel", 8) && 'H' !in "Basique Mensuel" && 'A' !in "Basique Mensuel"
  {
  }

  lemma Name3()
    ensures Types[3] == "Basique Hebdomadaire"
    ensures OccursAt("Basique Hebdomadaire", "Hebdomadaire", 8) && 'M' !in "Basique Hebdomadaire" && 'A' !in "Basique Hebdomadaire"
  {
  }

  lemma Name4()
    ensures Types[4] == "Etudiant Mensuel"
    ensures OccursAt("Etudiant Mensuel", "Mensuel", 9) && 'H' !in "Etudiant Mensuel" && 'A' !in "Etudiant Mensuel"
  {
  }

  lemma Name5()
    ensures Types[5] == "Pro Annuel"
    ensures OccursAt("Pro Annuel", "Annuel", 4) && 'H' !in "Pro Annuel" && 'M' !in "Pro Annuel"
  {
  }

  lemma Name6()
    ensures Types[6] == "Family Mensuel"
    ensures OccursAt("Family Mensuel", "Mensuel", 7) && 'H' !in "Family Mensuel" && 'A' !in "Family Mensuel"
  {
  }

  /** Each subscription type names exactly one period. */
  lemma TypeHasOnePeriod(i: int)
    requires 0 <= i < |Types|
    ensures HasOnly(Types[i], TypePeriod(i))
  {
    match i
    case 0 => Name0(); OnlyKeyword(Types[i], Monthly, 8);
    case 1 => Name1(); OnlyKeyword(Types[i], Weekly, 8);
    case 2 => Name2(); OnlyKeyword(Types[i], Monthly, 8);
    case 3 => Name3(); OnlyKeyword(Types[i], Weekly, 8);
    case 4 => Name4(); OnlyKeyword(Types[i], Monthly, 9);
    case 5 => Name5(); OnlyKeyword(Types[i], Yearly, 4);
    case 6 => Name6(); OnlyKeyword(Types[i], Monthly, 7);
  }

  function PeriodDays(p: Period): nat {
    match p
    case Weekly => 7
    case Monthly => 30
    case Yearly => 365
  }

  /** Every type maps to the duration of its period, and has a base price. */
  lemma TypeDurations(i: int)
    requires 0 <= i < |Types|
    ensures Types[i] in BasePrice
    ensures HasOnly(Types[i], TypePeriod(i)) && BaseDurationDays(Types[i]) == PeriodDays(TypePeriod(i))
  {
    TypeHasOnePeriod(i);
  }

  /** `random_start_date()` with the three `randint` draws given. */
  function RandomStartDate(year: int, month: int, day: int): (d: Date)
    requires 2023 <= year <= 2026 && 1 <= month <= 12 && 1 <= day <= 28
    ensures ValidDate(d)
    ensures 2023 <= d.year <= 2026 && 1 <= d.month <= 12 && 1 <= d.day <= 28
  {
    Date(year, month, day)
  }

  /** The `randint` bounds of the duration variation for a base duration. */
  predicate DeltaInRange(base: int, delta: int) {
    if base == 30 then -4 <= delta <= 5
    else if base == 7 then -1 <= delta <= 2
    else if base == 365 then -7 <= delta <= 10
    else delta == 0
  }

  /** The duration bounds promised for each base: [26,35], [6,9], [358,375]. */
  predicate DurationInBounds(base: int, dur: int) {
    if base == 30 then 26 <= dur <= 35
    else if base == 7 then 6 <= dur <= 9
    else 358 <= dur <= 375
  }

  /** The seasonal coefficient: promotions in January and September, summer surcharge. */
  function SeasonCoef(month: int): (c: real)
    ensures c == 0.94 <==> month == 1 || month == 9
    ensures c == 1.04 <==> month == 6 || month == 7
    ensures c == 1.0 <==> !(month in {1, 9, 6, 7})
  {
    if month == 1 || month == 9 then 0.94
    else if month == 6 || month == 7 then 1.04
    else 1.0
  }

  /** The length bonus; the three `if`s run in turn, so a later one overrides. */
  function LenBonus(t: string, dur: int): (b: real)
    ensures b == 0.0 || b == 1.0 || b == 2.5 || b == 10.0
    ensures b == 10.0 <==> Contains(t, "Annuel") && dur > 370
    ensures b == 2.5 ==> Contains(t, "Mensuel") && dur > 32
    ensures b == 1.0 ==> Contains(t, "Hebdomadaire") && dur > 7
  {
    if Contains(t, "Annuel") && dur > 370 then 10.0
    else if Contains(t, "Hebdomadaire") && dur > 7 then 1.0
    else if Contains(t, "Mensuel") && dur > 32 then 2.5
    else 0.0
  }

  /** For the listed types at most one bonus rule applies, each rule on its own period. */
  lemma {:induction false} LenBonusOfTypes(i: int, dur: int)
    requires 0 <= i < |Types|
    ensures LenBonus(Types[i], dur) == 2.5 <==> BaseDurationDays(Types[i]) == 30 && dur > 32
    ensures LenBonus(Types[i], dur) == 1.0 <==> BaseDurationDays(Types[i]) == 7 && dur > 7
    ensures LenBonus(Types[i], dur) == 10.0 <==> BaseDurationDays(Types[i]) == 365 && dur > 370
  {
    TypeDurations(i);
  }

  /** The random draws of one `make_row` call. */
  datatype Draws = Draws(
    typeIndex: int,    // random.choice(TYPES)
    year: int,         // random.randint(2023, 2026)
    month: int,        // random.randint(1, 12)
    day: int,          // random.randint(1, 28)
    durDelta: int,     // the randint of the duration variation
    noise: real,       // np.random.normal(0.0, 1.8)
    statutIndex: int)  // the index random.choices picks

  predicate DrawsInRange(dr: Draws) {
    && 0 <= dr.typeIndex < |Types|
    && 2023 <= dr.year <= 2026 && 1 <= dr.month <= 12 && 1 <= dr.day <= 28
    && DeltaInRange(BaseDurationDays(Types[dr.typeIndex]), dr.durDelta)
    && 0 <= dr.statutIndex < 3
  }

  /** A generated row; `dateFin` is the ordinal of the end date. */
  datatype Row = Row(id: int, subType: string, prix: real, dateDebut: Date, dateFin: int, statut: string)

  /** What `make_row(i)` returns for the draws `dr`. */
  predicate RowMatches(i: int, dr: Draws, row: Row)
    requires DrawsInRange(dr)
  {
    && row.id == i
    && row.subType == Types[dr.typeIndex]
    && ValidDate(row.dateDebut) && row.dateDebut == Date(dr.year, dr.month, dr.day)
    && row.dateFin - Ordinal(row.dateDebut) == BaseDurationDays(row.subType) + dr.durDelta
    && DurationInBounds(BaseDurationDays(row.subType), row.dateFin - Ordinal(row.dateDebut))
    && row.prix >= 10.0
    && row.subType in BasePrice
    && row.prix == Max(10.0, BasePrice[row.subType] * SeasonCoef(dr.month)
                             + LenBonus(row.subType, row.dateFin - Ordinal(row.dateDebut)) + dr.noise)
    && row.statut in Statuts
    && row.statut == if dr.year < 2024 then ["EXPIRE", "ACTIVE", "SUSPENDU"][dr.statutIndex]
                     else ["ACTIVE", "EXPIRE", "SUSPENDU"][dr.statutIndex]
  }

  function Max(a: real, b: real): (m: real)
    ensures m >= a && m >= b && (m == a || m == b)
  {
    if a >= b then a else b
  }

  /** `make_row(i)` with its draws given. */
  method MakeRow(i: int, dr: Draws) returns (row: Row)
    requires DrawsInRange(dr)
    ensures RowMatches(i, dr, row)
  {
    var subType := Types[dr.typeIndex];
    TypeDurations(dr.typeIndex);
    var start := RandomStartDate(dr.year, dr.month, dr.day);

    var dur := BaseDurationDays(subType);
    if dur == 30 {
      dur := dur + dr.durDelta;
    } else if dur == 7 {
      dur := dur + dr.durDelta;
    } else if dur == 365 {
      dur := dur + dr.durDelta;
    }
    var end := Ordinal(start) + dur;

    var baseP := BasePrice[subType];
    var month := start.month;
    var seasonCoef := 1.0;
    if month == 1 || month == 9 {
      seasonCoef := 0.94;
    } else if month == 6 || month == 7 {
      seasonCoef := 1.04;
    }

    var lenBonus := 0.0;
    if Contains(subType, "Mensuel") && dur > 32 {
      lenBonus := 2.5;
    }
    if Contains(subType, "Hebdomadaire") && dur > 7 {
      lenBonus := 1.0;
    }
    if Contains(subType, "Annuel") && dur > 370 {
      lenBonus := 10.0;
    }

    var prix := baseP * seasonCoef + lenBonus + dr.noise;
    prix := Max(10.0, prix);

    var statut: string;
    if start.year < 2024 {
      statut := ["EXPIRE", "ACTIVE", "SUSPENDU"][dr.statutIndex];
    } else {
      statut := ["ACTIVE", "EXPIRE", "SUSPENDU"][dr.statutIndex];
    }
    row := Row(i, subType, prix, start, end, statut);
  }

  /** `[make_row(i) for i in range(1, N + 1)]` with one set of draws per row;
      `main` takes N = 10 000. */
  method GenerateRows(draws: seq<Draws>) returns (rows: seq<Row>)
    requires forall k :: 0 <= k < |draws| ==> DrawsInRange(draws[k])
    ensures |rows| == |draws|
    ensures (set k | 0 <= k < |rows| :: rows[k].id) == IdRange(|draws|)
    ensures forall k :: 0 <= k < |rows| ==> rows[k].id == k + 1
    ensures forall k :: 0 <= k < |rows| ==> DrawsInRange(draws[k]) && RowMatches(k + 1, draws[k], rows[k])
  {
    rows := [];
    for i := 1 to |draws| + 1
      invariant |rows| == i - 1
      invariant forall k :: 0 <= k < |rows| ==> DrawsInRange(draws[k]) && RowMatches(k + 1, draws[k], rows[k])
    {
      var row := MakeRow(i, draws[i - 1]);
      rows := rows + [row];
    }
    IdsAreOneToN(rows);
  }

  /** The ids 1..n. */
  function IdRange(n: nat): (r: set<int>)
    ensures forall id :: id in r <==> 1 <= id <= n
  {
    if n == 0 then {} else IdRange(n - 1) + {n}
  }

  /** Rows numbered by position carry, as a set, exactly the ids 1..N; the
      shuffle of `main` reorders the rows and keeps that set. */
  lemma IdsAreOneToN(rows: seq<Row>)
    requires forall k :: 0 <= k < |rows| ==> rows[k].id == k + 1
    ensures (set k | 0 <= k < |rows| :: rows[k].id) == IdRange(|rows|)
  {
    forall id | id in IdRange(|rows|)
      ensures id in (set k | 0 <= k < |rows| :: rows[k].id)
    {
      assert rows[id - 1].id == id;
    }
  }
}
