/**
 * The fitness-score endpoint around the regression model: input validation,
 * cleaning into a feature vector, the BMI fill, the rescaling of the raw
 * prediction to [0, 100] and the choice of the advice message.
 */
module FitnessChatbot {
  import opened Wrappers
  import opened Records

  const Features: seq<string> := [
    "age", "gender", "height_cm", "weight_kg", "activity_type", "duration_minutes",
    "intensity", "calories_burned", "avg_heart_rate", "hours_sleep", "stress_level",
    "daily_steps", "hydration_level", "bmi", "resting_heart_rate",
    "blood_pressure_systolic", "blood_pressure_diastolic", "health_condition", "smoking_status"
  ]

  /** `features.index(...)` of the three features the BMI fill reads. */
  const HeightIndex: nat := 2
  const WeightIndex: nat := 3
  const BmiIndex: nat := 13

  lemma FeatureIndices()
    ensures |Features| == 19
    ensures Features[HeightIndex] == "height_cm" && Features[WeightIndex] == "weight_kg" && Features[BmiIndex] == "bmi"
  {
  }

  // ------------------------------------------------------------- messages

  /** The four advice messages of `generate_message`. */
  datatype Level = Low | Average | Good | Excellent

  /** The bucket `generate_message` picks: below 40, below 70, below 85, the rest. */
  function FitnessLevel(score: real): (l: Level)
    ensures l == Low <==> score < 40.0
    ensures l == Average <==> 40.0 <= score < 70.0
    ensures l == Good <==> 70.0 <= score < 85.0
    ensures l == Excellent <==> score >= 85.0
  {
    if score < 40.0 then Low
    else if score < 70.0 then Average
    else if score < 85.0 then Good
    else Excellent
  }

  function MessageText(l: Level): string {
    match l
    case Low =>
      "Votre niveau de forme est faible. \U{1F4A4} Essayez d'améliorer votre hygiène de vie : augmentez votre activité physique, dormez mieux et réduisez votre stress."
    case Average =>
      "Votre forme est moyenne. \U{2696}\U{FE0F} Continuez vos efforts : un peu plus de régularité dans le sport et une meilleure hydratation peuvent faire la différence."
    case Good =>
      "Votre niveau de forme est bon ! \U{1F4AA} Pensez à maintenir vos habitudes saines et à équilibrer repos et activité."
    case Excellent =>
      "Excellente condition physique ! \U{1F31F} Continuez ainsi, vous avez un mode de vie très sain et équilibré."
  }

  /** `generate_message(score)`. */
  function GenerateMessage(score: real): string {
    MessageText(FitnessLevel(score))
  }

  /** A higher score never gets a lower bucket. */
  lemma FitnessLevelMonotone(a: real, b: real)
    requires a <= b
    ensures Rank(FitnessLevel(a)) <= Rank(FitnessLevel(b))
  {
  }

  function Rank(l: Level): nat {
    match l
    case Low => 0
    case Average => 1
    case Good => 2
    case Excellent => 3
  }

  // ------------------------------------------------------------ validation

  /** `[f for f in fs if f not in input_data]`. */
  function MissingFrom(fs: seq<string>, input: map<string, Json>): (r: seq<string>)
    ensures forall f :: f in r <==> f in fs && f !in input
    ensures |r| <= |fs|
  {
    if fs == [] then []
    else if fs[0] !in input then [fs[0]] + MissingFrom(fs[1..], input)
    else MissingFrom(fs[1..], input)
  }

  /** The check keeps the order of `fs`: it distributes over concatenation. */
  lemma {:induction false} MissingFromAppend(a: seq<string>, b: seq<string>, input: map<string, Json>)
    ensures MissingFrom(a + b, input) == MissingFrom(a, input) + MissingFrom(b, input)
  {
    if a == [] {
      assert a + b == b;
    } else {
      assert (a + b)[0] == a[0] && (a + b)[1..] == a[1..] + b;
      MissingFromAppend(a[1..], b, input);
    }
  }

  /** `missing` in `predict`. */
  function MissingFeatures(input: map<string, Json>): (r: seq<string>)
    ensures forall f :: f in r <==> f in Features && f !in input
    ensures r == [] <==> forall f :: f in Features ==> f in input
  {
    var r := MissingFrom(Features, input);
    assert r != [] ==> r[0] in r;
    r
  }

  // -------------------------------------------------------------- cleaning

  /** The outcome of `float(value)` on one cleaned value. */
  datatype Conversion = Number(x: real) | BadValue | TypeFailure

  /** One step of the cleaning loop: `''` and `None` become 0, then `float()`.
      `parseFloat` stands for `float()` on a string, `None` for its `ValueError`. */
  function CleanValue(v: Json, parseFloat: string -> Option<real>): (c: Conversion)
    ensures v == JNull || v == JStr("") ==> c == Number(0.0)
    ensures v.JNum? ==> c == Number(v.n)
    ensures v.JBool? ==> c == Number(if v.b then 1.0 else 0.0)
    ensures v.JStr? && v.s != "" ==>
      c == (if parseFloat(v.s).Some? then Number(parseFloat(v.s).value) else BadValue)
    ensures c == BadValue <==> v.JStr? && v.s != "" && parseFloat(v.s).None?
    ensures c == TypeFailure <==> v == JOther
  {
    match v
    case JNull => Number(0.0)
    case JBool(b) => Number(if b then 1.0 else 0.0)
    case JNum(n) => Number(n)
    case JStr(s) =>
      if s == "" then Number(0.0)
      else (match parseFloat(s) case Some(x) => Number(x) case None => BadValue)
    case JOther => TypeFailure
  }

  /** `input_data.get(f, 0)`. */
  function Lookup(input: map<string, Json>, f: string): Json {
    if f in input then input[f] else JNum(0.0)
  }

  /** Every feature's value converts to a number. */
  predicate AllConvert(input: map<string, Json>, parseFloat: string -> Option<real>) {
    forall i :: 0 <= i < |Features| ==> CleanValue(Lookup(input, Features[i]), parseFloat).Number?
  }

  /** Feature `i` is the first, in feature order, whose value does not convert. */
  predicate FirstFailureAt(input: map<string, Json>, parseFloat: string -> Option<real>, i: int) {
    && 0 <= i < |Features|
    && !CleanValue(Lookup(input, Features[i]), parseFloat).Number?
    && forall k :: 0 <= k < i ==> CleanValue(Lookup(input, Features[k]), parseFloat).Number?
  }

  /** Either every value converts or exactly one feature is the first to fail. */
  lemma FirstFailureExists(input: map<string, Json>, parseFloat: string -> Option<real>)
    ensures AllConvert(input, parseFloat) <==> !exists i :: FirstFailureAt(input, parseFloat, i)
    ensures forall i, j :: FirstFailureAt(input, parseFloat, i) && FirstFailureAt(input, parseFloat, j) ==> i == j
  {
    if !AllConvert(input, parseFloat) {
      var n := 0;
      while CleanValue(Lookup(input, Features[n]), parseFloat).Number?
        invariant 0 <= n < |Features|
        invariant forall k :: 0 <= k < n ==> CleanValue(Lookup(input, Features[k]), parseFloat).Number?
        invariant exists j :: n <= j < |Features| && !CleanValue(Lookup(input, Features[j]), parseFloat).Number?
        decreases |Features| - n
      {
        n := n + 1;
      }
      assert FirstFailureAt(input, parseFloat, n);
    }
  }

  /** The loop failed at feature index `at`, or produced the vector. */
  datatype Cleaned = Vector(values: seq<real>) | Failed(at: nat, kind: Conversion)

  /** The cleaning loop of `predict`. */
  method CleanFeatures(input: map<string, Json>, parseFloat: string -> Option<real>) returns (r: Cleaned)
    ensures r.Vector? ==>
      && |r.values| == |Features|
      && forall i :: 0 <= i < |Features| ==> CleanValue(Lookup(input, Features[i]), parseFloat) == Number(r.values[i])
    ensures r.Failed? ==>
      && r.at < |Features|
      && r.kind == CleanValue(Lookup(input, Features[r.at]), parseFloat)
      && !r.kind.Number?
      && forall i :: 0 <= i < r.at ==> CleanValue(Lookup(input, Features[i]), parseFloat).Number?
  {
    var cleanedData: seq<real> := [];
    for i := 0 to |Features|
      invariant |cleanedData| == i
      invariant forall k :: 0 <= k < i ==> CleanValue(Lookup(input, Features[k]), parseFloat) == Number(cleanedData[k])
    {
      var value := Lookup(input, Features[i]);
      var converted := CleanValue(value, parseFloat);
      if !converted.Number? {
        return Failed(i, converted);
      }
      cleanedData := cleanedData + [converted.x];
    }
    r := Vector(cleanedData);
  }

  // --------------------------------------------------------------- the BMI

  /**
   * The BMI from height in centimetres and weight in kilograms, written as two
   * divisions by the height in metres (equal, over the reals, to dividing by
   * its square).
   */
  function Bmi(heightCm: real, weightKg: real): real
    requires heightCm > 0.0
  {
    weightKg / (heightCm / 100.0) / (heightCm / 100.0)
  }

  lemma QuotientFacts(w: real, h: real)
    requires h > 0.0
    ensures (w / h) * h == w
    ensures w > 0.0 ==> w / h > 0.0
  {
  }

  /** The BMI times the squared height in metres gives back the weight, and is positive for a positive weight. */
  lemma BmiTimesSquare(heightCm: real, weightKg: real)
    requires heightCm > 0.0
    ensures Bmi(heightCm, weightKg) * ((heightCm / 100.0) * (heightCm / 100.0)) == weightKg
    ensures weightKg > 0.0 ==> Bmi(heightCm, weightKg) > 0.0
  {
    var m := heightCm / 100.0;
    var b := Bmi(heightCm, weightKg);
    QuotientFacts(weightKg, m);
    QuotientFacts(weightKg / m, m);
    assert b * m == weightKg / m;
    calc {
      b * (m * m);
      (b * m) * m;
      (weightKg / m) * m;
      weightKg;
    }
  }

  /** The fill happens only when height and weight are positive and the BMI slot is 0. */
  predicate FillsBmi(v: seq<real>)
    requires |v| == |Features|
  {
    v[HeightIndex] > 0.0 && v[WeightIndex] > 0.0 && v[BmiIndex] == 0.0
  }

  /** `cleaned_data[bmi_index] = weight / (height / 100) ** 2` under its guard. */
  function FillBmi(v: seq<real>): (r: seq<real>)
    requires |v| == |Features|
    ensures |r| == |v|
    ensures forall i :: 0 <= i < |v| && i != BmiIndex ==> r[i] == v[i]
    ensures !FillsBmi(v) ==> r == v
    ensures FillsBmi(v) ==> r[BmiIndex] > 0.0
    ensures FillsBmi(v) ==> r[BmiIndex] * ((v[HeightIndex] / 100.0) * (v[HeightIndex] / 100.0)) == v[WeightIndex]
  {
    if FillsBmi(v) then
      BmiTimesSquare(v[HeightIndex], v[WeightIndex]);
      v[BmiIndex := Bmi(v[HeightIndex], v[WeightIndex])]
    else v
  }

  // ----------------------------------------------------------------- score

  /** `(raw - (-1)) / (1 - (-1)) * 100` clamped by `max(0, min(score, 100))`. */
  function Score(raw: real): (s: real)
    ensures 0.0 <= s <= 100.0
    ensures -1.0 <= raw <= 1.0 ==> s == (raw + 1.0) * 50.0
    ensures raw <= -1.0 ==> s == 0.0
    ensures raw >= 1.0 ==> s == 100.0
  {
    var score := (raw - (-1.0)) / (1.0 - (-1.0)) * 100.0;
    var capped := if score < 100.0 then score else 100.0;
    if 0.0 >= capped then 0.0 else capped
  }

  /** The rescaling keeps the order of the raw predictions. */
  lemma ScoreMonotone(a: real, b: real)
    requires a <= b
    ensures Score(a) <= Score(b)
  {
  }

  // ----------------------------------------------------------- the endpoint

  /** The replies of `predict` with their HTTP status. */
  datatype PredictResponse =
    | InvalidFormat                      // 400, empty body
    | MissingFields(missing: seq<string>) // 400
    | InvalidValue(feature: string)      // 400, `ValueError` of `float()`
    | ServerError                        // 500, any other exception
    | Prediction(score: real, message: string)
  {
    function Status(): int {
      match this
      case InvalidFormat => 400
      case MissingFields(_) => 400
      case InvalidValue(_) => 400
      case ServerError => 500
      case Prediction(_, _) => 200
    }
  }

  /** The body passed the format check and names every feature. */
  predicate Complete(body: Option<map<string, Json>>) {
    body.Some? && |body.value| != 0 && MissingFeatures(body.value) == []
  }

  /** `predict()`. `body` is the parsed JSON body, `None` when it is not an
      object (a list, a string, a number); `model` stands for the scaler and
      the regression model together (`model.predict(scaler.transform(df))[0]`). */
  method Predict(body: Option<map<string, Json>>, parseFloat: string -> Option<real>, model: seq<real> -> real)
    returns (resp: PredictResponse)
    ensures resp == InvalidFormat <==> body.None? || |body.value| == 0
    ensures resp.MissingFields? <==> body.Some? && |body.value| != 0 && MissingFeatures(body.value) != []
    ensures resp.MissingFields? ==> resp.missing == MissingFeatures(body.value)
    ensures resp.Prediction? <==> Complete(body) && AllConvert(body.value, parseFloat)
    ensures resp.InvalidValue? <==>
      Complete(body) && exists i :: FirstFailureAt(body.value, parseFloat, i)
                                  && CleanValue(Lookup(body.value, Features[i]), parseFloat) == BadValue
    ensures resp.ServerError? <==>
      Complete(body) && exists i :: FirstFailureAt(body.value, parseFloat, i)
                                  && CleanValue(Lookup(body.value, Features[i]), parseFloat) == TypeFailure
    ensures forall i :: Complete(body) && FirstFailureAt(body.value, parseFloat, i) ==>
      && (CleanValue(Lookup(body.value, Features[i]), parseFloat) == BadValue ==> resp == InvalidValue(Features[i]))
      && (CleanValue(Lookup(body.value, Features[i]), parseFloat) == TypeFailure ==> resp == ServerError)
    ensures resp.Prediction? ==>
      && 0.0 <= resp.score <= 100.0
      && resp.message == GenerateMessage(resp.score)
      && exists v: seq<real> ::
           && |v| == |Features|
           && (forall i :: 0 <= i < |Features| ==> CleanValue(Lookup(body.value, Features[i]), parseFloat) == Number(v[i]))
           && resp.score == Score(model(FillBmi(v)))
  {
    if body.None? || |body.value| == 0 {
      return InvalidFormat;
    }
    var input := body.value;
    var missing := MissingFeatures(input);
    if missing != [] {
      return MissingFields(missing);
    }
    FirstFailureExists(input, parseFloat);
    var cleaned := CleanFeatures(input, parseFloat);
    if cleaned.Failed? {
      assert FirstFailureAt(input, parseFloat, cleaned.at);
      if cleaned.kind == BadValue {
        return InvalidValue(Features[cleaned.at]);
      }
      assert cleaned.kind == TypeFailure;
      return ServerError;
    }
    assert AllConvert(input, parseFloat);
    var cleanedData := FillBmi(cleaned.values);
    var rawPrediction := model(cleanedData);
    var score := Score(rawPrediction);
    resp := Prediction(score, GenerateMessage(score));
  }
}
