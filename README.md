# SmartFit core logic in Dafny

SmartFit is a gym application built from several Flask services. This project
models the decision logic inside those services and proves properties about it:

- **Planning service.** It assigns a new session to the coach with the fewest
  sessions that calendar day. It also lists, details and debugs a coach's
  plannings.
- **Booking chatbot.** It detects the intent of a message. It either lists the
  available coaches, or books a slot after a coach lookup, a client lookup, a
  date calculation and a conflict check.
- **Planning generator.** It builds a fixed three-day schedule per coach.
- **Performance routes.** They group performance records per coach, and add a
  performance.
- **Subscription data generator.** It turns random draws into subscription rows:
  duration, season coefficient, length bonus, price floor and status.
- **Fitness-score endpoint.** It validates and cleans the 19 features, fills in
  the BMI, clamps the score and picks a message.

The database tables are sequences (`seq`) of records. Services that write in
place become classes whose methods `modify` those sequences. The current time,
the connection state, the language model's decoded answer, and the library
parsers (`fromisoformat`, `strptime`, `float`) are all parameters. Dates are day
numbers: day 1 is 1 January of year 1, a Monday. Times are a day number plus a
second of the day. Python's `weekday()` is `Calendar.Weekday` and MySQL's
`DAYOFWEEK()` is `Calendar.DayOfWeekSql`.

Two checks fall short of what the code's own comments announce. The model
follows the code as written:

- The slot check is announced as "Vérifier si le coach est disponible à ce
  créneau" (chatbot.py:277): is the coach free for the whole slot. The
  `BETWEEN` test includes both ends and only tests the two endpoints of the
  existing row, so an existing planning that encloses the new slot goes unseen
  (see Findings).
- `get_available_coachs` is documented as selecting coaches "selon l'activité
  et le jour" (chatbot.py:67): by activity and by the named weekday. The code
  passes `jours[jour] + 1` to `DAYOFWEEK()`, which counts from Sunday = 1, so it
  excludes coaches busy on the day before the named one (see Findings).
- Nothing checks that a booking's end comes after its start. An inverted slot is
  accepted, and it never conflicts (`BookingChatbot.InvertedSlotNeverConflicts`).

The chat flow (`BookingChatbot.ChatDb.Chat`) uses the as-written definitions, so
it shows what the service does. The corrected definitions sit beside them, with
their intended properties proved.

## Model

| member | source | states |
|---|---|---|
| PlanningService.CountOn | FlaskProjectAI/FlaskProjectAI/services/planning_service.py:20-23 | The count of a coach's plannings on a calendar day is zero exactly when no planning of that coach falls on that day; the time of day plays no part |
| PlanningService.CountOnAppend | FlaskProjectAI/FlaskProjectAI/services/planning_service.py:20-23 | Appending a planning raises by one the day count of its own coach and day and leaves every other count unchanged |
| PlanningService.LeastLoadedCoach | FlaskProjectAI/FlaskProjectAI/services/planning_service.py:14-27 | The scan returns no coach exactly when there are none; otherwise the returned coach's same-day count is at most every coach's, and every earlier coach is strictly busier (ties go to the first) |
| PlanningService.LeastLoadedIsUnique | FlaskProjectAI/FlaskProjectAI/services/planning_service.py:25-27 | The strict-minimum rule picks one coach: two least-loaded indices are equal |
| PlanningService.AssignmentKeepsBalance | FlaskProjectAI/FlaskProjectAI/services/planning_service.py:18-33 | If all coaches' same-day counts differ by at most one, giving the new planning to the least-loaded coach keeps them within one |
| PlanningService.AssignmentLeavesOtherDays | FlaskProjectAI/FlaskProjectAI/services/planning_service.py:29-33 | A new planning on one day leaves every coach's count on every other day unchanged |
| PlanningService.PlanningStore.AssignCoach | FlaskProjectAI/FlaskProjectAI/services/planning_service.py:4-35 | With no coaches nothing is inserted and `None` is returned; otherwise exactly one planning with the given date and session, the next id, and the least-loaded coach's id is appended, and earlier rows are unchanged |
| Records.FindCoach | FlaskProjectAI/FlaskProjectAI/routes/planning_routes.py:18-20 | `Coach.query.get`: a found coach is in the table with that id; nothing is found exactly when no coach has that id |
| PlanningRoutes.CoachPlannings | FlaskProjectAI/FlaskProjectAI/routes/planning_routes.py:22 | The filtered list holds exactly the coach's plannings, each as often as in the table |
| PlanningRoutes.SortByDate | FlaskProjectAI/FlaskProjectAI/routes/planning_routes.py:22 | `order_by(date)`: the result is a permutation of its input |
| PlanningRoutes.SortByDateSorted | FlaskProjectAI/FlaskProjectAI/routes/planning_routes.py:22 | The result of `SortByDate` is in ascending date order |
| PlanningRoutes.InsertByDateSorted | FlaskProjectAI/FlaskProjectAI/routes/planning_routes.py:22 | Inserting a planning into a date-sorted list keeps it sorted |
| Text.FullName | FlaskProjectAI/FlaskProjectAI/routes/planning_routes.py:33 | `f"{first} {last}"`: the first name, one space, then the last name |
| PlanningRoutes.PlanningByCoach | FlaskProjectAI/FlaskProjectAI/routes/planning_routes.py:13-41 | 404 exactly when the coach is unknown; otherwise the name is "prenom nom", the entries are exactly the coach's plannings in date order, `count` is their number, and an empty session shows as "Session non définie" |
| PlanningRoutes.DebugCoachPlannings | FlaskProjectAI/FlaskProjectAI/routes/planning_routes.py:71-93 | `total_in_database` equals `plannings_retrieved` equals the number of entries, and each entry copies one of the coach's plannings |
| PlanningRoutes.SessionType | FlaskProjectAI/FlaskProjectAI/routes/planning_routes.py:127 | The session type is the coach's specialty, or "Non défini" when it is missing or empty |
| PlanningRoutes.DetailedPlanning | FlaskProjectAI/FlaskProjectAI/routes/planning_routes.py:98-135 | 404 exactly when the coach is unknown; otherwise one entry per planning in date order, each with duration "1h", the session type, the date and its weekday, and `total_seances` equal to the number of plannings |
| PlanningRoutes.AddPlanning | FlaskProjectAI/FlaskProjectAI/routes/planning_routes.py:139-170 | 400 without any write when date or session is missing or empty; 500 when the date does not parse; 400 "Aucun coach disponible" exactly when there are no coaches; otherwise 201 with the appended planning, assigned to the least-loaded coach |
| AiPlanning.DaySessions | FlaskProjectAI/FlaskProjectAI/ai_planning.py:15-22 | A day offset gives two sessions when even and one when odd |
| AiPlanning.ThreeIterations | FlaskProjectAI/FlaskProjectAI/ai_planning.py:15-22 | The three loop iterations give day 0 10:00 Matin, day 0 14:00 Après-midi, day 1 10:00 Matin, day 2 10:00 Matin, day 2 14:00 Après-midi |
| AiPlanning.SessionsUpToCount | FlaskProjectAI/FlaskProjectAI/ai_planning.py:15-22 | n days give n + ⌈n/2⌉ sessions, so three days give five |
| AiPlanning.SessionsUpToShape | FlaskProjectAI/FlaskProjectAI/ai_planning.py:15-22 | Every session falls on one of the n days; it is "Matin" exactly at 10:00 and "Après-midi" exactly at 14:00; afternoon sessions fall only on even day offsets |
| AiPlanning.PlanName | FlaskProjectAI/FlaskProjectAI/ai_planning.py:26 | The name is "nom prenom", with "John" and "Doe" for a missing key |
| AiPlanning.GenerateSmartPlanning | FlaskProjectAI/FlaskProjectAI/ai_planning.py:4-30 | One result per input coach, in input order, each with the coach's id, its name and the five-session schedule |
| PerformanceRoutes.CoachPerfRows | FlaskProjectAI/FlaskProjectAI/routes/performance_routes.py:19-26 | The bucket holds exactly the performances with that coach id, each as often as in the table |
| PerformanceRoutes.CoachPerfRowsAppend | FlaskProjectAI/FlaskProjectAI/routes/performance_routes.py:19-26 | Filtering distributes over concatenation, so the bucket keeps the original list order |
| PerformanceRoutes.ViewsOf | FlaskProjectAI/FlaskProjectAI/routes/performance_routes.py:20-24 | One view per performance, at the same position |
| PerformanceRoutes.GetAllPerformances | FlaskProjectAI/FlaskProjectAI/routes/performance_routes.py:9-33 | One entry per coach in coach order, with the coach's id, the name "nom prenom" and the views of its bucket |
| PerformanceRoutes.BucketMembership | FlaskProjectAI/FlaskProjectAI/routes/performance_routes.py:18-26 | A performance whose coach id matches no listed coach is in no bucket; a matching one is in the bucket of each coach with its id |
| PerformanceRoutes.PerformanceStore.AddPerformance | FlaskProjectAI/FlaskProjectAI/routes/performance_routes.py:36-42 | A complete record for an existing coach is appended and returned; otherwise nothing changes |
| DataGeneration.BaseDurationDays | Abonnements/data_generation.py:36-43 | 7 exactly when "Hebdomadaire" occurs; 365 exactly when "Annuel" occurs and neither "Hebdomadaire" nor "Mensuel" does; 30 otherwise |
| DataGeneration.TypeHasOnePeriod | Abonnements/data_generation.py:15-23 | Each subscription type names exactly one of the three periods |
| DataGeneration.TypeDurations | Abonnements/data_generation.py:15-43 | Every type has a base price, and its base duration is that of its period: 7, 30 or 365 days |
| DataGeneration.RandomStartDate | Abonnements/data_generation.py:47-51 | Draws in the `randint` ranges always give a valid date |
| DataGeneration.SeasonCoef | Abonnements/data_generation.py:74-79 | 0.94 exactly in January and September, 1.04 exactly in June and July, 1.0 otherwise |
| DataGeneration.LenBonusOfTypes | Abonnements/data_generation.py:82-88 | For the listed types, the bonus is 2.5 exactly for a monthly type over 32 days, 1.0 exactly for a weekly type over 7 days, 10.0 exactly for the yearly type over 370 days, and 0 otherwise |
| DataGeneration.MakeRow | Abonnements/data_generation.py:53-111 | The row has the given id and a listed type. Its start date is valid, and its end lies the varied duration later, within 26-35, 6-9 or 358-375 days. Its price is at least 10 and is the floored sum of base price times season, bonus and noise. Its status is in STATUTS and follows the year rule |
| DataGeneration.GenerateRows | Abonnements/data_generation.py:113-115 | One row per draw, each row matching its draws, and the ids are exactly 1..N in order |
| DataGeneration.IdsAreOneToN | Abonnements/data_generation.py:115-119 | Rows numbered by position hold, as a set, exactly the ids 1..N, the set that the shuffle of `main` keeps |
| FitnessChatbot.FeatureIndices | Client/chatbot.py:14-34 | There are 19 features, with height, weight and BMI at positions 2, 3 and 13 |
| FitnessChatbot.FitnessLevel | Client/chatbot.py:37-57 | Four buckets that cover every score: below 40, 40 to below 70, 70 to below 85, 85 and over |
| FitnessChatbot.FitnessLevelMonotone | Client/chatbot.py:37-57 | A higher score never gets a lower bucket |
| FitnessChatbot.MissingFeatures | Client/chatbot.py:98-100 | The missing list holds exactly the features absent from the input, and it is empty exactly when every feature is present |
| FitnessChatbot.MissingFromAppend | Client/chatbot.py:98 | The missing list distributes over concatenation, so it keeps feature order |
| FitnessChatbot.CleanValue | Client/chatbot.py:105-115 | `None` and "" become 0, numbers pass through, booleans become 1 and 0, a non-empty string becomes the number `float()` reads from it, and it is an invalid value exactly when `float()` rejects it; other JSON types, and only they, fail the conversion |
| FitnessChatbot.FirstFailureExists | Client/chatbot.py:103-115 | Either every feature value converts, or there is a first feature whose value does not, and that first feature is unique |
| FitnessChatbot.CleanFeatures | Client/chatbot.py:103-117 | Success gives one cleaned value per feature, in feature order; failure names the first feature that failed |
| FitnessChatbot.BmiTimesSquare | Client/chatbot.py:125 | The computed BMI times the squared height in metres gives back the weight, and it is positive for a positive weight |
| FitnessChatbot.FillBmi | Client/chatbot.py:120-125 | Only the BMI slot can change, and only when height and weight are positive and the slot is 0; the new value is positive and times the squared height gives the weight |
| FitnessChatbot.Score | Client/chatbot.py:137-138 | The score always lies in [0, 100]; it is the linear map of the raw value from [-1, 1], and it saturates at 0 and 100 outside that range |
| FitnessChatbot.ScoreMonotone | Client/chatbot.py:137-138 | A higher raw prediction never gives a lower score |
| FitnessChatbot.Predict | Client/chatbot.py:89-149 | 400 exactly for an empty body or one that is not an object. Otherwise 400 with the missing list exactly when features are missing. For a complete body: a prediction exactly when every value converts; 400 naming the first failing feature exactly when its value is an invalid string; 500 exactly when it has a type `float()` refuses. On success the score lies in [0, 100], comes from the model applied to the cleaned, BMI-filled vector, and its message is `GenerateMessage(score)` |
| BookingChatbot.AnyKeyword | chatbot.py:33-43 | `any(k in text ...)` holds exactly when one of the keywords occurs in the text |
| BookingChatbot.FirstPresent | chatbot.py:57-61 | The first name that occurs, in list order, or none exactly when no name occurs |
| BookingChatbot.DetectIntention | chatbot.py:28-44 | Each of the three flags holds exactly when one of its keywords occurs in the lower-cased message; the flags are computed independently |
| BookingChatbot.DetectedActivity | chatbot.py:46-63 | The activity is the first of musculation, yoga, cardio, crossfit and pilates that occurs in the lower-cased message, else none; "Fitness" is never returned |
| BookingChatbot.JourIndex | chatbot.py:87-91 | The `jours` lookup: a known name maps to its Monday-based number, and unknown names to nothing |
| BookingChatbot.DayNameAt | chatbot.py:141-142 | At one position, the first alternative of the day-name group that matches as a whole word |
| BookingChatbot.SearchDay | chatbot.py:141-143 | The leftmost position where some day name matches as a whole word, and the first alternative there; none exactly when no day name matches anywhere |
| BookingChatbot.FindDay | chatbot.py:141-143 | `jour_demande` is a known day name or none |
| BookingChatbot.FoundDayIsLeftmostWord | chatbot.py:141-143 | A day is found exactly when some day name stands as a whole word in the lower-cased message, and it is the leftmost such word |
| BookingChatbot.DayParam | chatbot.py:86-100 | A day condition applies exactly when `jour` is non-empty and its lower-case form is a known name, and the bound parameter is `jours[jour] + 1` |
| BookingChatbot.AvailableCoaches | chatbot.py:75-113 | The result holds exactly the coaches that match the specialty filter and are not in the `NOT IN` subquery, and is no longer than the table |
| BookingChatbot.NotBusy | chatbot.py:92-99 | A coach passes the `NOT IN` subquery exactly when it has no planning after `now` on the bound MySQL weekday |
| BookingChatbot.GetAvailableCoachs | chatbot.py:66-121 | An error exactly when the database is down; otherwise the summaries (id, nom, specialite, telephone) of `AvailableCoaches`, in table order |
| BookingChatbot.AsWrittenExcludesDayBefore | chatbot.py:86-100 | With a known day, a coach is listed exactly when it matches the specialty and has no future planning on the weekday before the named one |
| BookingChatbot.UnknownDayNoFilter | chatbot.py:86-91 | An empty or unknown day name applies no day condition |
| BookingChatbot.IntendedExcludesNamedDay | chatbot.py:96-100 | With the corrected parameter, a coach is listed exactly when it matches the specialty and has no future planning on the named weekday |
| BookingChatbot.MondayBookingNotExcluded | chatbot.py:96-100 | A coach with a future Monday planning is listed for "lundi" as written, and is not listed with the corrected parameter |
| BookingChatbot.TargetWeekday | chatbot.py:258-260 | The named weekday, or today's weekday for an unknown name |
| BookingChatbot.DaysAhead | chatbot.py:262-264 | `days_ahead` lies in [0, 6], and today's weekday plus it is the target weekday modulo 7 |
| BookingChatbot.SessionDay | chatbot.py:258-266 | The session day falls within the coming seven days, today included. It is on the named weekday for a known name, and it is today for an unknown one |
| BookingChatbot.AnyClash | chatbot.py:278-284 | The conflict query finds a row exactly when some planning of that coach starts or ends within the closed range from the new start to the new end |
| BookingChatbot.TouchingEndpointsConflict | chatbot.py:278-288 | A planning of the coach ending exactly at the new start is a conflict |
| BookingChatbot.EnclosingNotDetected | chatbot.py:278-282 | A planning that starts before and ends after the new slot is not a conflict |
| BookingChatbot.InvertedSlotNeverConflicts | chatbot.py:268-282 | A slot whose end precedes its start conflicts with nothing |
| BookingChatbot.OverlapsCatchesEnclosing | chatbot.py:278-282 | The half-open overlap test catches an enclosing planning, and treats touching slots as free |
| BookingChatbot.Get | chatbot.py:298-299 | `dict.get`: the stored value when the key is present, and the default only when it is absent |
| BookingChatbot.CoachIdByName | chatbot.py:231-234 | A found id belongs to a coach with that name; nothing is found exactly when no coach has it |
| BookingChatbot.ClientIdByName | chatbot.py:242-245 | A found id belongs to a client with that name; nothing is found exactly when no client has it |
| BookingChatbot.SavedRowIsSound | chatbot.py:224-305 | A written row names an existing coach and an existing client by their ids, and clashes with no planning of that coach. It starts within the coming week on the named weekday, or today for an unknown name, and ends on the same day. It takes the next id, and `titre` and `description` default to "Séance" and "" only when absent |
| BookingChatbot.UnknownNamesRefused | chatbot.py:233-250 | An unknown coach gives the coach-not-found 400. A known coach with an unknown client gives the client-not-found 400. That a refusal writes no row is stated by `ChatDb.Book` |
| BookingChatbot.ClearRequestIsSaved | chatbot.py:233-305 | With the coach and the client found and the day and both times strings that parse, the booking is saved exactly when the slot clashes with none of the coach's plannings, and is refused as taken otherwise |
| BookingChatbot.BookingStatus | chatbot.py:236-288 | Status 400 exactly for the coach, client and slot refusals, and 500 exactly for the uncaught exceptions |
| BookingChatbot.NatToStringRoundTrip | chatbot.py:166 | The decimal digits written for the coach count read back as that count |
| BookingChatbot.SearchMessage | chatbot.py:159-171 | The reply is, in order and with nothing else: "Voici les coachs disponibles" when coaches were found and "Aucun coach disponible trouvé" otherwise, " en {activite}" when an activity was detected, " pour {jour}" when a day was found, and " : {n} coach(s) trouvé(s)" only for a non-empty result |
| BookingChatbot.ChatDb.Book | chatbot.py:224-305 | The outcome is `Decide` on the state before the call. A row is appended and the id advances exactly when the outcome is Saved, and nothing changes otherwise |
| BookingChatbot.ChatDb.Chat | chatbot.py:124-324 | 400 for an empty message, then for an empty client name. A message with a coach-search keyword takes the search branch even when it also asks to book, and writes nothing; its reply lists `AvailableCoaches` with the detected activity and day, and without a connection it is the search error message alone, with no activity or day. Otherwise a failed model call is 500 and the booking follows `Decide`. Only a Saved booking writes, and it writes one row |

## Left out

- The Flask routing, JSON encoding, CORS, the health check and `app.run` are not modelled. They are framework glue. Responses are datatypes carrying the fields and status codes.
- SQL text, connections and transactions are replaced by sequences. SQL row order is taken to be table order, and `ORDER BY date` is a stable insertion sort. The database error paths other than "not connected" are not modelled.
- The language model call and the regex and `json.loads` extraction of its answer become an input: the decoded map, or none when the call fails. An answer that does not decode stands as a map without the four booking keys.
- Date and time parsing and formatting (`fromisoformat`, `strptime`, `isoformat`, `strftime`) are parameters or left out. Microseconds are dropped. The detailed planning's date and day name are the day number and its weekday number.
- BookingChatbot.GetAvailableCoachs: `LIKE` wildcards inside the activity and accent-insensitive collation are not modelled. The match is a case-insensitive substring test.
- BookingChatbot.CoachIdByName: a coach name compares exactly, with no collation. MySQL's default collation ignores case and trailing spaces, so the database also matches names that differ only in those. A non-string name matches no coach.
- BookingChatbot.ClientIdByName: a client name compares exactly, with no collation. MySQL's default collation ignores case and trailing spaces, so the database also matches names that differ only in those.
- PerformanceRoutes.PerformanceStore.AddPerformance: a client-supplied `id` key, which `Performance(**data)` accepts, is not modelled; the new row always takes the next id.
- Text.Lower: only ASCII and Latin-1 capitals are lower-cased. The `\b` word characters are ASCII letters, digits, `_` and the Latin-1 letters.
- BookingChatbot.ChatDb.Chat: one `now` stands for both the server's `NOW()` and `datetime.today()`. Re-reading the clock is not modelled.
- AiPlanning.GenerateSmartPlanning: one `now` serves every coach. The source reads the clock once per coach.
- Floating point is not modelled: prices, BMI and scores are reals, and `round(…, 2)` is left out. The noise, the choices and the weighted status draw are inputs. The shuffle and the CSV output of `main` are left out; the shuffle only reorders rows.
- DataGeneration.MakeRow: the status is chosen by an index into the year's list. The weights of `random.choices` are not modelled.
- The scikit-learn scaler and model in the score endpoint are a function parameter.
- FitnessChatbot.Predict: the model is a total function, so the 500 that an exception inside the scaler or the model would give is not modelled; only the `TypeError` of `float()` leads to the 500 here. A body that is not valid JSON at all is not modelled either.
- `debug_all_plannings` (planning_routes.py:49-67) is not part of this model, and neither is the `/coachs` route of chatbot.py (lines 327-345).
- The count-then-insert race between concurrent assignment requests is not modelled. Concurrency is out of scope.
- PerformanceRoutes.PerformanceStore.AddPerformance: `Performance(**data)` checks only what the model checks: a client count, a coach id and an existing coach. Other keyword errors are not modelled.

## Findings

| source | as written | input that shows it | evidently intended | confidence | as-written member | corrected member |
|---|---|---|---|---|---|---|
| chatbot.py:96-100 | `DAYOFWEEK(p.date_debut) = jours[jour] + 1`, with `jours` numbered from Monday = 0 and `DAYOFWEEK` from Sunday = 1 | jour "lundi", coach 1 with one future planning on Monday 6 January 2025: the coach is listed as available | exclude coaches with a future planning on the named weekday: bind `(jours[jour] + 1) % 7 + 1` | high, not executed | BookingChatbot.MondayBookingNotExcluded | BookingChatbot.IntendedExcludesNamedDay |
| chatbot.py:278-282 | conflict when the existing row's start or end lies in `[start, end]` | existing planning 09:00-12:00 and a new slot 10:00-11:00 of the same coach on the same day: no conflict | any overlap of the two time ranges conflicts | high, not executed | BookingChatbot.EnclosingNotDetected | BookingChatbot.OverlapsCatchesEnclosing |
