/**
 * Rows of the SmartFit database and the JSON values the HTTP handlers receive.
 * The tables `coachs`, `planning`, `performances` follow the ORM models; the
 * booking chatbot writes into a separate table `plannings` and reads `client`.
 */
module Records {
  import opened Wrappers
  import opened Calendar

  /** A row of `coachs`. */
  datatype Coach = Coach(
    id: int,
    nom: string,
    prenom: string,
    specialite: Option<string>,
    email: string,
    telephone: Option<string>)

  /** A row of `planning`, the table of the planning API. */
  datatype Planning = Planning(id: int, date: DateTime, session: string, coachId: int)

  /** A row of `performances`. */
  datatype Performance = Performance(
    id: int,
    date: DateTime,
    clientCount: int,
    rating: Option<real>,
    coachId: int)

  /** A row of `client`. */
  datatype Client = Client(id: int, nom: string)

  /** A decoded JSON value. */
  datatype Json = JNull | JBool(b: bool) | JNum(n: real) | JStr(s: string) | JOther

  /** A row of `plannings`, the table the booking chatbot writes. */
  datatype Booking = Booking(
    id: int,
    dateDebut: DateTime,
    dateFin: DateTime,
    titre: Json,
    description: Json,
    clientId: int,
    coachId: int)

  /** Primary keys are unique. */
  predicate UniqueCoachIds(coaches: seq<Coach>) {
    forall i, j :: 0 <= i < j < |coaches| ==> coaches[i].id != coaches[j].id
  }

  /** `Coach.query.get(id)`. */
  function FindCoach(coaches: seq<Coach>, id: int): (r: Option<Coach>)
    ensures r.Some? ==> r.value in coaches && r.value.id == id
    ensures r.None? <==> forall c :: c in coaches ==> c.id != id
  {
    if coaches == [] then None
    else if coaches[0].id == id then Some(coaches[0])
    else FindCoach(coaches[1..], id)
  }
}
