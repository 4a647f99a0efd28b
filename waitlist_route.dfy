/**
 * The waitlist sign-up endpoint (src/app/api/waitlist/route.ts).
 *
 * `POST` is a straight-line decision over three things it awaits or reads: the two Supabase
 * environment values, the parsed request body, and the outcome of the insert.  Here they are
 * inputs; the insert outcome is only consulted when the handler reaches the insert, and
 * `Post` reports which row, if any, the handler asked the database to insert.
 */
module WaitlistRoute {
  import opened Common

  /** A JSON value, as `request.json()` produces it. */
  datatype Json =
    | JNull
    | JBool(b: bool)
    | JNumber(n: real)
    | JString(s: string)
    | JArray(items: seq<Json>)
    | JObject(fields: map<string, Json>)

  /** `await request.json()`: the body, or the exception it throws on malformed input. */
  datatype ParseOutcome = Parsed(body: Json) | ParseThrew

  /** What the insert can report: its rows, an error with a code and a message, or an exception. */
  datatype InsertOutcome =
    | Inserted(data: Json)
    | InsertFailed(code: string, message: string)
    | InsertThrew

  /** The JSON body of a response. */
  datatype Payload =
    | ErrorPayload(error: string)
    | SuccessPayload(success: bool, message: string, data: Json)

  datatype Response = Response(status: int, payload: Payload)

  /** The row the handler sends to the `Waitlist` table. */
  datatype Row = Row(name: Json, email: Json)

  /** The response, and the row whose insert was requested (None when the handler stopped earlier). */
  datatype PostResult = PostResult(response: Response, inserted: Option<Row>)

  const UnavailableMessage := "Waitlist is temporarily unavailable. Please try again later."
  const RequiredMessage := "Name and email are required"
  const DuplicateMessage := "This email address is already on the waitlist"
  const FailurePrefix := "Failed to submit to waitlist: "
  const UnexpectedMessage := "An unexpected error occurred"
  const SuccessMessage := "Successfully added to waitlist"
  /** PostgreSQL's unique-violation code. */
  const UniqueViolation := "23505"

  /** JavaScript truthiness of an environment value (undefined when absent). */
  predicate EnvTruthy(v: Option<string>) {
    v.Some? && v.value != ""
  }

  /** JavaScript truthiness of a property value, undefined when the property is missing. */
  predicate Truthy(v: Option<Json>) {
    match v
    case None => false
    case Some(JNull) => false
    case Some(JBool(b)) => b
    case Some(JNumber(n)) => n != 0.0
    case Some(JString(s)) => s != ""
    case Some(JArray(_)) => true
    case Some(JObject(_)) => true
  }

  /** `isSupabaseConfigured`. */
  function IsSupabaseConfigured(url: Option<string>, anonKey: Option<string>): (configured: bool)
    ensures configured <==> url.Some? && anonKey.Some? && url.value != "" && anonKey.value != ""
  {
    EnvTruthy(url) && EnvTruthy(anonKey)
  }

  /**
   * A property of the body, read by destructuring: only objects have own properties here,
   * so it is undefined for every other value; `null` is excluded because destructuring
   * it throws.
   */
  function Property(body: Json, key: string): (v: Option<Json>)
    requires body != JNull
    ensures v.Some? ==> body.JObject? && key in body.fields && v.value == body.fields[key]
    ensures body.JObject? && key in body.fields ==> v.Some?
  {
    match body
    case JObject(fields) => if key in fields then Some(fields[key]) else None
    case _ => None
  }

  /** A response with an error payload. */
  function Failure(status: int, message: string): Response {
    Response(status, ErrorPayload(message))
  }

  /**
   * `POST`: 503 before anything is read when Supabase is not configured; 500 when reading the
   * body throws (malformed JSON, or a `null` body that cannot be destructured); 400 when
   * `name` or `email` is falsy; otherwise the insert is requested, and its outcome decides
   * between 409 (duplicate), 500 (any other error, or an exception) and 201.
   */
  function Post(url: Option<string>, anonKey: Option<string>, parse: ParseOutcome, insert: InsertOutcome): (r: PostResult)
    // 503 exactly when not configured, and then nothing else is looked at
    ensures r.response.status == 503 <==> !IsSupabaseConfigured(url, anonKey)
    ensures r.response.status == 503 ==> r.response.payload == ErrorPayload(UnavailableMessage)
    // the insert is requested exactly when the configuration, the body and both fields pass
    ensures r.inserted.Some? <==>
      && IsSupabaseConfigured(url, anonKey) && parse.Parsed? && parse.body != JNull
      && Truthy(Property(parse.body, "name")) && Truthy(Property(parse.body, "email"))
    ensures r.inserted.Some? ==>
      r.inserted.value == Row(Property(parse.body, "name").value, Property(parse.body, "email").value)
    // 400 exactly when a readable body lacks a truthy name or email
    ensures r.response.status == 400 <==>
      && IsSupabaseConfigured(url, anonKey) && parse.Parsed? && parse.body != JNull
      && !(Truthy(Property(parse.body, "name")) && Truthy(Property(parse.body, "email")))
    // the insert's outcome decides the rest
    ensures r.response.status == 409 <==>
      r.inserted.Some? && insert.InsertFailed? && insert.code == UniqueViolation
    ensures r.response.status == 201 <==> r.inserted.Some? && insert.Inserted?
    ensures r.response.status == 201 ==> r.response.payload == SuccessPayload(true, SuccessMessage, insert.data)
    ensures r.inserted.Some? && insert.InsertFailed? && insert.code != UniqueViolation ==>
      r.response == Failure(500, FailurePrefix + insert.message)
    ensures r.response.status == 500 <==>
      || (IsSupabaseConfigured(url, anonKey) && (parse.ParseThrew? || parse.body == JNull))
      || (r.inserted.Some? && (insert.InsertThrew? || (insert.InsertFailed? && insert.code != UniqueViolation)))
  {
    if !IsSupabaseConfigured(url, anonKey) then
      PostResult(Failure(503, UnavailableMessage), None)
    else if parse.ParseThrew? || parse.body == JNull then
      PostResult(Failure(500, UnexpectedMessage), None)
    else
      var name := Property(parse.body, "name");
      var email := Property(parse.body, "email");
      if !Truthy(name) || !Truthy(email) then
        PostResult(Failure(400, RequiredMessage), None)
      else
        var row := Row(name.value, email.value);
        match insert
        case InsertThrew => PostResult(Failure(500, UnexpectedMessage), Some(row))
        case InsertFailed(code, message) =>
          if code == UniqueViolation then PostResult(Failure(409, DuplicateMessage), Some(row))
          else PostResult(Failure(500, FailurePrefix + message), Some(row))
        case Inserted(data) =>
          PostResult(Response(201, SuccessPayload(true, SuccessMessage, data)), Some(row))
  }

  /** Every response carries one of the five statuses the handler uses. */
  lemma PostStatuses(url: Option<string>, anonKey: Option<string>, parse: ParseOutcome, insert: InsertOutcome)
    ensures Post(url, anonKey, parse, insert).response.status in {201, 400, 409, 500, 503}
  {
  }

  /** Without configuration neither the body nor the database matters: the decision comes first. */
  lemma UnconfiguredIgnoresRequest(url: Option<string>, anonKey: Option<string>,
                                   p1: ParseOutcome, i1: InsertOutcome, p2: ParseOutcome, i2: InsertOutcome)
    requires !IsSupabaseConfigured(url, anonKey)
    ensures Post(url, anonKey, p1, i1) == Post(url, anonKey, p2, i2)
  {
  }

  /** The insert's outcome only matters once an insert was requested. */
  lemma InsertOutcomeIrrelevantWithoutInsert(url: Option<string>, anonKey: Option<string>,
                                             parse: ParseOutcome, i1: InsertOutcome, i2: InsertOutcome)
    requires Post(url, anonKey, parse, i1).inserted.None?
    ensures Post(url, anonKey, parse, i1) == Post(url, anonKey, parse, i2)
  {
  }

  /** A success is reported only for a row that was sent, carrying the rows the database returned. */
  lemma SuccessOnlyAfterInsert(url: Option<string>, anonKey: Option<string>, parse: ParseOutcome, insert: InsertOutcome)
    requires Post(url, anonKey, parse, insert).response.payload.SuccessPayload?
    ensures Post(url, anonKey, parse, insert).inserted.Some?
    ensures insert.Inserted? && Post(url, anonKey, parse, insert).response.status == 201
  {
  }
}
