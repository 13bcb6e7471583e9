/** The `ai-coach` edge function: answers CORS preflight, reads
    `{ type, preferences }`, builds a system persona and a user prompt, calls
    the AI gateway with streaming on, and maps the gateway's answer to the
    response. The prompt texts are reduced to which line was chosen. */
module AICoach {
  import opened Common

  /** The preference fields, each as the text it renders to in the prompt
      template. A missing field, and any falsy value (`false`, `0`, `null`),
      is absent from the map or maps to "". A truthy value that renders to
      "" (an empty array) is indistinguishable here from a falsy one. */
  datatype Preferences = Preferences(fields: map<string, string>)

  function Field(p: Preferences, name: string): Option<string> {
    if name in p.fields then Some(p.fields[name]) else None
  }

  /** Which persona the system prompt sets up. */
  datatype Persona = Unset | Trainer | Nutritionist | Coach

  /** One line of the user prompt: the user's value for a field, that
      field's fixed default, the fixed "train together" line, or nothing. */
  datatype Line = Given(field: string, value: string) | Default(field: string) | Couple | Blank

  /** `preferences.x ? <x line> : <default line>`. */
  function FieldLine(p: Preferences, name: string): Line {
    if Truthy(Field(p, name)) then Given(name, Field(p, name).value) else Default(name)
  }

  const WorkoutFields := ["goal", "duration", "level", "equipment"]
  const MealFields := ["mealType", "restrictions", "cookingTime"]

  /** The workout prompt: four fields with defaults, then the couple line
      only when `together` is truthy. */
  function WorkoutLines(p: Preferences): (lines: seq<Line>)
    ensures |lines| == 5
    ensures forall i :: 0 <= i < 4 ==>
              (lines[i] == Default(WorkoutFields[i]) <==> !Truthy(Field(p, WorkoutFields[i])))
    ensures forall i :: 0 <= i < 4 && Truthy(Field(p, WorkoutFields[i])) ==>
              lines[i] == Given(WorkoutFields[i], Field(p, WorkoutFields[i]).value)
    ensures lines[4] == Couple <==> Truthy(Field(p, "together"))
    ensures lines[4] != Couple ==> lines[4] == Blank
  {
    seq(4, i requires 0 <= i < 4 => FieldLine(p, WorkoutFields[i]))
      + [if Truthy(Field(p, "together")) then Couple else Blank]
  }

  /** The meal prompt: three fields with defaults, then the cuisine only
      when given; an absent cuisine leaves an empty line. */
  function MealLines(p: Preferences): (lines: seq<Line>)
    ensures |lines| == 4
    ensures forall i :: 0 <= i < 3 ==>
              (lines[i] == Default(MealFields[i]) <==> !Truthy(Field(p, MealFields[i])))
    ensures forall i :: 0 <= i < 3 && Truthy(Field(p, MealFields[i])) ==>
              lines[i] == Given(MealFields[i], Field(p, MealFields[i]).value)
    ensures lines[3] == Blank <==> !Truthy(Field(p, "cuisine"))
    ensures lines[3] != Blank ==> lines[3] == Given("cuisine", Field(p, "cuisine").value)
  {
    seq(3, i requires 0 <= i < 3 => FieldLine(p, MealFields[i]))
      + [if Truthy(Field(p, "cuisine")) then Given("cuisine", Field(p, "cuisine").value) else Blank]
  }

  /** The general coach's prompt is the question, or a default question. */
  function CoachLines(p: Preferences): (lines: seq<Line>)
    ensures |lines| == 1
    ensures lines[0] == Default("question") <==> !Truthy(Field(p, "question"))
    ensures Truthy(Field(p, "question")) ==> lines[0] == Given("question", Field(p, "question").value)
  {
    [FieldLine(p, "question")]
  }

  /** A given field's value is carried over verbatim. */
  lemma GivenValuesAreKept(p: Preferences, i: nat)
    requires i < 4 && Truthy(Field(p, WorkoutFields[i]))
    ensures WorkoutLines(p)[i] == Given(WorkoutFields[i], p.fields[WorkoutFields[i]])
  {
  }

  /** The request made to the gateway. */
  datatype Call = Call(system: Persona, user: seq<Line>)

  /** The prompt the dispatch on `type` settles on: the trainer exactly for
      "workout", the nutritionist exactly for "meal", the coach for any
      other or missing type, each with its own lines. */
  function Prompt(typ: Option<string>, p: Preferences): (c: Call)
    ensures c.system != Unset && |c.user| >= 1
    ensures c.system == Trainer <==> typ == Some("workout")
    ensures c.system == Nutritionist <==> typ == Some("meal")
    ensures c.system == Trainer ==> c.user == WorkoutLines(p)
    ensures c.system == Nutritionist ==> c.user == MealLines(p)
    ensures c.system == Coach ==> c.user == CoachLines(p)
  {
    if typ == Some("workout") then Call(Trainer, WorkoutLines(p))
    else if typ == Some("meal") then Call(Nutritionist, MealLines(p))
    else Call(Coach, CoachLines(p))
  }

  /** The prompt variables start empty and are reassigned by the dispatch
      on `type`: "workout", then "meal", then anything else. */
  method BuildPrompt(typ: Option<string>, p: Preferences) returns (system: Persona, user: seq<Line>)
    ensures Call(system, user) == Prompt(typ, p)
  {
    system := Unset;
    user := [];
    if typ == Some("workout") {
      system := Trainer;
      user := WorkoutLines(p);
    } else if typ == Some("meal") {
      system := Nutritionist;
      user := MealLines(p);
    } else {
      system := Coach;
      user := CoachLines(p);
    }
  }

  /** What `req.json()` and the destructuring produce: a parse failure, a
      `null` body, or the two fields (`type` only when it is a string). */
  datatype RequestBody =
    | Malformed(message: string)
    | NullBody
    | Fields(typ: Option<string>, preferences: Option<Preferences>)

  /** The gateway's answer: a thrown network error or a status and body. */
  datatype Upstream = NetworkError(message: string) | Reply(status: int, body: string)

  datatype ContentType = Unspecified | Json | EventStream

  datatype ErrorKind = RateLimited | OutOfCredits | GatewayError | Thrown(message: string) | TypeError

  datatype Payload = Empty | Error(kind: ErrorKind) | Passthrough(body: string)

  datatype Response = Response(status: int, cors: bool, contentType: ContentType, payload: Payload)

  const MissingKey := "LOVABLE_API_KEY is not configured"

  /** `response.ok`. */
  predicate IsOk(status: int) {
    200 <= status <= 299
  }

  /** A JSON error response with the CORS headers. */
  function Failure(status: int, kind: ErrorKind): Response {
    Response(status, true, Json, Error(kind))
  }

  /** The gateway's answer as the function's response: a success streams
      the body through; 429 and 402 keep their status with their own
      message; any other failure becomes a generic 500. */
  function MapUpstream(u: Upstream): (r: Response)
    ensures r.cors
    ensures u.Reply? && IsOk(u.status) <==> r.contentType == EventStream
    ensures u.Reply? && IsOk(u.status) ==> r.payload == Passthrough(u.body) && r.status == 200
    ensures u.Reply? && !IsOk(u.status) ==>
              r.contentType == Json && r.status == (if u.status == 429 || u.status == 402 then u.status else 500)
    ensures u.Reply? && !IsOk(u.status) ==>
              r.payload == Error(if u.status == 429 then RateLimited
                                 else if u.status == 402 then OutOfCredits
                                 else GatewayError)
    ensures u.NetworkError? ==> r == Failure(500, Thrown(u.message))
  {
    match u
    case NetworkError(m) => Failure(500, Thrown(m))
    case Reply(status, body) =>
      if IsOk(status) then Response(200, true, EventStream, Passthrough(body))
      else if status == 429 then Failure(429, RateLimited)
      else if status == 402 then Failure(402, OutOfCredits)
      else Failure(500, GatewayError)
  }

  /** Only the two documented statuses are passed to the client; every
      error response is JSON with an error kind. */
  lemma ErrorStatuses(u: Upstream)
    ensures MapUpstream(u).status in {200, 402, 429, 500}
    ensures MapUpstream(u).status == 429 <==> u.Reply? && u.status == 429
    ensures MapUpstream(u).status == 402 <==> u.Reply? && u.status == 402
    ensures MapUpstream(u).status != 200 ==> MapUpstream(u).payload.Error?
  {
  }

  /** The handler. `apiKey` is the environment variable and `upstream` the
      gateway's answer, used only if the call is made. */
  method Handle(verb: string, body: RequestBody, apiKey: Option<string>, upstream: Upstream)
    returns (response: Response, calls: seq<Call>)
    ensures response.cors
    ensures |calls| <= 1
    ensures verb == "OPTIONS" ==> response == Response(200, true, Unspecified, Empty) && calls == []
    ensures verb != "OPTIONS" && body.Malformed? ==> response == Failure(500, Thrown(body.message)) && calls == []
    ensures verb != "OPTIONS" && body.NullBody? ==> response == Failure(500, TypeError) && calls == []
    ensures verb != "OPTIONS" && body.Fields? && !Truthy(apiKey) ==>
              response == Failure(500, Thrown(MissingKey)) && calls == []
    ensures verb != "OPTIONS" && body.Fields? && Truthy(apiKey) && body.preferences.None? ==>
              response == Failure(500, TypeError) && calls == []
    ensures |calls| == 1 <==> verb != "OPTIONS" && body.Fields? && Truthy(apiKey) && body.preferences.Some?
    ensures |calls| == 1 ==>
              body.Fields? && body.preferences.Some? &&
              calls[0] == Prompt(body.typ, body.preferences.value) && response == MapUpstream(upstream)
  {
    if verb == "OPTIONS" {
      return Response(200, true, Unspecified, Empty), [];
    }
    calls := [];
    match body {
      case Malformed(m) =>
        response := Failure(500, Thrown(m));
      case NullBody =>
        response := Failure(500, TypeError);
      case Fields(typ, preferences) =>
        if !Truthy(apiKey) {
          response := Failure(500, Thrown(MissingKey));
        } else if preferences.None? {
          response := Failure(500, TypeError);
        } else {
          var system, user := BuildPrompt(typ, preferences.value);
          calls := [Call(system, user)];
          response := MapUpstream(upstream);
        }
    }
  }

  /** A workout request with no preferences filled in uses every default
      and no couple line. */
  lemma EmptyWorkoutPrompt()
    ensures WorkoutLines(Preferences(map[])) ==
              [Default("goal"), Default("duration"), Default("level"), Default("equipment"), Blank]
  {
  }
}
