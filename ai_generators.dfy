/** The request/response handling shared by AIWorkoutGenerator and
    AIMealGenerator: the two `generate` handlers are the same text apart from
    the fallback error message and the name of the result setter, so one
    class models both, built by the `Workout` or `Meal` constructor. */
module AIGenerators {
  import opened Common
  import opened StreamDecoder

  /** What `fetch` to the ai-coach function produced, as far as the handler
      can observe it. */
  datatype Response =
      /** `fetch` rejected, or `response.json()` of an error body threw. */
    | Thrown(message: string)
      /** `!response.ok`; the `error` field of the JSON error body, if any. */
    | NotOk(errorField: Option<string>)
      /** `response.ok`; `body` is None when `response.body` is null.
          `readError` is set when `reader.read()` rejected after the chunks. */
    | Ok(body: Option<seq<string>>, readError: Option<string>)

  /** The toast shown when the handler ends. */
  datatype Toast = Success | Failure(message: string)

  const WorkoutFallback: string := "Erro ao gerar treino"
  const MealFallback: string := "Erro ao gerar receita"

  /** The message of the error thrown for a non-OK response:
      `error.error || fallback`. */
  function NotOkMessage(errorField: Option<string>, fallback: string): (m: string)
    ensures Truthy(errorField) ==> m == errorField.value
    ensures !Truthy(errorField) ==> m == fallback
  {
    if Truthy(errorField) then errorField.value else fallback
  }

  class Generator {
    /** The message used when the error body has no `error` string. */
    const fallback: string
    /** `isGenerating` */
    var isGenerating: bool
    /** `workout` / `meal`: null is None. */
    var result: Option<string>
    /** Every value passed to `setWorkout` / `setMeal`, in order. */
    var shown: seq<Option<string>>

    /** The AIWorkoutGenerator component's initial state. */
    constructor Workout()
      ensures fallback == WorkoutFallback
      ensures !isGenerating && result == None && shown == []
    {
      fallback := WorkoutFallback;
      isGenerating, result, shown := false, None, [];
    }

    /** The AIMealGenerator component's initial state. */
    constructor Meal()
      ensures fallback == MealFallback
      ensures !isGenerating && result == None && shown == []
    {
      fallback := MealFallback;
      isGenerating, result, shown := false, None, [];
    }

    /** Publish a new result value. */
    method Show(v: Option<string>)
      modifies this
      ensures result == v && shown == old(shown) + [v] && isGenerating == old(isGenerating)
    {
      result := v;
      shown := shown + [v];
    }

    /** `generateWorkout` / `generateMeal`: the result is reset to "" at the
        start; on success it holds the decoded text, on any error it becomes
        null; `isGenerating` is false at the end either way. */
    method Generate(response: Response, delta: string -> Option<string>) returns (toast: Toast)
      modifies this
      ensures !isGenerating
      ensures response.Thrown? ==>
                toast == Failure(response.message) && result == None
                && shown == old(shown) + [Some(""), None]
      ensures response.NotOk? ==>
                toast == Failure(NotOkMessage(response.errorField, fallback)) && result == None
                && shown == old(shown) + [Some(""), None]
      ensures response.Ok? && response.body.None? ==>
                toast == Success && result == Some("") && shown == old(shown) + [Some("")]
      ensures response.Ok? && response.body.Some? && response.readError.None? ==>
                var cs := Contents(StreamLines(response.body.value), delta);
                toast == Success && result == Some(StreamText(response.body.value, delta))
                && shown == old(shown) + [Some("")] + Published(Snapshots("", cs))
      ensures response.Ok? && response.body.Some? && response.readError.Some? ==>
                var cs := Contents(StreamLines(response.body.value), delta);
                toast == Failure(response.readError.value) && result == None
                && shown == old(shown) + [Some("")] + Published(Snapshots("", cs)) + [None]
    {
      isGenerating := true;
      Show(Some(""));
      match response {
        case Thrown(message) =>
          toast := Failure(message);
          Show(None);
        case NotOk(errorField) =>
          toast := Failure(NotOkMessage(errorField, fallback));
          Show(None);
        case Ok(body, readError) =>
          if body.None? {
            toast := Success;
          } else {
            // each append inside the decoding loop calls the setter with the
            // accumulator; the last such call leaves the decoded text
            var fullText, updates := DecodeStream(body.value, delta);
            FinalSnapshotIsText(body.value, delta);
            result, shown := Some(fullText), shown + Published(updates);
            if readError.Some? {
              toast := Failure(readError.value);
              Show(None);
            } else {
              toast := Success;
            }
          }
      }
      isGenerating := false;
    }
  }

  /** The values handed to the setter for a sequence of snapshots. */
  function Published(snaps: seq<string>): (vs: seq<Option<string>>)
    ensures |vs| == |snaps|
    ensures forall i :: 0 <= i < |snaps| ==> vs[i] == Some(snaps[i])
  {
    seq(|snaps|, i requires 0 <= i < |snaps| => Some(snaps[i]))
  }

  /** After a successful stream the last value shown is the decoded text. */
  lemma FinalSnapshotIsText(chunks: seq<string>, delta: string -> Option<string>)
    ensures var cs := Contents(StreamLines(chunks), delta);
            |cs| > 0 ==> Snapshots("", cs)[|cs| - 1] == StreamText(chunks, delta)
    ensures |Contents(StreamLines(chunks), delta)| == 0 ==> StreamText(chunks, delta) == ""
  {
    var cs := Contents(StreamLines(chunks), delta);
    if |cs| > 0 {
      assert Snapshots("", cs)[|cs| - 1] == "" + Concat(cs);
    }
  }
}
