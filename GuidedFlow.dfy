/**
 * guidedFlow.js: the fixed table of guided questions. The first three are
 * collected locally; the last two are sent to the backend, with a query
 * built from the answers so far and a parser for the reply.
 */
module GuidedFlow {
  import opened Wrappers
  import opened Text
  import opened JsValues

  /** `mode`: answered locally or sent to an endpoint. */
  datatype Mode = Collect | Api

  /** Which of the two `buildPayload` functions a question carries. */
  datatype Builder = InitQuery | UtilityQuery

  /**
   * One entry of `GUIDED_FLOW`. Absent properties are `None`. Both API
   * questions carry the same `parseResponse`, so `builder` also says
   * whether there is one.
   */
  datatype Question = Question(
    id: string,
    prompt: string,
    repeatPrompt: Option<string>,
    storageKey: string,
    mode: Mode,
    endpoint: Option<string>,
    payloadKey: Option<string>,
    acknowledgement: string,
    repeatIndex: Option<nat>,
    options: Option<seq<string>>,
    builder: Option<Builder>)

  /** `GUIDED_FLOW`. */
  const Flow: seq<Question> := [
    Question("from", "Where is the starting location for your route?", None, "from",
      Collect, None, None, "Got it! Starting point noted.", None, None, None),
    Question("to", "Where is the destination location for your route?", None, "to",
      Collect, None, None, "Got it! Destination noted.", None, None, None),
    Question("duration", "What is the duration of your trip in days?", None, "duration",
      Collect, None, None, "Understood! Duration recorded.", None, None, None),
    Question("drivingHoursPerDay", "How many hours do you plan to drive each day?",
      Some("Let's try that again. Could you share any extra notes or context?"), "drivingHoursPerDay",
      Api, Some("/init"), Some("query"), "Great, let me think on that for a moment...",
      Some(0), None, Some(InitQuery)),
    Question("routePreference", "Are you in a hurry to reach your destination?", None, "routePreference",
      Api, Some("/utility_itinerary"), Some("query"), "Thanks for the info! Let me process that...",
      None, Some(["Yes", "No"]), Some(UtilityQuery))
  ]

  /** `GUIDED_FLOW_COMPLETE_MESSAGE`. */
  const CompleteMessage: string := "Thanks - that completes the guided questions."

  // ---------------------------------------------------------------------
  // The shape of the table

  /** Five questions, in this order. */
  lemma FlowOrder()
    ensures |Flow| == 5
    ensures seq(|Flow|, i requires 0 <= i < |Flow| => Flow[i].id)
      == ["from", "to", "duration", "drivingHoursPerDay", "routePreference"]
  {
  }

  /** Every answer is stored under the question's own id, and ids are distinct. */
  lemma StorageKeyIsId()
    ensures forall i :: 0 <= i < |Flow| ==> Flow[i].storageKey == Flow[i].id
    ensures forall i, j :: 0 <= i < j < |Flow| ==> Flow[i].id != Flow[j].id
  {
  }

  /** The first three questions are collected without an endpoint; the last two go to `/init` and `/utility_itinerary` under `query`. */
  lemma FlowModes()
    ensures forall i :: 0 <= i < 3 ==> Flow[i].mode == Collect && Flow[i].endpoint.None? && Flow[i].builder.None?
    ensures Flow[3].mode == Api && Flow[3].endpoint == Some("/init") && Flow[3].payloadKey == Some("query")
    ensures Flow[4].mode == Api && Flow[4].endpoint == Some("/utility_itinerary") && Flow[4].payloadKey == Some("query")
    ensures forall i :: 0 <= i < |Flow| ==> (Flow[i].mode == Api <==> Flow[i].builder.Some?)
  {
  }

  /** Only `drivingHoursPerDay` can be repeated, going back to the first question; only `routePreference` offers options. */
  lemma RepeatAndOptions()
    ensures forall i :: 0 <= i < |Flow| ==> (Flow[i].repeatPrompt.Some? <==> i == 3)
    ensures forall i :: 0 <= i < |Flow| ==> (Flow[i].repeatIndex.Some? <==> i == 3)
    ensures Flow[3].repeatIndex == Some(0)
    ensures forall i :: 0 <= i < |Flow| ==> (Flow[i].options.Some? <==> i == 4)
    ensures Flow[4].options == Some(["Yes", "No"])
  {
  }

  // ---------------------------------------------------------------------
  // buildPayload

  /** The answers collected so far, by storage key. */
  type Answers = map<string, string>

  /** `s || 'unknown'` for a string. */
  function OrUnknown(s: string): (r: string)
    ensures r != ""
    ensures s != "" ==> r == s
    ensures s == "" ==> r == "unknown"
  {
    if s == "" then "unknown" else s
  }

  /** `answers[key] || 'unknown'`: a missing and an empty answer both read as `unknown`. */
  function AnswerOf(answers: Answers, key: string): (r: string)
    ensures key in answers && answers[key] != "" ==> r == answers[key]
    ensures !(key in answers && answers[key] != "") ==> r == "unknown"
  {
    OrUnknown(if key in answers then answers[key] else "")
  }

  /** The closing line of the `/init` query. */
  const NotesLine: string :=
    "Please provide any " + "additional notes " + "or context that " + "would help in " + "planning this route."

  /** The four template lines of each query. */
  function QueryLines(b: Builder, answers: Answers, currentAnswer: string): (lines: seq<string>)
    ensures |lines| == 4
  {
    var from, to, duration := AnswerOf(answers, "from"), AnswerOf(answers, "to"), AnswerOf(answers, "duration");
    match b
    case InitQuery =>
      [ "I am planning a road trip from " + from + " to " + to + ".",
        "The trip will last " + duration + " days,",
        "and I plan to drive about " + OrUnknown(currentAnswer) + " hours each day.",
        NotesLine ]
    case UtilityQuery =>
      [ "I am planning a road trip from " + from + " to " + to + ".",
        "The trip will last " + duration + " days after " + duration + " days I must arrive at " + to + ",",
        "and I plan to drive about " + AnswerOf(answers, "drivingHoursPerDay") + " hours each day.",
        "Regarding hurry: " + OrUnknown(currentAnswer) + "." ]
  }

  /** The object `buildPayload` returns. */
  datatype Payload = Payload(query: string, history: Value, questionId: string, answers: Answers)

  /** `buildPayload({ answers, currentAnswer, history })`. */
  function BuildPayload(b: Builder, answers: Answers, currentAnswer: string, history: Value): (p: Payload)
    ensures p.history == history && p.answers == answers
    ensures p.questionId == "notes"
  {
    Payload(Join(QueryLines(b, answers, currentAnswer), "\n"), history, "notes", answers)
  }

  /** No answer holds a line break. */
  predicate SingleLine(answers: Answers, currentAnswer: string) {
    '\n' !in currentAnswer && forall k :: k in answers ==> '\n' !in answers[k]
  }

  /** The template text itself holds no line break. */
  lemma NotesLineSingle()
    ensures '\n' !in NotesLine
  {
    assert '\n' !in "Please provide any ";
    assert '\n' !in "additional notes ";
    assert '\n' !in "or context that ";
    assert '\n' !in "would help in ";
    assert '\n' !in "planning this route.";
  }

  /** A line break in a query line can only come from an answer: one lemma per kind of line. */
  lemma {:induction false} TripLineSingle(from: string, to: string)
    requires '\n' !in from && '\n' !in to
    ensures '\n' !in "I am planning a road trip from " + from + " to " + to + "."
  {
  }

  lemma {:induction false} DurationLineSingle(duration: string)
    requires '\n' !in duration
    ensures '\n' !in "The trip will last " + duration + " days,"
  {
  }

  lemma {:induction false} ArrivalLineSingle(duration: string, to: string)
    requires '\n' !in duration && '\n' !in to
    ensures '\n' !in "The trip will last " + duration + " days after " + duration + " days I must arrive at " + to + ","
  {
  }

  lemma {:induction false} HoursLineSingle(hours: string)
    requires '\n' !in hours
    ensures '\n' !in "and I plan to drive about " + hours + " hours each day."
  {
  }

  lemma {:induction false} HurryLineSingle(preference: string)
    requires '\n' !in preference
    ensures '\n' !in "Regarding hurry: " + preference + "."
  {
  }

  lemma {:induction false} LinesSingle(b: Builder, answers: Answers, currentAnswer: string)
    requires SingleLine(answers, currentAnswer)
    ensures forall k :: 0 <= k < 4 ==> '\n' !in QueryLines(b, answers, currentAnswer)[k]
  {
    var from, to, duration := AnswerOf(answers, "from"), AnswerOf(answers, "to"), AnswerOf(answers, "duration");
    var hours := AnswerOf(answers, "drivingHoursPerDay");
    var current := OrUnknown(currentAnswer);
    assert '\n' !in from && '\n' !in to && '\n' !in duration && '\n' !in hours && '\n' !in current;
    TripLineSingle(from, to);
    if b == InitQuery {
      DurationLineSingle(duration);
      HoursLineSingle(current);
      NotesLineSingle();
    } else {
      ArrivalLineSingle(duration, to);
      HoursLineSingle(hours);
      HurryLineSingle(current);
    }
  }

  /** When no answer holds a line break, the query splits back into exactly its four template lines. */
  lemma {:induction false} QueryHasFourLines(b: Builder, answers: Answers, currentAnswer: string, history: Value)
    requires SingleLine(answers, currentAnswer)
    ensures Split(BuildPayload(b, answers, currentAnswer, history).query, "\n") == QueryLines(b, answers, currentAnswer)
  {
    LinesSingle(b, answers, currentAnswer);
    SplitJoinChar(QueryLines(b, answers, currentAnswer), '\n');
  }

  /** The keys each query reads from `answers`. */
  function UsedKeys(b: Builder): set<string> {
    match b
    case InitQuery => {"from", "to", "duration"}
    case UtilityQuery => {"from", "to", "duration", "drivingHoursPerDay"}
  }

  /** The query depends on the answers only through the keys it reads. */
  lemma {:induction false} QueryReadsOnlyUsedKeys(b: Builder, a1: Answers, a2: Answers, currentAnswer: string, history: Value)
    requires forall k :: k in UsedKeys(b) ==> AnswerOf(a1, k) == AnswerOf(a2, k)
    ensures BuildPayload(b, a1, currentAnswer, history).query == BuildPayload(b, a2, currentAnswer, history).query
  {
    assert AnswerOf(a1, "from") == AnswerOf(a2, "from");
    assert AnswerOf(a1, "to") == AnswerOf(a2, "to");
    assert AnswerOf(a1, "duration") == AnswerOf(a2, "duration");
    if b == UtilityQuery {
      assert AnswerOf(a1, "drivingHoursPerDay") == AnswerOf(a2, "drivingHoursPerDay");
    }
  }

  /** An empty answer builds the same query as a missing one. */
  lemma {:induction false} EmptyAnswerIsMissing(b: Builder, answers: Answers, key: string, currentAnswer: string, history: Value)
    ensures BuildPayload(b, answers[key := ""], currentAnswer, history).query
      == BuildPayload(b, answers - {key}, currentAnswer, history).query
  {
    forall k | k in UsedKeys(b)
      ensures AnswerOf(answers[key := ""], k) == AnswerOf(answers - {key}, k)
    {
    }
    QueryReadsOnlyUsedKeys(b, answers[key := ""], answers - {key}, currentAnswer, history);
  }

  // ---------------------------------------------------------------------
  // parseResponse

  /** The object `parseResponse` returns. */
  datatype Response = Response(answer: Value, continueFlow: bool)

  /** `parseResponse(data)`, the same for both API questions. */
  function ParseResponse(data: Object): (r: Response)
    ensures Truthy(r.answer)
    ensures Truthy(Get(data, "answer")) ==> r.answer == Get(data, "answer")
    ensures !Truthy(Get(data, "answer")) && Truthy(Get(data, "message")) ==> r.answer == Get(data, "message")
    ensures !Truthy(Get(data, "answer")) && !Truthy(Get(data, "message")) ==> r.answer == Str("No answer returned.")
    ensures !r.continueFlow <==> "continue" in data && data["continue"] == Bool(false)
  {
    Response(Or(Or(Get(data, "answer"), Get(data, "message")), Str("No answer returned.")),
      Get(data, "continue") != Bool(false))
  }

  /** Only the boolean `false` stops the flow: a missing flag, `null` or `0` lets it go on. */
  lemma {:induction false} OnlyFalseStops(data: Object)
    requires "continue" !in data || data["continue"] in {Null, Num(0), Undefined, Str("")}
    ensures ParseResponse(data).continueFlow
  {
  }
}
