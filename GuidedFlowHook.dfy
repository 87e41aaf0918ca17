/**
 * useGuidedFlow.js: the state of the guided conversation. React state
 * (`guidedMode`, `currentQuestionIndex`, `guidedAnswers`), the ref
 * `guidedAnswersRef` and the caller's message list become fields; a state
 * update takes effect at once, and the effect that copies the answers into
 * the ref is the invariant that the two agree.
 */
module GuidedFlowHook {
  import opened Wrappers
  import opened JsValues
  import opened MessageUtils
  import opened GuidedFlow
  import opened ChatWindow

  const WelcomeText: string := "Hi! I am your Road Trip assistant. I will guide you through a few questions."

  /** `{ id, role: 'assistant', text }`. */
  function AssistantMessage(id: string, text: string): (m: Message)
    ensures m.Keys == {"id", "role", "text"}
    ensures IsAssistant(m)
    ensures Get(m, "id") == Str(id) && Get(m, "text") == Str(text)
  {
    map["id" := Str(id), "role" := Str("assistant"), "text" := Str(text)]
  }

  /** The id of a prompt: `g-${question.id}-${stamp}`. */
  function PromptId(q: Question, stamp: string): string {
    "g-" + q.id + "-" + stamp
  }

  /** What initialization puts in the message list: the welcome, then the first prompt if there is a question. */
  function InitialMessages(flow: seq<Question>): (ms: seq<Message>)
    ensures |ms| == if flow == [] then 1 else 2
    ensures ms[0] == AssistantMessage("welcome", WelcomeText)
    ensures flow != [] ==> ms[1] == AssistantMessage(PromptId(flow[0], "0"), flow[0].prompt)
  {
    var welcome := AssistantMessage("welcome", WelcomeText);
    if flow == [] then [welcome]
    else [welcome, AssistantMessage(PromptId(flow[0], "0"), flow[0].prompt)]
  }

  /** `repeat && question.repeatPrompt ? question.repeatPrompt : question.prompt`. */
  function PromptText(q: Question, repeat: bool): string {
    if repeat && q.repeatPrompt.Some? && q.repeatPrompt.value != "" then q.repeatPrompt.value else q.prompt
  }

  /** For the guided flow, asking again changes the text exactly for `drivingHoursPerDay`. */
  lemma {:induction false} RepeatChangesOnlyHours(i: nat)
    requires i < |Flow|
    ensures PromptText(Flow[i], false) == Flow[i].prompt
    ensures PromptText(Flow[i], true) != Flow[i].prompt <==> Flow[i].id == "drivingHoursPerDay"
  {
    if i == 3 {
      assert |Flow[i].repeatPrompt.value| != |Flow[i].prompt|;
    }
  }

  /** With the guided flow, initialization shows the welcome and asks for the starting location. */
  lemma InitialMessagesOfFlow()
    ensures InitialMessages(Flow) == [
      AssistantMessage("welcome", WelcomeText),
      AssistantMessage("g-from-0", "Where is the starting location for your route?") ]
  {
    assert PromptId(Flow[0], "0") == "g-from-0";
  }

  /** A freshly asked question is the one that offers Retry. */
  lemma {:induction false} PromptIsLatestAssistant(messages: seq<Message>, q: Question, repeat: bool, stamp: string)
    ensures LatestAssistantIdOf(AddMessage(messages, AssistantMessage(PromptId(q, stamp), PromptText(q, repeat))))
      == Str(PromptId(q, stamp))
  {
    var ms := AddMessage(messages, AssistantMessage(PromptId(q, stamp), PromptText(q, repeat)));
    LatestIsLastAssistant(ms, |messages|);
  }

  class GuidedFlowState {
    /** `GUIDED_FLOW`, a parameter so that an empty table can be considered too. */
    const flow: seq<Question>
    var guidedMode: bool
    var currentQuestionIndex: int
    var guidedAnswers: Answers
    /** `guidedAnswersRef.current`. */
    var answersRef: Answers
    /** The message list owned by the caller and updated through `setMessages`. */
    var messages: seq<Message>

    /** The ref holds the answers state; the index is a position in the flow or just past it. */
    predicate Valid()
      reads this
    {
      answersRef == guidedAnswers && 0 <= currentQuestionIndex <= |flow|
    }

    /** The hook's initial state, next to the caller's initial messages. */
    constructor (flow: seq<Question>, messages: seq<Message>)
      ensures Valid()
      ensures this.flow == flow && this.messages == messages
      ensures !guidedMode && currentQuestionIndex == 0 && guidedAnswers == map[]
    {
      this.flow := flow;
      guidedMode := false;
      currentQuestionIndex := 0;
      guidedAnswers := map[];
      answersRef := map[];
      this.messages := messages;
    }

    /** The effect that runs when `authenticated` changes. */
    method Initialize(authenticated: bool)
      requires Valid()
      modifies this
      ensures Valid()
      ensures !authenticated ==> unchanged(this)
      ensures authenticated ==> messages == InitialMessages(flow)
      ensures authenticated ==> (guidedMode <==> flow != [])
      ensures authenticated ==> currentQuestionIndex == 0 && guidedAnswers == map[] && answersRef == map[]
    {
      if !authenticated {
        return;
      }
      var initialMessages := [AssistantMessage("welcome", WelcomeText)];
      if flow != [] {
        var first := flow[0];
        initialMessages := initialMessages + [AssistantMessage(PromptId(first, "0"), first.prompt)];
        guidedMode := true;
        currentQuestionIndex := 0;
      } else {
        guidedMode := false;
        currentQuestionIndex := 0;
      }
      answersRef := map[];
      guidedAnswers := map[];
      messages := initialMessages;
    }

    /**
     * `finishFlow`. Whether or not a message is marked `guided-complete`,
     * the list keeps its contents, so no completion message is added.
     */
    method FinishFlow()
      requires Valid()
      modifies this
      ensures Valid()
      ensures !guidedMode && currentQuestionIndex == |flow|
      ensures messages == old(messages)
      ensures guidedAnswers == old(guidedAnswers) && answersRef == old(answersRef)
    {
      guidedMode := false;
      currentQuestionIndex := |flow|;
      messages := messages[..];
    }

    /** `promptQuestion(index, { repeat })`; `stamp` stands for `Date.now()`. */
    method PromptQuestion(index: int, repeat: bool, stamp: string)
      requires Valid()
      modifies this
      ensures Valid()
      ensures !(0 <= index < |flow|) ==>
        !guidedMode && currentQuestionIndex == |flow| && messages == old(messages)
      ensures 0 <= index < |flow| ==>
        guidedMode && currentQuestionIndex == index && currentQuestionIndex < |flow| &&
        messages == AddMessage(old(messages), AssistantMessage(PromptId(flow[index], stamp), PromptText(flow[index], repeat)))
      ensures guidedAnswers == old(guidedAnswers) && answersRef == old(answersRef)
    {
      if !(0 <= index < |flow|) {
        FinishFlow();
        return;
      }
      var question := flow[index];
      var text := if repeat && question.repeatPrompt.Some? && question.repeatPrompt.value != ""
        then question.repeatPrompt.value else question.prompt;
      messages := messages + [AssistantMessage("g-" + question.id + "-" + stamp, text)];
      guidedMode := true;
      currentQuestionIndex := index;
    }

    /** `storeGuidedAnswer(key, value)`: an empty key stores nothing. */
    method StoreGuidedAnswer(key: string, value: string) returns (answers: Answers)
      requires Valid()
      modifies this
      ensures Valid()
      ensures key == "" ==> answers == old(answersRef) && guidedAnswers == old(guidedAnswers)
      ensures key != "" ==> answers == old(answersRef)[key := value] && guidedAnswers == answers
      ensures guidedMode == old(guidedMode) && currentQuestionIndex == old(currentQuestionIndex)
      ensures messages == old(messages)
    {
      if key == "" {
        return answersRef;
      }
      var next := answersRef[key := value];
      answersRef := next;
      guidedAnswers := next;
      return next;
    }
  }

  /** Storing an answer sets that key and keeps every other. */
  lemma {:induction false} StoredAnswer(answers: Answers, key: string, value: string, other: string)
    requires other != key
    ensures key in answers[key := value] && answers[key := value][key] == value
    ensures other in answers[key := value] <==> other in answers
    ensures other in answers ==> answers[key := value][other] == answers[other]
  {
  }
}
