/**
 * ChatWindow.jsx: only the last assistant message offers Retry. A backward
 * scan finds its id, and each bubble is flagged when its message has that id.
 */
module ChatWindow {
  import opened JsValues
  import opened MessageUtils

  /** `messages[i].role === 'assistant'`. */
  predicate IsAssistant(m: Message) {
    Get(m, "role") == Str("assistant")
  }

  /** The position of the last assistant message, or -1 when there is none. */
  function LastAssistant(messages: seq<Message>): (k: int)
    ensures -1 <= k < |messages|
    ensures k >= 0 ==> IsAssistant(messages[k])
    ensures forall j :: k < j < |messages| ==> !IsAssistant(messages[j])
  {
    if messages == [] then -1
    else if IsAssistant(messages[|messages| - 1]) then |messages| - 1
    else LastAssistant(messages[..|messages| - 1])
  }

  /** The three properties above pick exactly one position. */
  lemma {:induction false} LastAssistantUnique(messages: seq<Message>, k: int)
    requires -1 <= k < |messages|
    requires k >= 0 ==> IsAssistant(messages[k])
    requires forall j :: k < j < |messages| ==> !IsAssistant(messages[j])
    ensures LastAssistant(messages) == k
  {
  }

  /** What the scan leaves in `latestAssistantId`. */
  function LatestAssistantIdOf(messages: seq<Message>): Value {
    var k := LastAssistant(messages);
    if k < 0 then Null else Get(messages[k], "id")
  }

  /** The backward `for` loop with `break`. */
  method LatestAssistantId(messages: seq<Message>) returns (latest: Value)
    ensures latest == LatestAssistantIdOf(messages)
  {
    latest := Null;
    var i := |messages| - 1;
    while i >= 0
      invariant -1 <= i < |messages|
      invariant forall j :: i < j < |messages| ==> !IsAssistant(messages[j])
      invariant latest == Null
    {
      if Get(messages[i], "role") == Str("assistant") {
        latest := Get(messages[i], "id");
        LastAssistantUnique(messages, i);
        return;
      }
      i := i - 1;
    }
    LastAssistantUnique(messages, -1);
  }

  /** The id of an assistant message that no later assistant message follows. */
  lemma {:induction false} LatestIsLastAssistant(messages: seq<Message>, k: nat)
    requires k < |messages| && IsAssistant(messages[k])
    requires forall j :: k < j < |messages| ==> !IsAssistant(messages[j])
    ensures LatestAssistantIdOf(messages) == Get(messages[k], "id")
  {
    LastAssistantUnique(messages, k);
  }

  /** Without any assistant message the selection is `null`. */
  lemma {:induction false} NoAssistantGivesNull(messages: seq<Message>)
    requires forall j :: 0 <= j < |messages| ==> !IsAssistant(messages[j])
    ensures LatestAssistantIdOf(messages) == Null
  {
    LastAssistantUnique(messages, -1);
  }

  /** What a `ChatBubble` receives. */
  datatype Bubble = Bubble(message: Message, isLatestAssistant: bool)

  /** `messages.map(...)`: one bubble per message, in order. */
  function Bubbles(messages: seq<Message>): (bubbles: seq<Bubble>)
    ensures |bubbles| == |messages|
    ensures forall i :: 0 <= i < |messages| ==> bubbles[i].message == messages[i]
    ensures forall i :: 0 <= i < |messages| ==>
      (bubbles[i].isLatestAssistant <==> Get(messages[i], "id") == LatestAssistantIdOf(messages))
  {
    var latest := LatestAssistantIdOf(messages);
    seq(|messages|, i requires 0 <= i < |messages| =>
      Bubble(messages[i], Get(messages[i], "id") == latest))
  }

  /** No two messages share an id. */
  predicate IdsUnique(messages: seq<Message>) {
    forall i, j :: 0 <= i < j < |messages| ==> Get(messages[i], "id") != Get(messages[j], "id")
  }

  /** With unique ids, the flagged bubble is exactly the last assistant message, if there is one. */
  lemma {:induction false} FlaggedIsLastAssistant(messages: seq<Message>, i: nat)
    requires IdsUnique(messages) && i < |messages|
    requires LastAssistant(messages) >= 0
    ensures Bubbles(messages)[i].isLatestAssistant <==> i == LastAssistant(messages)
  {
    var k := LastAssistant(messages);
    if i < k {
      assert Get(messages[i], "id") != Get(messages[k], "id");
    } else if k < i {
      assert Get(messages[k], "id") != Get(messages[i], "id");
    }
  }

  /** With unique ids at most one bubble is flagged. */
  lemma {:induction false} AtMostOneFlagged(messages: seq<Message>, i: nat, j: nat)
    requires IdsUnique(messages) && i < j < |messages|
    ensures !(Bubbles(messages)[i].isLatestAssistant && Bubbles(messages)[j].isLatestAssistant)
  {
    assert Get(messages[i], "id") != Get(messages[j], "id");
  }

  /** Without assistant messages, and with no message whose id is `null`, no bubble is flagged. */
  lemma {:induction false} NoAssistantNoneFlagged(messages: seq<Message>, i: nat)
    requires forall j :: 0 <= j < |messages| ==> !IsAssistant(messages[j])
    requires forall j :: 0 <= j < |messages| ==> Get(messages[j], "id") != Null
    requires i < |messages|
    ensures !Bubbles(messages)[i].isLatestAssistant
  {
    NoAssistantGivesNull(messages);
  }
}
