/**
 * messageUtils.js: chat messages are plain objects with (at least) `id`,
 * `role` and `text`; lists of them are updated without mutation.
 */
module MessageUtils {
  import opened JsValues

  type Message = Object

  /** `${role[0]}`: the first character, or "undefined" for the empty string. */
  function IdPrefix(role: string): (p: string)
    ensures role != [] ==> p == [role[0]]
    ensures role == [] ==> p == "undefined"
  {
    if role == [] then "undefined" else [role[0]]
  }

  /**
   * `createMessage(role, text, extra)`. `unique` stands for the
   * `${Date.now()}-${Math.random()}` part of the id.
   */
  function CreateMessage(role: string, text: string, extra: Object, unique: string): (m: Message)
    ensures m.Keys == {"id", "role", "text"} + extra.Keys
    ensures forall k :: k in extra ==> m[k] == extra[k]
    ensures "id" !in extra ==> m["id"] == Str(IdPrefix(role) + "-" + unique)
    ensures "role" !in extra ==> m["role"] == Str(role)
    ensures "text" !in extra ==> m["text"] == Str(text)
  {
    Spread(map["id" := Str(IdPrefix(role) + "-" + unique), "role" := Str(role), "text" := Str(text)], extra)
  }

  /** Unless `extra` overrides it, the id starts with the role's first character and a dash. */
  lemma {:induction false} IdStartsWithRole(role: string, text: string, extra: Object, unique: string)
    requires role != [] && "id" !in extra
    ensures var id := CreateMessage(role, text, extra, unique)["id"];
      id.Str? && |id.s| >= 2 && id.s[0] == role[0] && id.s[1] == '-'
  {
  }

  /** `addMessage(messages, message)`. */
  function AddMessage(messages: seq<Message>, message: Message): (r: seq<Message>)
    ensures |r| == |messages| + 1
    ensures r[..|messages|] == messages && r[|messages|] == message
  {
    messages + [message]
  }

  /** `updateMessage(messages, messageId, updates)`: every message with that id gets the updates spread over it. */
  function UpdateMessage(messages: seq<Message>, messageId: Value, updates: Object): (r: seq<Message>)
    ensures |r| == |messages|
    ensures forall i :: 0 <= i < |r| && Get(messages[i], "id") != messageId ==> r[i] == messages[i]
    ensures forall i :: 0 <= i < |r| && Get(messages[i], "id") == messageId ==> r[i] == Spread(messages[i], updates)
  {
    seq(|messages|, i requires 0 <= i < |messages| =>
      if Get(messages[i], "id") == messageId then Spread(messages[i], updates) else messages[i])
  }

  /** `replaceMessage(messages, oldId, newMessage)`: every message with that id is replaced by the new one. */
  function ReplaceMessage(messages: seq<Message>, oldId: Value, newMessage: Message): (r: seq<Message>)
    ensures |r| == |messages|
    ensures forall i :: 0 <= i < |r| && Get(messages[i], "id") != oldId ==> r[i] == messages[i]
    ensures forall i :: 0 <= i < |r| && Get(messages[i], "id") == oldId ==> r[i] == newMessage
  {
    seq(|messages|, i requires 0 <= i < |messages| =>
      if Get(messages[i], "id") == oldId then newMessage else messages[i])
  }

  /** No message has the id. */
  predicate Absent(messages: seq<Message>, id: Value) {
    forall i :: 0 <= i < |messages| ==> Get(messages[i], "id") != id
  }

  /** Updating or replacing an id that no message has changes nothing. */
  lemma {:induction false} AbsentIdChangesNothing(messages: seq<Message>, id: Value, updates: Object, newMessage: Message)
    requires Absent(messages, id)
    ensures UpdateMessage(messages, id, updates) == messages
    ensures ReplaceMessage(messages, id, newMessage) == messages
  {
  }

  /**
   * An update keeps the id when it does not set one, so a second update of
   * the same id reaches the same messages, and the two merge into one.
   */
  lemma {:induction false} UpdateTwice(messages: seq<Message>, id: Value, u1: Object, u2: Object)
    requires "id" !in u1
    ensures UpdateMessage(UpdateMessage(messages, id, u1), id, u2) == UpdateMessage(messages, id, Spread(u1, u2))
  {
    var once := UpdateMessage(messages, id, u1);
    var twice := UpdateMessage(once, id, u2);
    var merged := UpdateMessage(messages, id, Spread(u1, u2));
    forall i | 0 <= i < |messages|
      ensures twice[i] == merged[i]
    {
      assert Get(once[i], "id") == Get(messages[i], "id");
      if Get(messages[i], "id") == id {
        SpreadAssociative(messages[i], u1, u2);
      }
    }
  }

  /** Spreading `b` and then `c` over `a` is spreading their merge. */
  lemma {:induction false} SpreadAssociative(a: Object, b: Object, c: Object)
    ensures Spread(Spread(a, b), c) == Spread(a, Spread(b, c))
  {
  }

  /** A message that was just added can be found again by its id: updating it touches the new last entry. */
  lemma {:induction false} UpdateAdded(messages: seq<Message>, message: Message, updates: Object)
    requires Absent(messages, Get(message, "id"))
    ensures UpdateMessage(AddMessage(messages, message), Get(message, "id"), updates)
      == AddMessage(messages, Spread(message, updates))
  {
    var id := Get(message, "id");
    var r := UpdateMessage(AddMessage(messages, message), id, updates);
    AbsentIdChangesNothing(messages, id, updates, message);
    assert r[..|messages|] == messages;
  }

  /** Replacing by a message with the same id and then replacing back restores the list, when the id named one message value. */
  lemma {:induction false} ReplaceBack(messages: seq<Message>, previous: Message, newMessage: Message)
    requires Get(newMessage, "id") == Get(previous, "id")
    requires forall i :: 0 <= i < |messages| && Get(messages[i], "id") == Get(previous, "id") ==> messages[i] == previous
    ensures ReplaceMessage(ReplaceMessage(messages, Get(previous, "id"), newMessage), Get(previous, "id"), previous)
      == messages
  {
  }
}
