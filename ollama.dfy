/**
 * The wire shapes of the chat call to the inference server (src/ollama.rs)
 * and the conversion of a stored message into the server's message shape.
 */
module Ollama {
  import opened Models

  datatype OllamaMessage = OllamaMessage(role: Role, content: string)

  /** Body of the chat request. */
  datatype ChatParams = ChatParams(model: string, messages: seq<OllamaMessage>, stream: bool)

  /** One non-streamed reply. */
  datatype ChatResponse = ChatResponse(message: OllamaMessage)

  /** One decoded item of a streamed reply. */
  datatype ChatResponseStream = ChatResponseStream(message: OllamaMessage, done: bool)

  predicate RolesKnown(ms: seq<Message>)
  {
    forall i :: 0 <= i < |ms| ==> IsRoleName(ms[i].role)
  }

  /** `impl From<Message> for OllamaMessage`: the role string is parsed with
      `Role::from`, which panics on an unknown name; the content is moved
      over unchanged. */
  function FromMessage(m: Message): (o: OllamaMessage)
    requires IsRoleName(m.role)
    ensures o.content == m.content
    ensures RoleName(o.role) == Lower(m.role)
  {
    OllamaMessage(RoleFromStr(m.role), m.content)
  }

  /** `messages.into_iter().map(|m| m.into()).collect()`. */
  function FromMessages(ms: seq<Message>): (os: seq<OllamaMessage>)
    requires RolesKnown(ms)
    ensures |os| == |ms|
    ensures forall i :: 0 <= i < |ms| ==> os[i] == FromMessage(ms[i])
  {
    if ms == [] then [] else [FromMessage(ms[0])] + FromMessages(ms[1..])
  }

  /** Messages made by `Message::user` and `Message::assistant` convert to
      the `User` and `Assistant` roles. */
  lemma ConstructedMessagesConvert(content: string, conversationId: Uuid, id: Uuid, createdAt: Timestamp)
    ensures FromMessage(UserMessage(content, conversationId, id, createdAt)) == OllamaMessage(User, content)
    ensures FromMessage(AssistantMessage(content, conversationId, id, createdAt)) == OllamaMessage(Assistant, content)
  {
  }

  /** Converting a list made of two parts converts each part in place. */
  lemma {:induction false} FromMessagesAppend(a: seq<Message>, b: seq<Message>)
    requires RolesKnown(a) && RolesKnown(b)
    ensures RolesKnown(a + b)
    ensures FromMessages(a + b) == FromMessages(a) + FromMessages(b)
  {
    assert forall i :: 0 <= i < |a + b| ==> (a + b)[i] == if i < |a| then a[i] else b[i - |a|];
  }
}
