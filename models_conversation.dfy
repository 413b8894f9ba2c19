/**
 * The older in-memory conversation of src/models/conversation.rs: a list of
 * `ModelsMessage.Message` values that the UI grows by pushing and rewrites
 * by overwriting the text of the last message while a reply streams in, plus
 * an optional model context of 32-bit integers.
 */
module ModelsConversation {
  import opened Wrappers
  import opened ModelsMessage

  newtype i32 = x: int | -0x8000_0000 <= x < 0x8000_0000

  /** The list after `modify_last_msg(text)`: the last message gets the new
      text, keeps its speaker, and nothing else moves. */
  function WithLastText(ms: seq<Message>, text: string): (r: seq<Message>)
    ensures |r| == |ms|
    ensures forall i :: 0 <= i < |ms| - 1 ==> r[i] == ms[i]
    ensures |ms| > 0 ==> r[|ms| - 1].text == text && r[|ms| - 1].isHuman == ms[|ms| - 1].isHuman
    ensures ms == [] ==> r == []
  {
    if ms == [] then [] else ms[..|ms| - 1] + [ms[|ms| - 1].(text := text)]
  }

  class Conversation {
    var messages: seq<Message>
    var context: Option<seq<i32>>

    /** `Conversation::new`. */
    constructor ()
      ensures messages == [] && context == None
    {
      messages := [];
      context := None;
    }

    /** `append_message`: push onto the end. */
    method AppendMessage(message: Message)
      modifies this
      ensures messages == old(messages) + [message]
      ensures context == old(context)
    {
      messages := messages + [message];
    }

    /** `modify_last_msg`: overwrite the last message's text through
        `last_mut`; on an empty conversation nothing happens. */
    method ModifyLastMsg(newText: string)
      modifies this
      ensures messages == WithLastText(old(messages), newText)
      ensures old(messages) == [] ==> messages == []
      ensures context == old(context)
    {
      if |messages| > 0 {
        var last := |messages| - 1;
        messages := messages[last := messages[last].(text := newText)];
      }
    }

    /** `iter`: the messages, front to back. */
    function Iter(): seq<Message>
      reads this
    {
      messages
    }
  }

  /** A client of the class: whatever was appended is what `iter` yields, in
      the order it was appended, and rewriting the last text keeps that
      order. */
  method IterYieldsInsertionOrder(first: Message, second: Message, newText: string) returns (seen: seq<Message>, rewritten: seq<Message>)
    ensures seen == [first, second]
    ensures rewritten == [first, second.(text := newText)]
  {
    var c := new Conversation();
    c.AppendMessage(first);
    c.AppendMessage(second);
    seen := c.Iter();
    c.ModifyLastMsg(newText);
    rewritten := c.Iter();
  }
}
