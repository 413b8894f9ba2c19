/**
 * The older chat-window message of src/models/message.rs: a flag telling a
 * human turn from an assistant turn, and the text.
 */
module ModelsMessage {

  datatype Message = Message(isHuman: bool, text: string)

  /** `Message::new`. */
  function New(isHuman: bool, text: string): (m: Message)
    ensures m.isHuman == isHuman && m.text == text
  {
    Message(isHuman, text)
  }

  /** `Message::human`. */
  function Human(text: string): (m: Message)
    ensures m.isHuman && m.text == text
  {
    New(true, text)
  }

  /** `Message::assistant`. */
  function Assistant(text: string): (m: Message)
    ensures !m.isHuman && m.text == text
  {
    New(false, text)
  }
}
