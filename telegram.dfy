/**
 * The parts of the messaging platform's update objects that the bot core reads:
 * the sender, the chat and its kind, the text of a message, and the message a
 * pressed button (a callback query) is attached to.
 */
module Telegram {
  import opened Base

  /** The chat kinds the platform reports. */
  datatype ChatType = Private | Group | Supergroup | Channel

  datatype Chat = Chat(id: int, chatType: ChatType)

  /** The sender of an update (`from_user`). */
  datatype Sender = Sender(id: int, firstName: string, username: Option<string>, languageCode: Option<string>)

  /** A text message. */
  datatype Message = Message(from: Sender, chat: Chat, text: string)

  /**
   * A pressed inline button, attached to the message that carried it. A
   * button of a message sent in inline mode has no attached message.
   */
  datatype CallbackQuery = CallbackQuery(from: Sender, message: Option<Message>)

  /**
   * One inbound update: a message, a callback query, or any other kind of
   * update (inline query, poll, ...), which may or may not carry a sender.
   */
  datatype Update =
    | MessageUpdate(message: Message)
    | CallbackQueryUpdate(query: CallbackQuery)
    | OtherUpdate(sender: Option<Sender>)

  /** The update's `from_user`, when it has one. */
  function SenderOf(u: Update): (r: Option<Sender>)
    ensures r.None? <==> u.OtherUpdate? && u.sender.None?
  {
    match u
    case MessageUpdate(m) => Some(m.from)
    case CallbackQueryUpdate(q) => Some(q.from)
    case OtherUpdate(s) => s
  }
}
