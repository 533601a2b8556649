/**
 * The text object the handlers of the start module hold under the name
 * `context`: the text module itself (bot.py:244), not the `Context` wrapper,
 * which is bound to `text` (bot.py:245). Reading `context.welcome` gives the
 * raw text; subscripting the module with a language code raises TypeError,
 * and the handler stops there.
 *
 * The rest of the model reads localized replies the way the handlers mean
 * to: the language's table, read through the wrapper (`ReplyText`).
 */
module HandlerContext {
  import opened Base
  import opened Telegram
  import opened Models
  import opened Middlewares
  import opened StartHandlers
  import opened StartProperties
  import RC = ResourceContext
  import CT = ContextTexts

  /** Why reading a reply's text off the module raises. */
  datatype ReadError =
    | NotSubscriptable     // TypeError: `context[language]` indexes a module
    | NotText(key: string) // the module has no text under this name

  /** A reply's text as written: `context.<key>` on the module, or `context[language].<key>`. */
  function ReplyTextAsWritten(r: Reply): Result<string, ReadError>
  {
    match r
    case InLanguage(_, _) => Err(NotSubscriptable)
    case Shared(key) =>
      if key in CT.ModuleTable() && CT.ModuleTable()[key].Str? then Ok(CT.ModuleTable()[key].s)
      else Err(NotText(key))
  }

  /**
   * The texts that reach the sender when the replies are sent in order: every
   * one before the first whose text raises, which ends the handler.
   */
  function SentAsWritten(replies: seq<Reply>): (sent: seq<string>)
    ensures |sent| <= |replies|
    ensures forall i | 0 <= i < |sent| :: ReplyTextAsWritten(replies[i]) == Ok(sent[i])
    ensures |sent| < |replies| ==> ReplyTextAsWritten(replies[|sent|]).Err?
  {
    if replies == [] then []
    else
      match ReplyTextAsWritten(replies[0])
      case Err(_) => []
      case Ok(t) =>
        var rest := SentAsWritten(replies[1..]);
        assert forall i | 1 <= i < |rest| + 1 :: replies[i] == replies[1..][i - 1];
        [t] + rest
  }

  /** A reply list that opens with a localized reply sends nothing as written. */
  lemma LocalizedFirstSendsNothing(replies: seq<Reply>)
    requires |replies| > 0 && replies[0].InLanguage?
    ensures SentAsWritten(replies) == []
  {
  }

  /**
   * As written, a handler sends at most the welcome text: it is the only
   * text that reaches anyone, and only `/start` from an unregistered sender
   * sends it.
   */
  lemma StepSendsAsWritten(h: Handler, f: Form, msg: Message, available: bool)
    requires FormValid(f) && (h == OnPhoneNumber ==> f.state == PhoneNumber)
    ensures SentAsWritten(RunStep(h, f, msg, available).replies)
         == if h == OnStart && msg.from.id !in f.users then [CT.WelcomeText] else []
  {
    var replies := RunStep(h, f, msg, available).replies;
    if h == OnStart && msg.from.id !in f.users {
      var tail := [InLanguage("ask_name", GetLanguage(msg.from))];
      assert replies == [Shared("welcome")] + tail;
      assert CT.ModuleTable()["welcome"] == RC.Str(CT.WelcomeText);
      assert replies[1..] == tail;
      LocalizedFirstSendsNothing(tail);
    } else {
      LocalizedFirstSendsNothing(replies);
    }
  }

  /** The same for one dispatched message. */
  lemma DispatchSendsAsWritten(f: Form, msg: Message, botUsername: string, available: bool)
    requires FormValid(f)
    ensures SentAsWritten(Dispatch(f, msg, botUsername, available).replies)
         == if SelectHandler(f.state, msg, botUsername) == Some(OnStart) && msg.from.id !in f.users
            then [CT.WelcomeText] else []
  {
    var r := SelectHandler(f.state, msg, botUsername);
    if r.Some? {
      SelectedInItsState(f.state, msg, botUsername);
      StepSendsAsWritten(r.value, f, msg, available);
    }
  }

  /**
   * `/start` from a registered sender: as written the greeting raises
   * TypeError and nothing is sent, while the greeting read through the
   * wrapper renders with the sender's first name.
   */
  lemma RegisteredStartAsWritten(f: Form, msg: Message, botUsername: string, available: bool)
    requires FormValid(f) && f.state == Unset && InPrivateChat(msg) && IsStartCommand(msg.text, botUsername)
    requires msg.from.id in f.users
    ensures var o := Dispatch(f, msg, botUsername, available);
      && |o.replies| == 1
      && ReplyTextAsWritten(o.replies[0]) == Err(NotSubscriptable)
      && SentAsWritten(o.replies) == []
      && ReplyText(o.replies[0], msg).Ok?
  {
    AlreadyRegisteredGreets(f, msg, botUsername, available);
  }
}
