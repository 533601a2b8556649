/**
 * The registration conversation: a three-step form (name, age, phone number)
 * driven by the handlers of the start module, with a per-conversation state
 * cursor, a scratch map for the answers, and the `users` table that the last
 * step commits to.
 *
 * The pure part states what one inbound message does to the conversation
 * (`Dispatch` and the per-handler steps); the class `Registration` holds the
 * same state in fields and its methods, which update it step by step the way
 * the handlers do, are proved to agree with the pure part.
 */
module StartHandlers {
  import opened Base
  import opened Telegram
  import opened Models
  import opened Inputs
  import opened DispatcherFilters
  import opened Middlewares
  import RC = ResourceContext
  import CT = ContextTexts

  /** The states of the form, in order, and the unset state outside it. */
  datatype FormState = Unset | Name | Age | PhoneNumber

  /**
   * `Register.next()`: the state after the current one. From unset it enters
   * the first state; after the last it leaves the form.
   */
  function NextState(s: FormState): (t: FormState)
    ensures s == Name ==> t == Age
    ensures s == Age ==> t == PhoneNumber
  {
    match s
    case Unset => Name
    case Name => Age
    case Age => PhoneNumber
    case PhoneNumber => Unset
  }

  /** A scratch answer: a text (the name) or a number (the age). */
  datatype Field = Text(text: string) | Number(number: int)

  /** One conversation's state and scratch answers, with the shared `users` table. */
  datatype Form = Form(state: FormState, data: map<string, Field>, users: map<int, User>)

  /**
   * A reply: the key of a text shared by all languages, or the key of a text
   * in the language of the conversation.
   */
  datatype Reply = Shared(key: string) | InLanguage(key: string, language: string)

  /**
   * The caller's values a reply template can name. The handlers' templates
   * use one attribute path of the handler's `msg`: the sender's first name.
   */
  function HandlerLocals(msg: Message): map<string, string>
  {
    map[CT.FirstNameField := msg.from.firstName]
  }

  /**
   * The text a reply sends, read through the resource context with the
   * handler's values: `context.<key>` for a shared text,
   * `context[language].<key>` for a localized one.
   */
  function ReplyText(r: Reply, msg: Message): Result<string, RC.FormatError>
  {
    match r
    case Shared(key) => RC.GetAttr(CT.ModuleTable(), key, HandlerLocals(msg))
    case InLanguage(key, language) => CT.Localized(language, key, HandlerLocals(msg))
  }

  /** What one message does: the form afterwards and the replies sent, in order. */
  datatype Outcome = Outcome(form: Form, replies: seq<Reply>)

  /** The scratch answers the last step reads: a text name and a numeric age. */
  predicate Filled(data: map<string, Field>)
  {
    "name" in data && data["name"].Text? && "age" in data && data["age"].Number?
  }

  /**
   * What the form guarantees between messages: an answer is present once the
   * step that asks the next question is reached, an accepted age is in range,
   * and the table holds valid rows.
   */
  ghost predicate FormValid(f: Form)
  {
    && TableValid(f.users)
    && (f.state == Age ==> "name" in f.data && f.data["name"].Text?)
    && (f.state == PhoneNumber ==> Filled(f.data) && 8 < f.data["age"].number < 100)
  }

  // ---------------------------------------------------------------------------
  // Handler filters and the dispatcher's choice of handler

  /** The registration handlers, in the order they are registered with the dispatcher. */
  datatype Handler = OnStart | OnCancel | OnName | OnAge | OnPhoneNumber

  const Handlers: seq<Handler> := [OnStart, OnCancel, OnName, OnAge, OnPhoneNumber]

  /** The argument names each handler declares. */
  function HandlerArgs(h: Handler): (args: set<string>)
    ensures "language" in args
    ensures "user" in args <==> h == OnStart
  {
    if h == OnStart then {"msg", "user", "language"} else {"msg", "state", "language"}
  }

  /** The characters Python's `str.split()` splits at (`str.isspace`). */
  predicate IsWhitespace(c: char)
  {
    || c == ' ' || '\t' <= c <= '\r' || '\U{1C}' <= c <= '\U{1F}'
    || c == '\U{85}' || c == '\U{A0}' || c == '\U{1680}' || '\U{2000}' <= c <= '\U{200A}'
    || c == '\U{2028}' || c == '\U{2029}' || c == '\U{202F}' || c == '\U{205F}' || c == '\U{3000}'
  }

  /** The text without its leading whitespace. */
  function TrimStart(text: string): (r: string)
    ensures |r| <= |text| && r == text[|text| - |r|..]
    ensures r == [] || !IsWhitespace(r[0])
    ensures forall i | 0 <= i < |text| - |r| :: IsWhitespace(text[i])
  {
    if text != [] && IsWhitespace(text[0]) then TrimStart(text[1..]) else text
  }

  /** The text up to its first whitespace. */
  function LeadingWord(text: string): (w: string)
    ensures |w| <= |text| && w == text[..|w|]
    ensures forall i | 0 <= i < |w| :: !IsWhitespace(w[i])
    ensures |w| == |text| || IsWhitespace(text[|w|])
  {
    if text == [] || IsWhitespace(text[0]) then [] else [text[0]] + LeadingWord(text[1..])
  }

  /**
   * `text.split()[0]`: the first whitespace-separated word. It is empty
   * exactly when the text is all whitespace, where Python's indexing raises.
   */
  function FirstWord(text: string): (w: string)
    ensures w == [] <==> forall i | 0 <= i < |text| :: IsWhitespace(text[i])
  {
    LeadingWord(TrimStart(text))
  }

  /** `s.partition('@')[0]`: the text before the first `@`. */
  function BeforeAt(s: string): (b: string)
    ensures |b| <= |s| && b == s[..|b|]
    ensures '@' !in b
    ensures |b| == |s| || s[|b|] == '@'
  {
    if s == [] || s[0] == '@' then [] else [s[0]] + BeforeAt(s[1..])
  }

  /** `s.partition('@')[2]`: the text after the first `@`, empty when there is none. */
  function AfterAt(s: string): string
  {
    var b := BeforeAt(s);
    if |b| == |s| then [] else s[|b| + 1..]
  }

  /** ASCII lower-casing, as `str.lower()` does on letters A to Z. */
  function Lower(s: string): (r: string)
    ensures |r| == |s|
    ensures forall i | 0 <= i < |s| :: r[i] == (if 'A' <= s[i] <= 'Z' then (s[i] as int + 32) as char else s[i])
  {
    if s == [] then []
    else [if 'A' <= s[0] <= 'Z' then (s[0] as int + 32) as char else s[0]] + Lower(s[1..])
  }

  /**
   * The start command, as aiogram's command filter reads the first word: a
   * `/` prefix, then `start` in any letter case, then optionally `@` and a
   * mention, which must name this bot (in any case) when it is not empty.
   * Whatever follows the first word is a payload and is ignored.
   */
  predicate IsStartCommand(text: string, botUsername: string)
  {
    var word := FirstWord(text);
    && word != [] && word[0] == '/'
    && Lower(BeforeAt(word[1..])) == "start"
    && (AfterAt(word[1..]) == [] || Lower(AfterAt(word[1..])) == Lower(botUsername))
  }

  /** The cancel button, in either language. */
  predicate IsCancelButton(text: string)
  {
    ContextButton(text, "cancel", ["en", "fa"])
  }

  predicate InPrivateChat(msg: Message)
  {
    Holds(IsPrivate(MessageUpdate(msg)))
  }

  /** What the handler filters read from a message, besides the state. */
  datatype Signals = Signals(privateChat: bool, startCommand: bool, cancelButton: bool)

  function SignalsOf(msg: Message, botUsername: string): Signals
  {
    Signals(InPrivateChat(msg), IsStartCommand(msg.text, botUsername), IsCancelButton(msg.text))
  }

  /**
   * The filters of each handler. A handler registered without a state filter
   * (start) only runs while no state is set; cancel runs in any state of the
   * form; the others run in their own state.
   */
  predicate Matches(h: Handler, state: FormState, sig: Signals)
  {
    sig.privateChat &&
    match h
    case OnStart => sig.startCommand && state == Unset
    case OnCancel => sig.cancelButton && state != Unset
    case OnName => state == Name
    case OnAge => state == Age
    case OnPhoneNumber => state == PhoneNumber
  }

  /** The first handler of `hs` whose filters pass, as the dispatcher tries them in order. */
  function FirstMatch(hs: seq<Handler>, state: FormState, sig: Signals): (r: Option<Handler>)
    ensures r.None? <==> forall h | h in hs :: !Matches(h, state, sig)
    ensures r.Some? ==> r.value in hs && Matches(r.value, state, sig)
  {
    if hs == [] then None
    else if Matches(hs[0], state, sig) then Some(hs[0])
    else
      var r := FirstMatch(hs[1..], state, sig);
      assert forall h | h in hs :: h == hs[0] || h in hs[1..];
      r
  }

  lemma FirstMatchCons(h: Handler, rest: seq<Handler>, state: FormState, sig: Signals)
    ensures FirstMatch([h] + rest, state, sig)
         == if Matches(h, state, sig) then Some(h) else FirstMatch(rest, state, sig)
  {
    assert ([h] + rest)[0] == h;
    assert ([h] + rest)[1..] == rest;
  }

  function SelectHandler(state: FormState, msg: Message, botUsername: string): Option<Handler>
  {
    FirstMatch(Handlers, state, SignalsOf(msg, botUsername))
  }

  // ---------------------------------------------------------------------------
  // The handlers, as functions of the form

  /**
   * `start`: a registered sender is told so and nothing changes; otherwise
   * the welcome text and the name question are sent and the form enters its
   * first state.
   */
  function StartStep(f: Form, user: Option<User>, language: string): Outcome
  {
    if user.Some? then Outcome(f, [InLanguage("already_registered", language)])
    else Outcome(f.(state := Name), [Shared("welcome"), InLanguage("ask_name", language)])
  }

  /** `cancel`: finishes the form, dropping the state and every answer. */
  function CancelStep(f: Form, language: string): Outcome
  {
    Outcome(f.(state := Unset, data := map[]), [InLanguage("register_canceled", language)])
  }

  /** `enter_name`: stores the text as the name, unvalidated, and moves on. */
  function NameStep(f: Form, text: string, language: string): Outcome
  {
    Outcome(f.(data := f.data["name" := Text(text)], state := NextState(f.state)), [InLanguage("ask_age", language)])
  }

  /** `enter_age`: stores a valid age and moves on; an invalid one changes nothing. */
  function AgeStep(f: Form, text: string, language: string): Outcome
  {
    match ParseAge(text)
    case None => Outcome(f, [InLanguage("invalid_input", language)])
    case Some(age) =>
      Outcome(f.(data := f.data["age" := Number(age)], state := NextState(f.state)), [InLanguage("ask_phone_number", language)])
  }

  /** The row the last step builds for `sender`. */
  function NewUser(sender: Sender, name: string, age: int, phoneNumber: int): (u: User)
    ensures u.id == sender.id && u.username == sender.username && !u.blocked && !u.deactived
  {
    User(sender.id, name, age, phoneNumber, sender.username, false, false)
  }

  /**
   * `enter_phone_number`: an invalid number changes nothing. A valid one
   * finishes the form first, then commits the new row: on success the row is
   * in the table, on failure the session is rolled back and the table is as
   * it was. Either way the answers are gone.
   */
  function PhoneStep(f: Form, text: string, sender: Sender, language: string, available: bool): Outcome
    requires Filled(f.data)
  {
    match ParsePhone(text)
    case None => Outcome(f, [InLanguage("invalid_input", language)])
    case Some(phone) =>
      var u := NewUser(sender, f.data["name"].text, f.data["age"].number, phone);
      var finished := f.(state := Unset, data := map[]);
      if CommitSucceeds(f.users, map[u.id := u], available) then
        Outcome(finished.(users := f.users[u.id := u]), [InLanguage("user_registered", language)])
      else
        Outcome(finished, [InLanguage("error_occurred", language)])
  }

  /**
   * What handler `h` does to the form, with the `user` and `language` the
   * middleware resolves for the sender. The dispatcher only runs the last
   * step in its own state, where the answers it reads are present.
   */
  function RunStep(h: Handler, f: Form, msg: Message, available: bool): Outcome
    requires FormValid(f) && (h == OnPhoneNumber ==> f.state == PhoneNumber)
  {
    var language := GetLanguage(msg.from);
    match h
    case OnStart => StartStep(f, GetUser(f.users, msg.from), language)
    case OnCancel => CancelStep(f, language)
    case OnName => NameStep(f, msg.text, language)
    case OnAge => AgeStep(f, msg.text, language)
    case OnPhoneNumber => PhoneStep(f, msg.text, msg.from, language, available)
  }

  /**
   * One inbound message: the dispatcher picks the handler, the middleware
   * resolves the `user` and `language` it declares, and the handler runs.
   * When no handler matches nothing happens.
   */
  function Dispatch(f: Form, msg: Message, botUsername: string, available: bool): Outcome
    requires FormValid(f)
  {
    match SelectHandler(f.state, msg, botUsername)
    case None => Outcome(f, [])
    case Some(h) => RunStep(h, f, msg, available)
  }
}
