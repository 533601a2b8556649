/**
 * What the registration conversation guarantees: the dispatcher's transition
 * table, the effect of each kind of message on the form, and the guarantees
 * every message keeps.
 */
module StartProperties {
  import opened Base
  import opened Telegram
  import opened Models
  import opened Inputs
  import opened DispatcherFilters
  import opened Middlewares
  import opened StartHandlers
  import CT = ContextTexts

  /** A start command's first character after any leading whitespace is `/`. */
  lemma StartCommandSlash(text: string, botUsername: string)
    requires IsStartCommand(text, botUsername)
    ensures TrimStart(text) != [] && TrimStart(text)[0] == '/'
  {
    var t := TrimStart(text);
    var w := LeadingWord(t);
    assert w[0] == '/';
    assert t[..|w|][0] == t[0];
  }

  /** Neither cancel text is a start command. */
  lemma CancelIsNotStart(text: string, botUsername: string)
    requires IsCancelButton(text)
    ensures !IsStartCommand(text, botUsername)
  {
    CancelButtonTexts(text);
    if IsStartCommand(text, botUsername) {
      StartCommandSlash(text, botUsername);
      assert false;
    }
  }

  /** The first word of a word followed by whitespace, or by nothing, is that word. */
  lemma {:induction false} LeadingWordOf(w: string, rest: string)
    requires forall i | 0 <= i < |w| :: !IsWhitespace(w[i])
    requires rest == [] || IsWhitespace(rest[0])
    ensures LeadingWord(w + rest) == w
  {
    if w != [] {
      assert (w + rest)[1..] == w[1..] + rest;
      LeadingWordOf(w[1..], rest);
    }
  }

  /** The command word `start` read from `start` or `start@<mention>`. */
  lemma StartPartition(mention: string)
    ensures BeforeAt("start") == "start" && AfterAt("start") == []
    ensures BeforeAt("start@" + mention) == "start" && AfterAt("start@" + mention) == mention
    ensures Lower("start") == "start"
  {
    var s := "start@" + mention;
    assert s[5..] == "@" + mention && BeforeAt(s[5..]) == [];
    assert s[4..] == "t@" + mention && BeforeAt(s[4..]) == "t";
    assert s[3..] == "rt@" + mention && BeforeAt(s[3..]) == "rt";
    assert s[2..] == "art@" + mention && BeforeAt(s[2..]) == "art";
    assert s[1..] == "tart@" + mention && BeforeAt(s[1..]) == "tart";
    assert BeforeAt(s) == "start";
    assert s[6..] == mention;
  }

  /** A text whose first word is `w` after nothing but `w` and a whitespace-led payload. */
  lemma FirstWordOf(w: string, payload: string)
    requires w != [] && !IsWhitespace(w[0])
    requires forall i | 0 <= i < |w| :: !IsWhitespace(w[i])
    requires payload == [] || IsWhitespace(payload[0])
    ensures FirstWord(w + payload) == w
  {
    assert TrimStart(w + payload) == w + payload by { assert (w + payload)[0] == w[0]; }
    LeadingWordOf(w, payload);
  }

  /** `/start`, followed by nothing or by a payload after whitespace, is a start command. */
  lemma StartWithPayload(payload: string, botUsername: string)
    requires payload == [] || IsWhitespace(payload[0])
    ensures IsStartCommand("/start" + payload, botUsername)
  {
    FirstWordOf("/start", payload);
    StartPartition([]);
    assert FirstWord("/start" + payload)[1..] == "start";
  }

  /** `/start@<bot>`, with this bot's name in any letter case, is a start command. */
  lemma StartWithMention(mention: string, payload: string, botUsername: string)
    requires Lower(mention) == Lower(botUsername)
    requires forall i | 0 <= i < |mention| :: !IsWhitespace(mention[i])
    requires payload == [] || IsWhitespace(payload[0])
    ensures IsStartCommand("/start@" + mention + payload, botUsername)
  {
    var word := "/start@" + mention;
    assert forall i | 0 <= i < |word| :: !IsWhitespace(word[i]) by {
      forall i | 0 <= i < |word| ensures !IsWhitespace(word[i]) {
        if i >= 7 { assert word[i] == mention[i - 7]; }
      }
    }
    FirstWordOf(word, payload);
    StartPartition(mention);
    assert word[1..] == "start@" + mention;
  }

  /** The dispatcher tries the handlers one by one in registration order. */
  lemma HandlersInOrder(state: FormState, sig: Signals)
    ensures FirstMatch(Handlers, state, sig) ==
      if Matches(OnStart, state, sig) then Some(OnStart)
      else if Matches(OnCancel, state, sig) then Some(OnCancel)
      else if Matches(OnName, state, sig) then Some(OnName)
      else if Matches(OnAge, state, sig) then Some(OnAge)
      else if Matches(OnPhoneNumber, state, sig) then Some(OnPhoneNumber)
      else None
  {
    FirstMatchCons(OnPhoneNumber, [], state, sig);
    FirstMatchCons(OnAge, [OnPhoneNumber], state, sig);
    FirstMatchCons(OnName, [OnAge, OnPhoneNumber], state, sig);
    FirstMatchCons(OnCancel, [OnName, OnAge, OnPhoneNumber], state, sig);
    FirstMatchCons(OnStart, [OnCancel, OnName, OnAge, OnPhoneNumber], state, sig);
    assert [OnPhoneNumber] == [OnPhoneNumber] + [];
  }

  /**
   * The dispatcher's transition table, over what the filters read from the
   * message: outside a private chat nothing runs; with no state set only the
   * start command runs; inside the form the cancel button wins over the
   * handler of the current state.
   */
  lemma TransitionTable(state: FormState, sig: Signals)
    ensures FirstMatch(Handlers, state, sig) == (
      if !sig.privateChat then None
      else if state == Unset then (if sig.startCommand then Some(OnStart) else None)
      else if sig.cancelButton then Some(OnCancel)
      else if state == Name then Some(OnName)
      else if state == Age then Some(OnAge)
      else Some(OnPhoneNumber))
  {
    HandlersInOrder(state, sig);
  }

  /** The same table, for the handler the dispatcher selects for a message. */
  lemma SelectHandlerTable(state: FormState, msg: Message, botUsername: string)
    ensures var sig := SignalsOf(msg, botUsername);
      SelectHandler(state, msg, botUsername) == (
        if !sig.privateChat then None
        else if state == Unset then (if sig.startCommand then Some(OnStart) else None)
        else if sig.cancelButton then Some(OnCancel)
        else if state == Name then Some(OnName)
        else if state == Age then Some(OnAge)
        else Some(OnPhoneNumber))
  {
    TransitionTable(state, SignalsOf(msg, botUsername));
  }

  /** The last step keeps the form's guarantees: the committed row is a valid row of the table. */
  lemma PhoneStepKeepsValid(f: Form, text: string, sender: Sender, language: string, available: bool)
    requires FormValid(f) && f.state == PhoneNumber
    ensures FormValid(PhoneStep(f, text, sender, language, available).form)
  {
    var phone := ParsePhone(text);
    if phone.Some? {
      var u := NewUser(sender, f.data["name"].text, f.data["age"].number, phone.value);
      if CommitSucceeds(f.users, map[u.id := u], available) {
        CommitKeepsTableValid(f.users, u);
      }
    }
  }

  /** A handler tied to a state of the form is only selected in that state. */
  lemma SelectedInItsState(state: FormState, msg: Message, botUsername: string)
    ensures SelectHandler(state, msg, botUsername) == Some(OnName) ==> state == Name
    ensures SelectHandler(state, msg, botUsername) == Some(OnAge) ==> state == Age
    ensures SelectHandler(state, msg, botUsername) == Some(OnPhoneNumber) ==> state == PhoneNumber
  {
    var sig := SignalsOf(msg, botUsername);
    var r := FirstMatch(Handlers, state, sig);
    assert SelectHandler(state, msg, botUsername) == r;
    assert r.Some? ==> Matches(r.value, state, sig);
  }

  /** Each handler, run where the dispatcher runs it, keeps the form's guarantees. */
  lemma RunStepKeepsValid(h: Handler, f: Form, msg: Message, available: bool)
    requires FormValid(f) && (h == OnName ==> f.state == Name) && (h == OnAge ==> f.state == Age)
    requires h == OnPhoneNumber ==> f.state == PhoneNumber
    ensures FormValid(RunStep(h, f, msg, available).form)
  {
    if h == OnPhoneNumber {
      PhoneStepKeepsValid(f, msg.text, msg.from, GetLanguage(msg.from), available);
    }
  }

  /** Every message keeps the form's guarantees. */
  lemma DispatchKeepsValid(f: Form, msg: Message, botUsername: string, available: bool)
    requires FormValid(f)
    ensures FormValid(Dispatch(f, msg, botUsername, available).form)
  {
    var r := SelectHandler(f.state, msg, botUsername);
    if r.Some? {
      SelectedInItsState(f.state, msg, botUsername);
      RunStepKeepsValid(r.value, f, msg, available);
    }
  }

  /** Outside a private chat no handler runs and nothing changes. */
  lemma NotPrivateIgnored(f: Form, msg: Message, botUsername: string, available: bool)
    requires FormValid(f)
    requires msg.chat.chatType != ChatType.Private
    ensures Dispatch(f, msg, botUsername, available) == Outcome(f, [])
  {
    SelectHandlerTable(f.state, msg, botUsername);
  }

  /** `/start` from a sender who already has a row: the greeting reply, no state set. */
  lemma StartWhenRegistered(f: Form, msg: Message, botUsername: string, available: bool)
    requires FormValid(f) && f.state == Unset && InPrivateChat(msg) && IsStartCommand(msg.text, botUsername)
    requires msg.from.id in f.users
    ensures Dispatch(f, msg, botUsername, available) == Outcome(f, [InLanguage("already_registered", GetLanguage(msg.from))])
  {
    SelectHandlerTable(f.state, msg, botUsername);
  }

  /** `/start` from an unregistered sender: welcome, the name question, and the form enters `name`. */
  lemma StartWhenUnregistered(f: Form, msg: Message, botUsername: string, available: bool)
    requires FormValid(f) && f.state == Unset && InPrivateChat(msg) && IsStartCommand(msg.text, botUsername)
    requires msg.from.id !in f.users
    ensures Dispatch(f, msg, botUsername, available)
         == Outcome(f.(state := Name), [Shared("welcome"), InLanguage("ask_name", GetLanguage(msg.from))])
  {
    SelectHandlerTable(f.state, msg, botUsername);
  }

  /** The reply to `/start` from a registered sender greets them by first name, in their language. */
  lemma AlreadyRegisteredGreets(f: Form, msg: Message, botUsername: string, available: bool)
    requires FormValid(f) && f.state == Unset && InPrivateChat(msg) && IsStartCommand(msg.text, botUsername)
    requires msg.from.id in f.users
    ensures var o := Dispatch(f, msg, botUsername, available);
      |o.replies| == 1
      && ReplyText(o.replies[0], msg)
         == Ok(if GetLanguage(msg.from) == "fa" then msg.from.firstName + CT.FaGreetingTail
               else CT.EnGreetingHead + msg.from.firstName + CT.EnGreetingTail)
  {
    StartWhenRegistered(f, msg, botUsername, available);
    CT.AlreadyRegisteredRendered(GetLanguage(msg.from), msg.from.firstName);
  }

  /** The first reply to `/start` from an unregistered sender is the shared welcome text, as written. */
  lemma WelcomeSent(f: Form, msg: Message, botUsername: string, available: bool)
    requires FormValid(f) && f.state == Unset && InPrivateChat(msg) && IsStartCommand(msg.text, botUsername)
    requires msg.from.id !in f.users
    ensures var o := Dispatch(f, msg, botUsername, available);
      |o.replies| == 2 && ReplyText(o.replies[0], msg) == Ok(CT.WelcomeText)
  {
    StartWhenUnregistered(f, msg, botUsername, available);
    CT.WelcomeRendered(HandlerLocals(msg));
  }

  /**
   * The cancel button in any state of the form clears state and answers and
   * keeps the table; pressing it again then matches no handler and changes
   * nothing.
   */
  lemma CancelClearsAndRepeats(f: Form, msg: Message, botUsername: string, available: bool)
    requires FormValid(f) && f.state != Unset && InPrivateChat(msg) && IsCancelButton(msg.text)
    ensures Dispatch(f, msg, botUsername, available)
         == Outcome(Form(Unset, map[], f.users), [InLanguage("register_canceled", GetLanguage(msg.from))])
    ensures Dispatch(Form(Unset, map[], f.users), msg, botUsername, available) == Outcome(Form(Unset, map[], f.users), [])
  {
    SelectHandlerTable(f.state, msg, botUsername);
    SelectHandlerTable(Unset, msg, botUsername);
    CancelIsNotStart(msg.text, botUsername);
  }

  /** In state `name` any text but the cancel button is stored as the name, and the form moves to `age`. */
  lemma NameStored(f: Form, msg: Message, botUsername: string, available: bool)
    requires FormValid(f) && f.state == Name && InPrivateChat(msg) && !IsCancelButton(msg.text)
    ensures Dispatch(f, msg, botUsername, available)
         == Outcome(Form(Age, f.data["name" := Text(msg.text)], f.users), [InLanguage("ask_age", GetLanguage(msg.from))])
  {
    SelectHandlerTable(f.state, msg, botUsername);
  }

  /**
   * In state `age` the form moves to `phone_number` exactly when the answer
   * is a valid age, which is stored; otherwise state and answers stay and
   * the invalid-input reply is sent.
   */
  lemma AgeAcceptedOrRejected(f: Form, msg: Message, botUsername: string, available: bool)
    requires FormValid(f) && f.state == Age && InPrivateChat(msg) && !IsCancelButton(msg.text)
    ensures var o := Dispatch(f, msg, botUsername, available);
      o.form.state == PhoneNumber <==> ParseAge(msg.text).Some?
    ensures var o := Dispatch(f, msg, botUsername, available);
      ParseAge(msg.text).Some? ==>
        o == Outcome(Form(PhoneNumber, f.data["age" := Number(ParseAge(msg.text).value)], f.users),
                     [InLanguage("ask_phone_number", GetLanguage(msg.from))])
    ensures var o := Dispatch(f, msg, botUsername, available);
      ParseAge(msg.text).None? ==> o == Outcome(f, [InLanguage("invalid_input", GetLanguage(msg.from))])
  {
    SelectHandlerTable(f.state, msg, botUsername);
  }

  /** The last step, on the form alone. */
  lemma PhoneStepOutcome(f: Form, text: string, sender: Sender, language: string, available: bool)
    requires Filled(f.data)
    ensures var o := PhoneStep(f, text, sender, language, available);
      ParsePhone(text).None? ==> o == Outcome(f, [InLanguage("invalid_input", language)])
    ensures var o := PhoneStep(f, text, sender, language, available);
      ParsePhone(text).Some? ==>
        var u := User(sender.id, f.data["name"].text, f.data["age"].number, ParsePhone(text).value,
                      sender.username, false, false);
        && o.form.state == Unset && o.form.data == map[]
        && (CommitSucceeds(f.users, map[u.id := u], available) ==>
              o.form.users == f.users[u.id := u] && o.replies == [InLanguage("user_registered", language)])
        && (!CommitSucceeds(f.users, map[u.id := u], available) ==>
              o.form.users == f.users && o.replies == [InLanguage("error_occurred", language)])
  {
  }

  /** In state `phone_number` any text but the cancel button runs the last step. */
  lemma PhoneNumberRunsLastStep(f: Form, msg: Message, botUsername: string, available: bool)
    requires FormValid(f) && f.state == PhoneNumber && InPrivateChat(msg) && !IsCancelButton(msg.text)
    ensures Dispatch(f, msg, botUsername, available) == PhoneStep(f, msg.text, msg.from, GetLanguage(msg.from), available)
  {
    SelectHandlerTable(f.state, msg, botUsername);
  }

  /**
   * In state `phone_number` an invalid number changes nothing. A valid one
   * finishes the form before the commit, so state and answers are gone
   * whatever the commit does; the new row (sender id, stored name and age,
   * the number without `+`, the sender's username) is in the table exactly
   * when the commit succeeds, and the reply says which happened.
   */
  lemma PhoneFinishesThenCommits(f: Form, msg: Message, botUsername: string, available: bool)
    requires FormValid(f) && f.state == PhoneNumber && InPrivateChat(msg) && !IsCancelButton(msg.text)
    ensures var o := Dispatch(f, msg, botUsername, available);
      ParsePhone(msg.text).None? ==> o == Outcome(f, [InLanguage("invalid_input", GetLanguage(msg.from))])
    ensures var o := Dispatch(f, msg, botUsername, available);
      ParsePhone(msg.text).Some? ==>
        var u := User(msg.from.id, f.data["name"].text, f.data["age"].number, ParsePhone(msg.text).value,
                      msg.from.username, false, false);
        && o.form.state == Unset && o.form.data == map[]
        && (CommitSucceeds(f.users, map[u.id := u], available) ==>
              o.form.users == f.users[u.id := u] && o.replies == [InLanguage("user_registered", GetLanguage(msg.from))])
        && (!CommitSucceeds(f.users, map[u.id := u], available) ==>
              o.form.users == f.users && o.replies == [InLanguage("error_occurred", GetLanguage(msg.from))])
  {
    PhoneNumberRunsLastStep(f, msg, botUsername, available);
    PhoneStepOutcome(f, msg.text, msg.from, GetLanguage(msg.from), available);
  }

  // ---------------------------------------------------------------------------
  // A whole conversation

  /** Messages handled one after the other: the last form, and every reply in order. */
  function Run(f: Form, msgs: seq<Message>, botUsername: string, available: bool): (o: Outcome)
    requires FormValid(f)
    ensures FormValid(o.form)
    decreases |msgs|
  {
    if msgs == [] then Outcome(f, [])
    else
      var first := Dispatch(f, msgs[0], botUsername, available);
      DispatchKeepsValid(f, msgs[0], botUsername, available);
      var rest := Run(first.form, msgs[1..], botUsername, available);
      Outcome(rest.form, first.replies + rest.replies)
  }

  lemma RunCons(f: Form, msg: Message, rest: seq<Message>, botUsername: string, available: bool)
    requires FormValid(f)
    ensures FormValid(Dispatch(f, msg, botUsername, available).form)
    ensures var first := Dispatch(f, msg, botUsername, available);
      var after := Run(first.form, rest, botUsername, available);
      Run(f, [msg] + rest, botUsername, available) == Outcome(after.form, first.replies + after.replies)
  {
    DispatchKeepsValid(f, msg, botUsername, available);
    assert ([msg] + rest)[0] == msg && ([msg] + rest)[1..] == rest;
  }

  /** A text that begins with a digit or `+` is not the cancel button. */
  lemma NotCancelButton(text: string)
    requires |text| > 0 && (IsDigit(text[0]) || text[0] == '+')
    ensures !IsCancelButton(text)
  {
    CancelButtonTexts(text);
  }

  /** A text the age validator accepts is not the cancel button. */
  lemma AgeTextNotCancel(text: string)
    requires ParseAge(text).Some?
    ensures !IsCancelButton(text)
  {
    assert IsNumeric(text);
    assert IsDigit(text[0]);
    NotCancelButton(text);
  }

  /** A text the phone-number validator accepts is not the cancel button. */
  lemma PhoneTextNotCancel(text: string)
    requires ParsePhone(text).Some?
    ensures !IsCancelButton(text)
  {
    assert StartsWith(text, "+");
    assert text[..1] == "+";
    NotCancelButton(text);
  }

  /** The valid age of a registration is stored and leads to the phone-number question. */
  lemma AgeAnswered(f: Form, msg: Message, botUsername: string, available: bool, age: int)
    requires FormValid(f) && f.state == Age && InPrivateChat(msg)
    requires ParseAge(msg.text) == Some(age)
    ensures Dispatch(f, msg, botUsername, available)
         == Outcome(Form(PhoneNumber, f.data["age" := Number(age)], f.users), [InLanguage("ask_phone_number", GetLanguage(msg.from))])
  {
    AgeTextNotCancel(msg.text);
    AgeAcceptedOrRejected(f, msg, botUsername, available);
  }

  /** The last step commits a well-formed phone number when the database is available and the values fit. */
  lemma PhoneStepCommits(users: map<int, User>, name: string, age: int, sender: Sender, language: string,
                         available: bool, text: string, phone: int)
    requires sender.id !in users
    requires ParsePhone(text) == Some(phone)
    requires Storable(User(sender.id, name, age, phone, sender.username, false, false))
    ensures var u := User(sender.id, name, age, phone, sender.username, false, false);
      PhoneStep(Form(PhoneNumber, map["name" := Text(name), "age" := Number(age)], users), text, sender, language, available)
      == Outcome(Form(Unset, map[], if available then users[u.id := u] else users),
                 [InLanguage(if available then "user_registered" else "error_occurred", language)])
  {
    var f := Form(PhoneNumber, map["name" := Text(name), "age" := Number(age)], users);
    var u := User(sender.id, name, age, phone, sender.username, false, false);
    assert f.data["name"].text == name && f.data["age"].number == age;
    assert NewUser(sender, name, age, phone) == u;
    assert CommitSucceeds(users, map[u.id := u], available) == available by {
      assert Storable(u);
    }
  }

  /** The phone number of a registration is committed when the database is available and the values fit. */
  lemma PhoneAnswered(users: map<int, User>, name: string, age: int, msg: Message, botUsername: string,
                      available: bool, phone: int)
    requires TableValid(users) && msg.from.id !in users && InPrivateChat(msg)
    requires 8 < age < 100 && ParsePhone(msg.text) == Some(phone)
    requires Storable(User(msg.from.id, name, age, phone, msg.from.username, false, false))
    ensures var u := User(msg.from.id, name, age, phone, msg.from.username, false, false);
      Dispatch(Form(PhoneNumber, map["name" := Text(name), "age" := Number(age)], users), msg, botUsername, available)
      == Outcome(Form(Unset, map[], if available then users[u.id := u] else users),
                 [InLanguage(if available then "user_registered" else "error_occurred", GetLanguage(msg.from))])
  {
    var f := Form(PhoneNumber, map["name" := Text(name), "age" := Number(age)], users);
    PhoneTextNotCancel(msg.text);
    PhoneNumberRunsLastStep(f, msg, botUsername, available);
    PhoneStepCommits(users, name, age, msg.from, GetLanguage(msg.from), available, msg.text, phone);
  }
}
