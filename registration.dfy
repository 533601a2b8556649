/**
 * The running registration conversation. One object holds what the handlers
 * of the start module change: the conversation's state and answers (the
 * dispatcher's state storage), the `users` table, and the database session's
 * rows added but not yet committed. Each handler is a method that changes
 * these fields step by step as the handler does, and is proved to do what
 * the matching step function of `StartHandlers` says.
 */
module StartRegistration {
  import opened Base
  import opened Telegram
  import opened Models
  import opened Inputs
  import opened Middlewares
  import opened StartHandlers
  import opened StartProperties

  class Registration {
    var state: FormState
    var data: map<string, Field>
    var users: map<int, User>
    var pending: map<int, User>

    /** The conversation as the step functions see it. */
    function Snapshot(): Form
      reads this
    {
      Form(state, data, users)
    }

    /** Between messages the session holds nothing uncommitted and the form keeps its guarantees. */
    ghost predicate Valid()
      reads this
    {
      pending == map[] && FormValid(Snapshot())
    }

    constructor (table: map<int, User>)
      requires TableValid(table)
      ensures Valid() && Snapshot() == Form(Unset, map[], table)
    {
      state := Unset;
      data := map[];
      users := table;
      pending := map[];
    }

    // -------------------------------------------------------------------------
    // State storage

    /** `Register.<state>.set()`. */
    method SetState(s: FormState)
      modifies this`state
      ensures state == s
    {
      state := s;
    }

    /** `Register.next()`. */
    method Next()
      modifies this`state
      ensures state == NextState(old(state))
    {
      state := NextState(state);
    }

    /** `state.finish()`: the state and every answer are dropped. */
    method Finish()
      modifies this`state, this`data
      ensures state == Unset && data == map[]
    {
      state := Unset;
      data := map[];
    }

    /** Writing one answer through `state.proxy()`. */
    method Store(key: string, value: Field)
      modifies this`data
      ensures data == old(data)[key := value]
    {
      data := data[key := value];
    }

    // -------------------------------------------------------------------------
    // Database session

    /** `db.session.add`: the row is pending, keyed by its primary key. */
    method Add(u: User)
      modifies this`pending
      ensures pending == old(pending)[u.id := u]
    {
      pending := pending[u.id := u];
    }

    /**
     * `db.session.commit`: succeeds when the database is available and every
     * pending row has a fresh primary key and fits the column types; then the
     * rows are in the table and nothing is pending. A failed commit changes
     * neither.
     */
    method Commit(available: bool) returns (ok: bool)
      modifies this`users, this`pending
      ensures ok == CommitSucceeds(old(users), old(pending), available)
      ensures ok ==> users == old(users) + old(pending) && pending == map[]
      ensures !ok ==> users == old(users) && pending == old(pending)
    {
      ok := CommitSucceeds(users, pending, available);
      if ok {
        users := users + pending;
        pending := map[];
      }
    }

    /** `db.session.rollback`: pending rows are discarded. */
    method Rollback()
      modifies this`pending
      ensures pending == map[]
    {
      pending := map[];
    }

    /** `db.session.remove`: the session is closed; it holds nothing afterwards. */
    method Remove()
      modifies this`pending
      ensures pending == map[]
    {
      pending := map[];
    }

    // -------------------------------------------------------------------------
    // Handlers

    /** `start`. */
    method Start(user: Option<User>, language: string) returns (replies: seq<Reply>)
      requires Valid()
      modifies this`state
      ensures Valid()
      ensures Outcome(Snapshot(), replies) == StartStep(old(Snapshot()), user, language)
    {
      if user.Some? {
        return [InLanguage("already_registered", language)];
      }
      replies := [Shared("welcome")];
      SetState(Name);
      replies := replies + [InLanguage("ask_name", language)];
    }

    /** `cancel`. */
    method Cancel(language: string) returns (replies: seq<Reply>)
      requires Valid()
      modifies this`state, this`data
      ensures Valid()
      ensures Outcome(Snapshot(), replies) == CancelStep(old(Snapshot()), language)
    {
      Finish();
      replies := [InLanguage("register_canceled", language)];
    }

    /** `enter_name`. */
    method EnterName(text: string, language: string) returns (replies: seq<Reply>)
      requires Valid() && state == Name
      modifies this`state, this`data
      ensures Valid()
      ensures Outcome(Snapshot(), replies) == NameStep(old(Snapshot()), text, language)
    {
      Store("name", Text(text));
      Next();
      replies := [InLanguage("ask_age", language)];
    }

    /** `enter_age`. */
    method EnterAge(text: string, language: string) returns (replies: seq<Reply>)
      requires Valid() && state == Age
      modifies this`state, this`data
      ensures Valid()
      ensures Outcome(Snapshot(), replies) == AgeStep(old(Snapshot()), text, language)
    {
      if !IsNumeric(text) || !(8 < DecimalValue(text) < 100) {
        return [InLanguage("invalid_input", language)];
      }
      Store("age", Number(DecimalValue(text)));
      Next();
      replies := [InLanguage("ask_phone_number", language)];
    }

    /** `enter_phone_number`. */
    method EnterPhoneNumber(sender: Sender, text: string, language: string, available: bool) returns (replies: seq<Reply>)
      requires Valid() && state == PhoneNumber
      modifies this
      ensures Valid()
      ensures Outcome(Snapshot(), replies) == PhoneStep(old(Snapshot()), text, sender, language, available)
    {
      ghost var f0 := Snapshot();
      if !StartsWith(text, "+") || !IsNumeric(Strip(text, '+')) {
        assert ParsePhone(text).None?;
        return [InLanguage("invalid_input", language)];
      }
      var name := data["name"].text;
      var age := data["age"].number;
      var phoneNumber := DecimalValue(Strip(text, '+'));
      assert ParsePhone(text) == Some(phoneNumber);
      Finish();
      var u := NewUser(sender, name, age, phoneNumber);
      var ok := Save(u, available);
      if ok {
        CommitKeepsTableValid(f0.users, u);
        replies := [InLanguage("user_registered", language)];
      } else {
        replies := [InLanguage("error_occurred", language)];
      }
    }

    /**
     * The last step's database work: the new row is added and committed; when
     * the commit fails the session is rolled back and removed. Either way
     * nothing is left pending, and the table gains the row exactly when the
     * commit succeeds.
     */
    method Save(u: User, available: bool) returns (ok: bool)
      requires pending == map[]
      modifies this`users, this`pending
      ensures ok == CommitSucceeds(old(users), map[u.id := u], available)
      ensures users == if ok then old(users)[u.id := u] else old(users)
      ensures pending == map[]
    {
      Add(u);
      ok := Commit(available);
      if ok {
        assert users == old(users)[u.id := u];
      } else {
        Rollback();
        Remove();
      }
    }

    /** The handler the dispatcher chose, with the `user` and `language` the middleware injected. */
    method Handle(h: Handler, msg: Message, user: Option<User>, language: string, available: bool) returns (replies: seq<Reply>)
      requires Valid() && (h == OnName ==> state == Name) && (h == OnAge ==> state == Age)
      requires h == OnPhoneNumber ==> state == PhoneNumber
      requires (h == OnStart ==> user == GetUser(users, msg.from)) && language == GetLanguage(msg.from)
      modifies this
      ensures Valid()
      ensures Outcome(Snapshot(), replies) == RunStep(h, old(Snapshot()), msg, available)
    {
      match h {
        case OnStart =>
          replies := Start(user, language);
        case OnCancel =>
          replies := Cancel(language);
        case OnName =>
          replies := EnterName(msg.text, language);
        case OnAge =>
          replies := EnterAge(msg.text, language);
        case OnPhoneNumber =>
          replies := EnterPhoneNumber(msg.from, msg.text, language, available);
      }
    }

    /**
     * One inbound message through the dispatcher: the middleware's
     * pre-process hook, the choice of handler, the middleware's injection of
     * what that handler declares, the handler, and the post-process hook.
     */
    method ProcessMessage(msg: Message, botUsername: string, available: bool) returns (replies: seq<Reply>)
      requires Valid()
      modifies this
      ensures Valid()
      ensures Outcome(Snapshot(), replies) == Dispatch(old(Snapshot()), msg, botUsername, available)
    {
      ghost var f0 := Snapshot();
      var update := MessageUpdate(msg);
      var bag := new UpdateData(map[]);
      MessageRoutes();
      Trigger("pre_process_message", update, None, users, bag);
      var handler := SelectHandler(state, msg, botUsername);
      replies := [];
      if handler.Some? {
        var h := handler.value;
        SelectedInItsState(state, msg, botUsername);
        Trigger("process_message", update, Some(HandlerArgs(h)), users, bag);
        var language := bag.values["language"].code;
        var user := if "user" in bag.values then bag.values["user"].row else None;
        replies := Handle(h, msg, user, language, available);
      }
      Trigger("post_process_message", update, if handler.Some? then Some(HandlerArgs(handler.value)) else None, users, bag);
    }
  }
}
