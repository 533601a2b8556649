/**
 * The dispatch middleware. Around every update the dispatcher triggers
 * pre-process, the per-update-type hook once a handler matched, and
 * post-process. The per-update-type hooks inject into the update's data bag
 * only what the matched handler declares: `user` (the sender's row, or None)
 * and `language` (the sender's supported language code).
 *
 * The handler's signature is an explicit set of declared argument names, and
 * the data bag is an object whose map the hooks update in place.
 */
module Middlewares {
  import opened Base
  import opened Telegram
  import opened Models

  /** A value in the per-update data bag. */
  datatype DataValue =
    | UserValue(row: Option<User>)   // what `get_user` returned
    | LanguageValue(code: string)    // what `get_language` returned
    | OtherValue(tag: string)        // anything other code stored

  /** The per-update data bag shared by the middleware hooks and the handler. */
  class UpdateData {
    var values: map<string, DataValue>

    constructor (initial: map<string, DataValue>)
      ensures values == initial
    {
      values := initial;
    }
  }

  /** `get_user`: the row whose id is the sender's id, or None when the sender is not registered. */
  function GetUser(users: map<int, User>, sender: Sender): (r: Option<User>)
    ensures r.Some? <==> sender.id in users
    ensures r.Some? ==> r.value == users[sender.id]
    ensures r.Some? && TableValid(users) ==> r.value.id == sender.id
  {
    if sender.id in users then Some(users[sender.id]) else None
  }

  /** `get_language`: the sender's code when it is `fa` or `en`, otherwise `en`. */
  function GetLanguage(sender: Sender): (r: string)
    ensures r == "en" || r == "fa"
    ensures sender.languageCode == Some("fa") <==> r == "fa"
    ensures sender.languageCode == Some("en") ==> r == "en"
  {
    if sender.languageCode == Some("fa") || sender.languageCode == Some("en") then sender.languageCode.value else "en"
  }

  /**
   * The data bag after injection for a handler declaring `args`: `user` is
   * written exactly when declared, `language` exactly when declared, and every
   * other entry is kept.
   */
  function Inject(bag: map<string, DataValue>, args: set<string>, users: map<int, User>, sender: Sender): (r: map<string, DataValue>)
    ensures r.Keys == bag.Keys + (args * {"user", "language"})
    ensures "user" in args ==> r["user"] == UserValue(GetUser(users, sender))
    ensures "language" in args ==> r["language"] == LanguageValue(GetLanguage(sender))
    ensures forall k | k in bag && !(k in args && k in {"user", "language"}) :: r[k] == bag[k]
  {
    var withUser := if "user" in args then bag["user" := UserValue(GetUser(users, sender))] else bag;
    if "language" in args then withUser["language" := LanguageValue(GetLanguage(sender))] else withUser
  }

  /** `on_process_message`: injects what the current handler declares for a message. */
  method OnProcessMessage(msg: Message, args: set<string>, users: map<int, User>, data: UpdateData)
    modifies data
    ensures data.values == Inject(old(data.values), args, users, msg.from)
  {
    if "user" in args {
      data.values := data.values["user" := UserValue(GetUser(users, msg.from))];
    }
    if "language" in args {
      data.values := data.values["language" := LanguageValue(GetLanguage(msg.from))];
    }
  }

  /** `on_process_callback_query`: the same injection, for the sender of a callback query. */
  method OnProcessCallbackQuery(query: CallbackQuery, args: set<string>, users: map<int, User>, data: UpdateData)
    modifies data
    ensures data.values == Inject(old(data.values), args, users, query.from)
  {
    if "user" in args {
      data.values := data.values["user" := UserValue(GetUser(users, query.from))];
    }
    if "language" in args {
      data.values := data.values["language" := LanguageValue(GetLanguage(query.from))];
    }
  }

  /** `pre_process`: does nothing. */
  method PreProcess(obj: Update, data: UpdateData)
    ensures data.values == old(data.values)
  {
  }

  /** `post_process`: does nothing. */
  method PostProcess(obj: Update, data: UpdateData)
    ensures data.values == old(data.values)
  {
  }

  /** Where `trigger` sends an action. */
  datatype Hook = PreProcessHook | PostProcessHook | Call(name: string) | Unhandled

  /** The hooks this middleware defines, by attribute name. */
  const DefinedHooks: set<string> := {"on_process_message", "on_process_callback_query"}

  /**
   * `trigger`'s routing: a `pre_process_` action goes to pre-process, a
   * `post_process_` action to post-process, any other action to the hook
   * `on_<action>` when the middleware defines it, and otherwise nowhere.
   */
  function Route(action: string, defined: set<string>): (h: Hook)
    ensures h == PreProcessHook <==> StartsWith(action, "pre_process_")
    ensures h == PostProcessHook <==> !StartsWith(action, "pre_process_") && StartsWith(action, "post_process_")
    ensures h.Call? <==> !StartsWith(action, "pre_process_") && !StartsWith(action, "post_process_") && "on_" + action in defined
    ensures h.Call? ==> h.name == "on_" + action
  {
    if StartsWith(action, "pre_process_") then PreProcessHook
    else if StartsWith(action, "post_process_") then PostProcessHook
    else if "on_" + action in defined then Call("on_" + action)
    else Unhandled
  }

  /** The actions the dispatcher fires around a message. */
  lemma MessageRoutes()
    ensures Route("pre_process_message", DefinedHooks) == PreProcessHook
    ensures Route("process_message", DefinedHooks) == Call("on_process_message")
    ensures Route("post_process_message", DefinedHooks) == PostProcessHook
  {
    assert "pre_process_message"[..12] == "pre_process_";
    NotPrefix("process_message", "pre_process_", 2);
    NotPrefix("process_message", "post_process_", 1);
    assert "on_" + "process_message" == "on_process_message";
    NotPrefix("post_process_message", "pre_process_", 1);
    assert "post_process_message"[..13] == "post_process_";
  }

  /** The actions the dispatcher fires around a callback query. */
  lemma CallbackQueryRoutes()
    ensures Route("pre_process_callback_query", DefinedHooks) == PreProcessHook
    ensures Route("process_callback_query", DefinedHooks) == Call("on_process_callback_query")
    ensures Route("post_process_callback_query", DefinedHooks) == PostProcessHook
  {
    assert "pre_process_callback_query"[..12] == "pre_process_";
    NotPrefix("process_callback_query", "pre_process_", 2);
    NotPrefix("process_callback_query", "post_process_", 1);
    assert "on_" + "process_callback_query" == "on_process_callback_query";
    NotPrefix("post_process_callback_query", "pre_process_", 1);
    assert "post_process_callback_query"[..13] == "post_process_";
  }

  /** An update kind the middleware has no hook for is not handled. */
  lemma UpdateUnhandled()
    ensures Route("process_update", DefinedHooks) == Unhandled
  {
    NotPrefix("process_update", "pre_process_", 2);
    NotPrefix("process_update", "post_process_", 1);
    var name := "on_" + "process_update";
    assert name[11] == 'u';
    assert name != "on_process_message" by {
      assert "on_process_message"[11] == 'm';
    }
    assert name != "on_process_callback_query" by {
      assert "on_process_callback_query"[11] == 'c';
    }
  }

  /** A text that differs from `prefix` at some index within it does not start with it. */
  lemma NotPrefix(s: string, prefix: string, i: nat)
    requires i < |prefix| && i < |s| && s[i] != prefix[i]
    ensures !StartsWith(s, prefix)
  {
    if |prefix| <= |s| {
      assert s[..|prefix|][i] != prefix[i];
    }
  }

  /**
   * What `trigger` leaves in the data bag: pre- and post-process and
   * unhandled actions leave it as it was; the per-update-type hooks inject
   * for the current handler's declared arguments.
   */
  function TriggerEffect(bag: map<string, DataValue>, action: string, obj: Update,
                         handler: Option<set<string>>, users: map<int, User>): (r: map<string, DataValue>)
    requires Route(action, DefinedHooks).Call? ==> handler.Some? && SenderOf(obj).Some?
    ensures !Route(action, DefinedHooks).Call? ==> r == bag
  {
    if Route(action, DefinedHooks).Call? then Inject(bag, handler.value, users, SenderOf(obj).value) else bag
  }

  /**
   * `trigger`: routes `action` and runs the chosen hook on `obj` and the data
   * bag. `handler` is the declared-argument set of the handler the dispatcher
   * matched, absent before one matched.
   */
  method Trigger(action: string, obj: Update, handler: Option<set<string>>, users: map<int, User>, data: UpdateData)
    requires Route(action, DefinedHooks) == Call("on_process_message") ==> obj.MessageUpdate? && handler.Some?
    requires Route(action, DefinedHooks) == Call("on_process_callback_query") ==> obj.CallbackQueryUpdate? && handler.Some?
    modifies data
    ensures data.values == TriggerEffect(old(data.values), action, obj, handler, users)
  {
    var hook := Route(action, DefinedHooks);
    match hook
    case PreProcessHook =>
      PreProcess(obj, data);
    case PostProcessHook =>
      PostProcess(obj, data);
    case Call(name) =>
      if name == "on_process_message" {
        OnProcessMessage(obj.message, handler.value, users, data);
      } else {
        OnProcessCallbackQuery(obj.query, handler.value, users, data);
      }
    case Unhandled =>
  }

  /** A message and a callback query from the same sender inject the same values for the same handler. */
  lemma MessageAndCallbackAgree(bag: map<string, DataValue>, args: set<string>, users: map<int, User>,
                                msg: Message, query: CallbackQuery)
    requires msg.from == query.from
    ensures TriggerEffect(bag, "process_message", MessageUpdate(msg), Some(args), users)
         == TriggerEffect(bag, "process_callback_query", CallbackQueryUpdate(query), Some(args), users)
  {
    MessageRoutes();
    CallbackQueryRoutes();
  }
}
