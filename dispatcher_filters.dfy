/**
 * Update-classification predicates used as handler filters: the chat kind of
 * the message behind an update, membership of the sender in the allow-list,
 * and a keyboard-button match against the localized texts.
 *
 * Each chat-kind predicate answers for a message and for a callback query
 * (through the message the query is attached to); for any other update it
 * answers None, which the dispatcher reads as "no match".
 */
module DispatcherFilters {
  import opened Base
  import opened Telegram
  import opened ResourceContext
  import opened ContextTexts

  /**
   * The message an update is about: itself, or the one a callback query is
   * attached to, which a button of an inline-mode message lacks.
   */
  function MessageOf(u: Update): (r: Option<Message>)
    ensures r.None? <==> u.OtherUpdate? || (u.CallbackQueryUpdate? && u.query.message.None?)
  {
    match u
    case MessageUpdate(m) => Some(m)
    case CallbackQueryUpdate(q) => q.message
    case OtherUpdate(_) => None
  }

  /**
   * The platform's chat-kind check on what a filter hands it: true when it is
   * a message in a chat of one of `kinds`, false for an absent message, which
   * has no chat to check.
   */
  predicate ChatIs(m: Option<Message>, kinds: set<ChatType>)
  {
    m.Some? && m.value.chat.chatType in kinds
  }

  /** What a chat-kind filter answers: the check for a message or a callback query, None for other updates. */
  function ChatKindFilter(u: Update, kinds: set<ChatType>): Option<bool>
  {
    match u
    case MessageUpdate(m) => Some(ChatIs(Some(m), kinds))
    case CallbackQueryUpdate(q) => Some(ChatIs(q.message, kinds))
    case OtherUpdate(_) => None
  }

  /** `IsGroup`: the chat is a group or a supergroup. */
  function IsGroup(u: Update): (r: Option<bool>)
    ensures r.None? <==> u.OtherUpdate?
    ensures r == Some(true) <==> MessageOf(u).Some? && MessageOf(u).value.chat.chatType in {Group, Supergroup}
  {
    ChatKindFilter(u, {Group, Supergroup})
  }

  /** `IsPrivate`: the chat is a private chat with the sender. */
  function IsPrivate(u: Update): (r: Option<bool>)
    ensures r.None? <==> u.OtherUpdate?
    ensures r == Some(true) <==> MessageOf(u).Some? && MessageOf(u).value.chat.chatType == Private
  {
    ChatKindFilter(u, {Private})
  }

  /** `IsChannel`: the chat is a channel. */
  function IsChannel(u: Update): (r: Option<bool>)
    ensures r.None? <==> u.OtherUpdate?
    ensures r == Some(true) <==> MessageOf(u).Some? && MessageOf(u).value.chat.chatType == Channel
  {
    ChatKindFilter(u, {Channel})
  }

  /** A filter passes only when it answers true; False and None both reject. */
  predicate Holds(r: Option<bool>)
  {
    r == Some(true)
  }

  /**
   * A callback query is classified exactly as the message it is attached to;
   * without one, every chat-kind filter answers false.
   */
  lemma CallbackQueryUnwraps(q: CallbackQuery)
    ensures q.message.Some? ==> IsGroup(CallbackQueryUpdate(q)) == IsGroup(MessageUpdate(q.message.value))
    ensures q.message.Some? ==> IsPrivate(CallbackQueryUpdate(q)) == IsPrivate(MessageUpdate(q.message.value))
    ensures q.message.Some? ==> IsChannel(CallbackQueryUpdate(q)) == IsChannel(MessageUpdate(q.message.value))
    ensures q.message.None? ==>
      IsGroup(CallbackQueryUpdate(q)) == IsPrivate(CallbackQueryUpdate(q)) == IsChannel(CallbackQueryUpdate(q)) == Some(false)
  {
  }

  /**
   * At most one chat-kind predicate holds; for an update about a message
   * exactly one holds, and for a callback query without a message none does.
   */
  lemma ChatKindsExclusive(u: Update)
    ensures !(Holds(IsPrivate(u)) && Holds(IsGroup(u)))
    ensures !(Holds(IsPrivate(u)) && Holds(IsChannel(u)))
    ensures !(Holds(IsGroup(u)) && Holds(IsChannel(u)))
    ensures MessageOf(u).Some? ==> Holds(IsPrivate(u)) || Holds(IsGroup(u)) || Holds(IsChannel(u))
    ensures MessageOf(u).None? ==> !Holds(IsPrivate(u)) && !Holds(IsGroup(u)) && !Holds(IsChannel(u))
  {
  }

  /** Why a filter raised instead of answering. */
  datatype FilterError = NoSender   // the update has no `from_user`

  /**
   * `IsSudo`: the sender's id is in the configured allow-list. An update
   * without a sender makes the attribute access raise.
   */
  function IsSudo(u: Update, sudoers: set<int>): (r: Result<bool, FilterError>)
    ensures r == Ok(true) <==> SenderOf(u).Some? && SenderOf(u).value.id in sudoers
    ensures r.Err? <==> SenderOf(u).None?
  {
    match SenderOf(u)
    case Some(s) => Ok(s.id in sudoers)
    case None => Err(NoSender)
  }

  /**
   * The keyboard-button filter: the message text equals the text `key` has
   * in one of `languages`, so one button matches whichever language
   * produced it.
   */
  predicate ContextButton(text: string, key: string, languages: seq<string>)
  {
    exists i | 0 <= i < |languages| :: key in LanguageTable(languages[i]) && LanguageTable(languages[i])[key] == Str(text)
  }

  /** The cancel button of the registration form matches exactly its English and Persian texts. */
  lemma CancelButtonTexts(text: string)
    ensures ContextButton(text, "cancel", ["en", "fa"]) <==> text == "Cancel!" || text == "لغو!"
  {
    var languages := ["en", "fa"];
    assert LanguageTable(languages[0])["cancel"] == Str("Cancel!") by {
      assert LanguageTable("en") == EnTable();
    }
    assert LanguageTable(languages[1])["cancel"] == Str("لغو!") by {
      assert LanguageTable("fa") == FaTable();
    }
    if text == "Cancel!" {
      assert "cancel" in LanguageTable(languages[0]);
    } else if text == "لغو!" {
      assert "cancel" in LanguageTable(languages[1]);
    }
  }
}
