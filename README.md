# aiogram-structured: the registration conversation, in Dafny

This project models the core of a Telegram bot scaffold built on aiogram 2.

- **The registration conversation** (`handlers/start.py`).
  - `/start` opens a three-question form: name, then age, then phone number.
  - A cancel button works in any state of the form.
  - The last answer builds a `User` row and commits it to the `users` table. The commit can fail.
- **The general middleware** (`handlers/middlewares.py`).
  - It routes the dispatcher's actions to its hooks.
  - It injects `user` and `language` into the per-update data bag, but only when the matched handler declares them.
- **The resource context** (`bot.py`, `Context`). Text lookup falls back to a diagnostic string when a key is missing. A found template is rendered by `{name}` substitution. The context reads the text tables of `context.py`.
- **The update-classification filters** (`utils/dispatcher_filters.py`).

Layout, one module per file:

| module | file | contents |
|---|---|---|
| `Base` | `base.dfy` | Option, Result, prefix test |
| `Telegram` | `telegram.dfy` | the parts of updates, messages, chats and senders the core reads |
| `Models` | `models.dfy` | the `User` row, the table invariant, when a commit succeeds |
| `ResourceContext` | `resource_context.dfy` | `Context.__getattr__` and a model of `str.format_map` |
| `ContextTexts` | `context_texts.dfy` | the welcome text and the `en`/`fa` tables |
| `DispatcherFilters` | `dispatcher_filters.dfy` | chat-kind, sudo and button filters |
| `Middlewares` | `middlewares.dfy` | `GeneralMiddleware` and its data bag (a class updated in place) |
| `Inputs` | `inputs.dfy` | the age and phone-number validators |
| `StartHandlers` | `start_handlers.dfy` | handler filters, the dispatcher's choice, and each handler as a function of the form |
| `StartProperties` | `start_properties.dfy` | the transition table and the per-message guarantees |
| `StartRegistration` | `registration.dfy` | class `Registration` |
| `HandlerContext` | `handler_context.dfy` | the handlers' `context` as written: the text module itself |

`Registration` holds the conversation state, the scratch answers, the table and the session's uncommitted rows. Its methods change these fields step by step, as the handlers do. Each method is proved equal to the matching function of `StartHandlers`.

Handlers are tried in the order they are registered: `start`, `cancel`, `enter_name`, `enter_age`, `enter_phone_number`. The first one whose filters pass runs. `start` is registered without a state filter, so in aiogram 2 it only matches while no state is set.

## Model

| member | source | states |
|---|---|---|
| Models.CommitOneRow | models/user.py:10-14 | one new row commits iff the database is reachable, its id is new, its id and phone fit 64 bits, its name fits 128 characters and its username 32 |
| Models.CommitKeepsTableValid | models/user.py:10-14 | a committed registration row keeps every row under its own primary key, fitting its columns, with age in 9..99 and a non-negative phone number, and the table grows by exactly one row |
| Telegram.SenderOf | utils/dispatcher_filters.py:26-27 | a message or callback query carries its sender; only another kind of update can lack one (sender-less channel posts are left out) |
| ResourceContext.NotDefined | bot.py:62-63 | the diagnostic names the missing key and is longer than it |
| ResourceContext.CloseBrace | bot.py:68 | finds the first `}` after a position, or the end of the template |
| ResourceContext.FormatMap | bot.py:68 | rendering fails with KeyError only for a well-formed field name the caller did not supply |
| ResourceContext.Escape | bot.py:68 | escaping never shortens a text |
| ResourceContext.FormatAfterChar | bot.py:68 | an escaped character renders as itself, followed by the rendering of the rest |
| ResourceContext.FormatAfterEscape | bot.py:68 | an escaped prefix renders as the original prefix followed by the rendering of the rest |
| ResourceContext.EscapeRoundTrip | bot.py:68 | rendering is the inverse of escaping: any text, escaped, renders back to itself |
| ResourceContext.EscapeNoBraces | bot.py:68 | escaping leaves a brace-free text unchanged |
| ResourceContext.PlainTemplate | bot.py:65-70 | a found value without placeholders is returned unchanged |
| ResourceContext.PlaceholderThen | bot.py:68 | a leading `{field}` is replaced by the caller's value, or raises KeyError when there is none |
| ResourceContext.OnePlaceholder | bot.py:65-70 | a template with one placeholder renders as the text before it, the caller's value and the text after it, or raises KeyError naming the missing field |
| ResourceContext.CloseBraceIs | bot.py:68 | the brace finder returns the first `}` at or after its start |
| ResourceContext.GetAttr | bot.py:55-72 | a missing or None-bound key yields the diagnostic and never raises; a placeholder-free text is returned as written; a non-text attribute raises |
| ResourceContext.PlainTemplateRendered | bot.py:65-70 | a brace-free text renders as itself for any caller values |
| ContextTexts.LanguageTable | context.py:8-29 | `en` reads the English class and `fa` the Persian one, key for key |
| ContextTexts.Localized | bot.py:60-63 | a key missing from the language's table yields the diagnostic |
| ContextTexts.CancelTexts | context.py:9 | the cancel text is "Cancel!" in English and "لغو!" in Persian |
| ContextTexts.WelcomeRendered | context.py:1-5 | the shared welcome text has no placeholder and is sent as written |
| ContextTexts.EnGreetingTemplate | context.py:13 | the English greeting is one `{msg.from_user.first_name}` placeholder between two literal texts |
| ContextTexts.FaGreetingTemplate | context.py:25 | the Persian greeting is the placeholder followed by literal text |
| ContextTexts.GreetingLookup | context.py:13 | the `already_registered` lookup finds the language's greeting template |
| ContextTexts.AlreadyRegisteredRendered | context.py:13 | the greeting embeds the caller's first name, in Persian for `fa` and in English otherwise |
| ContextTexts.AlreadyRegisteredNeedsFirstName | bot.py:68 | without a value for the first name the greeting raises KeyError and does not fail soft |
| DispatcherFilters.MessageOf | utils/dispatcher_filters.py:5-23 | a callback query unwraps to its attached message; there is none for a callback query without one or for another kind of update |
| DispatcherFilters.IsGroup | utils/dispatcher_filters.py:5-9 | holds iff the chat is a group or supergroup; None for other updates |
| DispatcherFilters.IsPrivate | utils/dispatcher_filters.py:12-16 | holds iff the chat is private; None for other updates |
| DispatcherFilters.IsChannel | utils/dispatcher_filters.py:19-23 | holds iff the chat is a channel; None for other updates |
| DispatcherFilters.CallbackQueryUnwraps | utils/dispatcher_filters.py:8-23 | each chat-kind filter on a callback query equals the same filter on its message; without a message every filter answers false |
| DispatcherFilters.ChatKindsExclusive | utils/dispatcher_filters.py:5-23 | at most one chat kind holds; exactly one holds when the update is about a message, and none when there is no message |
| DispatcherFilters.IsSudo | utils/dispatcher_filters.py:26-27 | holds iff the sender's id is in the allow-list; raises when the update has no sender |
| DispatcherFilters.CancelButtonTexts | handlers/start.py:23 | the cancel filter matches exactly "Cancel!" or "لغو!" |
| Middlewares.UpdateData.constructor | handlers/middlewares.py:28 | the data bag starts with the given entries |
| Middlewares.GetUser | handlers/middlewares.py:19-20 | returns a row iff the sender's id is in the table, and that row carries the sender's id |
| Middlewares.GetLanguage | handlers/middlewares.py:22-26 | the result is always `en` or `fa`; it is `fa` iff the sender's code is `fa`; an `en` code is kept |
| Middlewares.Inject | handlers/middlewares.py:28-35 | `user` is written iff declared, `language` is written iff declared, and every other key is kept |
| Middlewares.OnProcessMessage | handlers/middlewares.py:28-35 | updates the bag in place to the injection for the message's sender |
| Middlewares.OnProcessCallbackQuery | handlers/middlewares.py:37-44 | updates the bag in place to the injection for the query's sender |
| Middlewares.PreProcess | handlers/middlewares.py:13-14 | changes nothing |
| Middlewares.PostProcess | handlers/middlewares.py:16-17 | changes nothing |
| Middlewares.Route | handlers/middlewares.py:46-57 | `pre_process_*` goes to pre-process and `post_process_*` to post-process; any other action goes to `on_<action>` iff it is defined, otherwise nowhere |
| Middlewares.MessageRoutes | handlers/middlewares.py:46-57 | the three actions around a message reach pre-process, `on_process_message` and post-process |
| Middlewares.CallbackQueryRoutes | handlers/middlewares.py:46-57 | the three actions around a callback query reach pre-process, `on_process_callback_query` and post-process |
| Middlewares.UpdateUnhandled | handlers/middlewares.py:53-56 | an update kind with no hook is routed nowhere |
| Middlewares.NotPrefix | handlers/middlewares.py:48-50 | a text that differs from a prefix inside it does not start with that prefix |
| Middlewares.TriggerEffect | handlers/middlewares.py:46-57 | pre-process, post-process and unhandled actions leave the bag as it was |
| Middlewares.Trigger | handlers/middlewares.py:46-57 | leaves the bag as its routing says |
| Middlewares.MessageAndCallbackAgree | handlers/middlewares.py:28-44 | a message and a callback query from the same sender inject the same values for the same handler |
| Inputs.DigitValue | handlers/start.py:41 | a digit's value is below ten |
| Inputs.DigitChar | handlers/start.py:41 | the digit character of a value reads back as that value |
| Inputs.ToDecimal | handlers/start.py:45 | a decimal rendering is never empty |
| Inputs.DecimalRoundTrip | handlers/start.py:41-45 | reading a number's decimal rendering gives back the number, and the rendering is numeric |
| Inputs.ParseAge | handlers/start.py:41-45 | accepts exactly numeric texts whose value is strictly between 8 and 100, and yields that value |
| Inputs.AgeAcceptedIff | handlers/start.py:41 | the age validator accepts a number iff it is in 9..99 |
| Inputs.AgeBoundaries | handlers/start.py:41 | 9 and 99 are accepted; 8, 100, 150, the empty text, `2x` and `-20` are rejected |
| Inputs.StripLeading | handlers/start.py:55 | removes exactly the leading run of a character |
| Inputs.StripTrailing | handlers/start.py:55 | removes exactly the trailing run of a character |
| Inputs.ParsePhone | handlers/start.py:55-61 | accepts exactly texts that start with `+` and are numeric once every outer `+` is stripped; yields that non-negative number |
| Inputs.StripAroundDigits | handlers/start.py:55 | stripping `+` from both ends leaves the digits between them |
| Inputs.StripLeadingPluses | handlers/start.py:55 | leading `+` before a digit are all stripped |
| Inputs.StripTrailingPluses | handlers/start.py:55 | trailing `+` after a digit are all stripped |
| Inputs.PhoneRoundTrip | handlers/start.py:55-61 | `+` followed by a number's digits is read back as that number |
| Inputs.PhoneExtraPluses | handlers/start.py:55-61 | extra `+` on either side are ignored |
| Inputs.PhoneNeedsPlus | handlers/start.py:55 | digits without a leading `+` are rejected |
| Inputs.PhonePlusesOnly | handlers/start.py:55 | a text of only `+` is rejected |
| Inputs.Pluses | handlers/start.py:55 | a run of `k` plus signs |
| StartHandlers.NextState | handlers/start.py:33-47 | `Register.next()` moves name to age and age to phone number |
| StartHandlers.HandlerArgs | handlers/start.py:12-54 | every handler declares `language`; only `start` declares `user` |
| StartHandlers.FirstWord | handlers/start.py:10 | the command word is the text's first whitespace-separated word; it is empty exactly when the text is all whitespace |
| StartHandlers.FirstMatch | handlers/start.py:10-53 | no handler is chosen iff none matches; a chosen handler is registered and matches |
| StartHandlers.NewUser | handlers/start.py:64-69 | the new row carries the sender's id and username and is neither blocked nor deactivated |
| StartProperties.StartCommandSlash | handlers/start.py:10 | a start command's first non-whitespace character is `/` |
| StartProperties.LeadingWordOf | handlers/start.py:10 | a word followed by whitespace, or by nothing, is the leading word of the text |
| StartProperties.StartWithPayload | handlers/start.py:10 | `/start`, alone or followed by a payload after whitespace of any kind, is a start command |
| StartProperties.StartWithMention | handlers/start.py:10 | `/start@<name>` is a start command whenever the name matches the bot's name up to letter case |
| StartProperties.CancelIsNotStart | handlers/start.py:10-23 | no cancel text is a start command |
| StartProperties.HandlersInOrder | handlers/start.py:10-53 | the dispatcher tries start, cancel, enter_name, enter_age and enter_phone_number in that order |
| StartProperties.TransitionTable | handlers/start.py:10-53 | outside a private chat nothing runs; with no state only `/start` runs; in the form the cancel button wins over the current state's handler |
| StartProperties.SelectHandlerTable | handlers/start.py:10-53 | the same table, for the handler chosen for a message |
| StartProperties.PhoneStepKeepsValid | handlers/start.py:53-78 | the last step keeps the table valid |
| StartProperties.SelectedInItsState | handlers/start.py:29-53 | a state's handler is chosen only in that state |
| StartProperties.RunStepKeepsValid | handlers/start.py:10-78 | each handler, run where the dispatcher runs it, keeps the form's guarantees |
| StartProperties.DispatchKeepsValid | handlers/start.py:10-78 | every message keeps the form's guarantees: answers present when read, age in range, table valid |
| StartProperties.NotPrivateIgnored | handlers/start.py:10-53 | outside a private chat nothing changes and nothing is sent |
| StartProperties.StartWhenRegistered | handlers/start.py:12-14 | `/start` from a sender with a row replies `already_registered` and sets no state |
| StartProperties.StartWhenUnregistered | handlers/start.py:16-20 | `/start` from an unregistered sender sends the welcome and the name question and enters `name` |
| StartProperties.AlreadyRegisteredGreets | handlers/start.py:14 | the reply greets the sender by first name in their language |
| StartProperties.WelcomeSent | handlers/start.py:16 | the first of the two replies is the welcome text as written |
| StartProperties.CancelClearsAndRepeats | handlers/start.py:23-26 | cancel in any form state clears state and answers and keeps the table; cancelling again changes nothing |
| StartProperties.NameStored | handlers/start.py:29-36 | in `name` any text but cancel is stored unvalidated as the name and the form moves to `age` |
| StartProperties.AgeAcceptedOrRejected | handlers/start.py:39-50 | in `age` the form moves on iff the age is valid and stores it; otherwise nothing changes and `invalid_input` is sent |
| StartProperties.PhoneStepOutcome | handlers/start.py:53-78 | the last step: an invalid number changes nothing; a valid one clears the form, and the row is in the table iff the commit succeeds |
| StartProperties.PhoneNumberRunsLastStep | handlers/start.py:53 | in `phone_number` any text but cancel runs the last step |
| StartProperties.PhoneFinishesThenCommits | handlers/start.py:53-78 | an invalid number changes nothing; a valid one finishes the form before the commit, adds the sender's row with the stored answers iff the commit succeeds, and replies `user_registered` or `error_occurred` |
| StartProperties.Run | handlers/start.py:10-78 | any sequence of messages keeps the form's guarantees |
| StartProperties.RunCons | handlers/start.py:10-78 | a conversation is its first message followed by the rest |
| StartProperties.NotCancelButton | handlers/start.py:23 | a text beginning with a digit or `+` is not the cancel button |
| StartProperties.AgeTextNotCancel | handlers/start.py:23-41 | an accepted age is never taken for the cancel button |
| StartProperties.PhoneTextNotCancel | handlers/start.py:23-55 | an accepted phone number is never taken for the cancel button |
| StartProperties.AgeAnswered | handlers/start.py:39-50 | a valid age is stored and the phone-number question follows |
| StartProperties.PhoneStepCommits | handlers/start.py:58-78 | a new sender's valid number, in a row that fits its columns, is committed iff the database is available |
| StartProperties.PhoneAnswered | handlers/start.py:53-78 | the same, for the message as dispatched |
| StartRegistration.Registration.constructor | handlers/start.py:10 | a new conversation has no state, no answers and the given valid table |
| StartRegistration.Registration.SetState | handlers/start.py:17 | sets the state |
| StartRegistration.Registration.Next | handlers/start.py:33-47 | advances the state by `Register.next()` |
| StartRegistration.Registration.Finish | handlers/start.py:25-62 | clears the state and every answer |
| StartRegistration.Registration.Store | handlers/start.py:31-45 | writes one answer and keeps the others |
| StartRegistration.Registration.Add | handlers/start.py:70 | puts the row in the session's pending rows |
| StartRegistration.Registration.Commit | handlers/start.py:72 | succeeds as the commit rule says; on success the pending rows join the table |
| StartRegistration.Registration.Rollback | handlers/start.py:76 | drops the pending rows |
| StartRegistration.Registration.Remove | handlers/start.py:77 | closes the session; nothing stays pending |
| StartRegistration.Registration.Start | handlers/start.py:10-20 | agrees with the `start` step and keeps the form valid |
| StartRegistration.Registration.Cancel | handlers/start.py:23-26 | agrees with the `cancel` step and keeps the form valid |
| StartRegistration.Registration.EnterName | handlers/start.py:29-36 | agrees with the `enter_name` step and keeps the form valid |
| StartRegistration.Registration.EnterAge | handlers/start.py:39-50 | agrees with the `enter_age` step and keeps the form valid |
| StartRegistration.Registration.EnterPhoneNumber | handlers/start.py:53-78 | agrees with the `enter_phone_number` step and keeps the form valid |
| StartRegistration.Registration.Save | handlers/start.py:70-78 | leaves nothing pending; the table gains the row exactly when the commit succeeds |
| StartRegistration.Registration.Handle | handlers/start.py:10-78 | runs the chosen handler as its step says |
| StartRegistration.Registration.ProcessMessage | handlers/middlewares.py:28-57 | one message through the middleware hooks and the chosen handler does what `Dispatch` says and keeps the form valid |
| HandlerContext.SentAsWritten | handlers/start.py:14-20 | the texts that reach the sender are the replies before the first whose text raises, in order |
| HandlerContext.StepSendsAsWritten | handlers/start.py:10-78 | as written a handler sends only the welcome text, and only for `/start` from an unregistered sender |
| HandlerContext.DispatchSendsAsWritten | handlers/start.py:10-78 | the same for one dispatched message |
| HandlerContext.RegisteredStartAsWritten | handlers/start.py:14 | as written the greeting to a registered sender raises TypeError and nothing is sent; read through the wrapper it renders |

## Findings

| source | as written | input that shows it | evidently intended | confidence | as-written member | corrected member |
|---|---|---|---|---|---|---|
| handlers/start.py:14 | `context[language]` subscripts the text module bound at bot.py:244, which raises TypeError; the wrapper is bound to `text` (bot.py:245) | `/start` in a private chat from a sender who already has a row | the `already_registered` text of the sender's language, rendered through the `Context` wrapper with the sender's first name | not executed | HandlerContext.RegisteredStartAsWritten | StartProperties.AlreadyRegisteredGreets |

## Left out

- The CLI, migrations, the scheduler, HTTP helpers, bot startup and the SQLAlchemy engine setup are not modelled. They are file-system, network and library plumbing. `utils/custom_filters.py` is not part of this model either.
- Async execution, sending replies and keyboard markup are left out. A reply is a text key (`Reply`). `StartHandlers.ReplyText` says which text a key renders to.
- Reflection is replaced by explicit values: the handler's declared arguments come from `StartHandlers.HandlerArgs`, and the caller's frame locals are an explicit map.
- The caller's locals map holds one key, the whole path `msg.from_user.first_name`. Python's attribute-path lookup, conversions and format specs inside placeholders are not modelled.
- Calling `format_map` on a non-text attribute (the per-language classes) is modelled as `ValueError`. The exception Python actually raises is not modelled.
- The handlers write `context[language].<key>`, but `context` is the text module itself (bot.py:244) and a module cannot be subscripted. As written, every localized reply raises TypeError at that point (handlers/start.py:14, 19-20, 26, 35-36, 42, 49-50, 56, 73, 78), after whatever state change the handler has already made. `context.welcome` (handlers/start.py:16) is read off the module and never goes through `Context.__getattr__`. The model reads each localized reply from the language's table through the wrapper, as intended. `HandlerContext` models the code as written; see Findings.
- Digits are ASCII decimal digits only. Python's `isnumeric` also accepts other Unicode numerals.
- `StartHandlers.IsStartCommand`: lower-casing is modelled for ASCII letters only, which decides the comparison with `start` but not every bot name. A non-empty text that is all whitespace makes aiogram's command filter raise IndexError; the model reads it as not a start command. The deep-link checks of aiogram's `CommandStart` (it is registered here without a pattern) are not modelled.
- `DispatcherFilters.IsSudo` / `Telegram.SenderOf`: messages without a sender (channel posts) are not modelled; `Message.from` is mandatory, so the AttributeError `is_sudo` raises on such a message is not represented.
- `Middlewares.GetUser`: the database read is assumed to succeed. When the database is unreachable the query raises, the middleware fails and `start` never runs (no reply, no state change); the model does not capture this, and `available` gates only the commit.
- The dispatcher's state storage is keyed by chat and user. The model holds one conversation.
- Whether a commit reaches the database is a parameter (`available`); the read in `Middlewares.GetUser` is not gated by it. The `joined_at` timestamp comes from the clock and is not modelled. The logging of a commit error is not modelled.
- Non-text messages are not modelled.
- Age bounds: the code accepts 8 < n < 100 (handlers/start.py:41), so 9..99; the model follows the code.
- `PhoneFinishesThenCommits`: replies are assumed to be sent without failure. As written, the success reply sits inside the `try` (handlers/start.py:71-73). If sending it raises after a successful commit, the `except` branch also runs: the rollback has nothing to undo, the row stays committed and `error_occurred` is attempted. Because of the `context[language]` finding, this happens on every successful commit.
- Column lengths: `Storable` enforces the 128- and 32-character `String` columns (models/user.py:11, 14), as a backend that checks them does; on one that does not, a longer name also commits.
- A callback query without an attached message makes the chat-kind filters hand `None` to the platform's chat-type check. That check answers false for an object without a chat; the model relies on this behaviour of the library.
- Lookup never modifies the text tables. This holds because the tables are values here; it is not stated as a separate property.
- There is no lemma for a whole registration, from `/start` to the commit. The conversation is covered one message at a time: `StartWhenUnregistered`, `NameStored`, `AgeAnswered`, `PhoneAnswered`. `Run` shows that any message sequence keeps the form's guarantees.
