# Post-creation wizard of the Telegram post bot, in Dafny

The bot walks one user through building a promotional post. It asks, in
order, for a title, a description, an optional photo, a button text and a
button URL. Then it sends the finished post back into the chat, with one
inline button. The conversation runs on the bot library's conversation
handler: a table says which handler runs for a message in each state. Each
handler writes one key of the per-user scratch dictionary
(`context.user_data`), replies with the next prompt and returns the next
state.

The project has five modules, one file each:

- `values.dfy` (`Values`): `Option` and `Result`. A Python `str | None`
  value (`PyStr`), with Python truthiness (`Truthy`) and f-string rendering
  (`Show`, where `None` prints as `None`).
- `telegram.dfy` (`Telegram`): the inbound `Event`, which is a bot command,
  a plain text or a photo with its list of sizes. It also holds
  `update.message.text` (`MessageText`), the four filters the table uses,
  and the outbound `Action` values: a prompt reply, the post as text, or the
  post as a photo with caption.
- `wizard.dfy` (`Wizard`): the pure transition system.
  - `State`: `Idle` means no conversation. It is both the start and where
    `ConversationHandler.END` leads.
  - The routing table: `EntryPoints`, `StateHandlers` and `Fallbacks`,
    searched by `FirstMatch`.
  - `Apply` gives each handler's effect on the dictionary and its result.
    A handler either returns the next state with its replies, or raises
    `KeyError`.
  - `Publish` builds the final post. It looks keys up in the order the bot
    does.
  - `Dispatch` handles one event, `Run` and `Emitted` a sequence of events.
  - `Written` counts the keys assigned since the wizard was last entered.
- `properties.dfy` (`WizardProperties`): the lemmas about the wizard.
- `session.dfy` (`PostSession`): class `Session`. Its fields `state` and
  `userData` are updated in place. There is one method per bot handler.
  `Step` is the conversation handler, proved equal to `Dispatch`, and it
  keeps the invariant that rules out `KeyError`.

Where the behaviour is subtle, the model follows the code:

- `filters.Regex("^(skip|Skip)$")` is applied with Python's `re.search`.
  There, `$` also matches before one trailing newline. So the skip step
  accepts exactly `skip`, `Skip`, `skip\n` and `Skip\n`.
- `filters.TEXT` only takes a message with non-empty text.
- `CommandHandler` lower-cases the typed command before comparing it, so
  `/Cancel`, `/CANCEL` and `/Create_Post` work like `/cancel` and
  `/create_post`.
- Neither `/create_post` nor `/cancel` clears `user_data`. Values from an
  earlier conversation stay until they are overwritten.
- In the photo step, a message that is neither a photo, a skip word nor
  `/cancel` matches no handler. The bot then sends nothing and stays where it is. The
  "please send a photo" reply in `get_photo` can never be sent.
- Within a conversation, the set of keys assigned so far is exactly the keys
  of the steps passed. This is proved for the keys assigned since the wizard
  was last entered, not for the whole dictionary, which may hold older
  values.
- The post text is `"**" + title + "**\n\n" + description`, with the
  Markdown asterisks. For title "Sale" and description "50% off" it is
  `**Sale**\n\n50% off`.
- The code has no restart or exit words, no video step and no choice of
  target chat. The post is a reply in the same chat.

## Model

| member | source | states |
|---|---|---|
| `Wizard.FirstMatchIsEarliest` | main.py:103-122 | The handler search finds a handler exactly when some listed filter matches, and then it is the handler of the earliest matching entry (first match wins). |
| `WizardProperties.RouteTable` | main.py:103-122 | The table, written out per state. With no conversation only `/create_post` routes (to `start_post`). In a text state a non-empty non-command text goes to that state's handler. In the photo state a photo goes to `get_photo`, then a skip word to `skip_photo`. Otherwise `/cancel` goes to `cancel`, and nothing else routes. Both commands match in any letter case. |
| `WizardProperties.EntryOnlyByCreatePost` | main.py:103-104 | With no conversation, `/create_post` in any letter case moves to TITLE with the title prompt and leaves the dictionary as it was. Every other event changes nothing and sends nothing. |
| `WizardProperties.CancelEndsConversation` | main.py:91-93 | `/cancel`, in any letter case, in any wizard state ends the conversation with the cancellation reply. The dictionary is unchanged. |
| `WizardProperties.TextStepStoresVerbatim` | main.py:106-116 | In TITLE, DESCRIPTION and BUTTON_NAME, a non-empty plain text is stored verbatim under that step's key. The state moves exactly one step on, with that step's prompt. `/cancel` in any letter case cancels. Any other command, a photo or an empty text changes nothing. |
| `WizardProperties.ButtonUrlStoresVerbatim` | main.py:117-119 | In BUTTON_URL, a non-empty plain text is stored verbatim as `button_url`. Then either the post is sent and the conversation ends, or a `KeyError` names the missing key and the state stays. `/cancel` in any letter case cancels. Other events change nothing. |
| `WizardProperties.PhotoStepChoices` | main.py:110-112 | In PHOTO, a photo stores the file id of its last size and moves to BUTTON_NAME. A skip word stores `None` and moves to BUTTON_NAME. `/cancel` in any letter case cancels. Anything else changes neither state nor dictionary. |
| `WizardProperties.CommandIgnoresCase` | main.py:103-122 | In every configuration, two commands whose names differ only in letter case are handled identically. |
| `WizardProperties.CapitalisedCommands` | main.py:103-122 | `/Create_Post` opens the wizard at TITLE with the title prompt; `/Cancel` in TITLE and `/CANCEL` in BUTTON_URL end the conversation with the cancellation reply. |
| `WizardProperties.SkipIsCaseSensitive` | main.py:112 | In PHOTO, `SKIP`, `skip it` and the command `/skip` are ignored. |
| `WizardProperties.PhotoAgainUnreachable` | main.py:49-50 | No event ever produces the "please send a photo" reply. |
| `WizardProperties.HandlerWritesOnlyItsKey` | main.py:22-93 | Each handler leaves every key other than its own as it was, present or absent. `start_post` and `cancel` leave the dictionary unchanged. |
| `WizardProperties.DispatchWritesOnlyAssigned` | main.py:103-122 | One event assigns at most one key. That key is then present, and the rest of the dictionary is unchanged. |
| `WizardProperties.DispatchKeepsConversation` | main.py:103-122 | One event keeps this invariant: inside a conversation, the keys assigned since the wizard was entered are exactly those of the steps passed, and all are present. |
| `WizardProperties.RunKeepsConversation` | main.py:103-122 | Every sequence of events keeps that invariant. The assigned keys are counted afresh from each entry into the wizard. |
| `WizardProperties.FieldsSetBeforeFinalStep` | main.py:68-76 | Start from any dictionary with no conversation and send any events. If the conversation reaches BUTTON_URL, then `title`, `description`, `photo` and `button_name` were all assigned in the current conversation, and the next event raises no `KeyError`. |
| `WizardProperties.DispatchKeepsReady` | main.py:65-76 | When the keys of the steps passed are present, they stay present after any event, and no lookup fails. |
| `WizardProperties.FinalStepSendsPost` | main.py:65-88 | The last answer produces exactly one send, and the state goes back to no conversation. If the stored photo is truthy, the send is a photo with caption. Otherwise it is a plain text. The text is the title in `**`, a blank line, then the description. The keyboard is the single button (button text, URL). |
| `WizardProperties.CompleteConversation` | main.py:22-88 | A whole conversation: `/create_post`, then five acceptable answers. It stores the five answers under their keys, sends the five prompts in order, then sends the post (a photo post if a photo was sent, a text post if it was skipped), and ends. |
| `WizardProperties.SkippedPhotoExample` | main.py:53-86 | Title "Sale", description "50% off", skip, button "Shop" with URL https://x.test gives five prompts and then the text `**Sale**\n\n50% off` with the one button. |
| `WizardProperties.PhotoExample` | main.py:41-82 | The same answers with a two-size photo give a photo post that uses the larger size's file id. |
| `PostSession.Session.constructor` | main.py:103-122 | A session starts with no conversation and an empty dictionary, and satisfies the invariant. |
| `PostSession.Session.StartPost` | main.py:22-24 | Replies with the title prompt and returns TITLE. |
| `PostSession.Session.GetTitle` | main.py:27-30 | Sets `title` to the message text and changes no other key. Replies with the description prompt and returns DESCRIPTION. |
| `PostSession.Session.GetDescription` | main.py:33-38 | Sets `description` to the message text and changes no other key. Replies with the photo prompt and returns PHOTO. |
| `PostSession.Session.GetPhoto` | main.py:41-50 | For a photo message, sets `photo` to the last size's file id, replies with the button prompt and returns BUTTON_NAME. For any other message, leaves the dictionary unchanged, asks again and returns PHOTO. |
| `PostSession.Session.SkipPhoto` | main.py:53-56 | Sets `photo` to `None`, replies with the button prompt and returns BUTTON_NAME. |
| `PostSession.Session.GetButtonName` | main.py:59-62 | Sets `button_name` to the message text. Replies with the URL prompt and returns BUTTON_URL. |
| `PostSession.Session.GetButtonUrl` | main.py:65-88 | Sets `button_url` to the message text. Then it either sends the post `Publish` describes and returns END, or raises `KeyError` for the first missing key, in the bot's lookup order. |
| `PostSession.Session.Cancel` | main.py:91-93 | Replies with the cancellation message and returns END. |
| `PostSession.Session.Step` | main.py:103-122 | Handles one event. The new state, dictionary and replies are exactly those `Dispatch` gives, no `KeyError` escapes, and the session invariant is kept. |

## Left out

- Telegram transport: replies and sends are values of `Action`, not calls. The `Application` builder, `run_polling`, and how Telegram renders `parse_mode="Markdown"` are not modelled. Every send is taken to succeed.
- FinalStepSendsPost: the return to no conversation holds only when Telegram accepts the post. A button URL that is not a URL, or a text that does not parse as Markdown, makes the send raise before `END` is returned; the conversation then stays at BUTTON_URL with `button_url` stored. Telegram's validation is not modelled.
- The hard-coded bot token and the logging calls: configuration and side effects with no behaviour to state.
- async scheduling and concurrency between chats: one session is modelled, and it handles its events one at a time. The library keys `user_data` by user but the conversation state by (chat, user), so two chats of the same user share one dictionary; the model gives each session its own.
- How Telegram marks a message as a bot command: an `Event` is already classified as a command, a text or a photo. Commands with arguments or with `@botname` are not modelled. `/name` is the command `name`, compared after ASCII lower-casing; Telegram only recognises command names made of Latin letters, digits and `_`, so Unicode case folding does not arise.
- The library's handling of an exception escaping a handler: it is modelled as the conversation staying in its state, with the key assigned before the failure kept and nothing sent. The library's error handlers are not modelled. The invariant proves that this case cannot occur from a fresh session.
- The library's conversation options (timeouts, re-entry, per-chat and per-user keys) are used at their defaults. Re-entry is off, so `/create_post` during a conversation is ignored.
