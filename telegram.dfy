/** The slice of the Telegram bot library the wizard touches, as values:
    inbound events, the message filters the routing table uses, and the
    outbound calls a handler makes (replies, and the final post). */
module Telegram {
  import opened Values

  /** One inbound message of the chat.
      `Command(name)` is a message whose text is the bot command `/name`;
      `Text(text)` is a text message that is not a command;
      `Photo(fileIds)` is a photo message, one file id per size Telegram
      offers, smallest first. */
  datatype Event =
    | Command(name: string)
    | Text(text: string)
    | Photo(fileIds: seq<string>)

  /** `update.message.text`: the command's text, the text, or `None` for a photo. */
  function MessageText(e: Event): PyStr {
    match e
    case Command(name) => Some("/" + name)
    case Text(t) => Some(t)
    case Photo(_) => None
  }

  /** The filters the routing table uses. */
  datatype Filter =
    | TextNotCommand       // filters.TEXT & ~filters.COMMAND
    | PhotoAttached        // filters.PHOTO
    | SkipPattern          // filters.Regex("^(skip|Skip)$")
    | CommandIs(cmd: string) // CommandHandler(cmd)

  /** Python's `re.search("^(skip|Skip)$", t)`: `$` also matches just before
      one trailing newline, so "skip\n" is accepted as well. */
  predicate SkipRegexMatches(t: string) {
    t in {"skip", "Skip", "skip\n", "Skip\n"}
  }

  /** ASCII lower-casing. Telegram only recognises command names made of
      Latin letters, digits and `_`, so Python's `str.lower` acts on them as
      this does. */
  function LowerChar(c: char): char {
    if 'A' <= c <= 'Z' then (c as int + 32) as char else c
  }

  function Lower(s: string): string {
    seq(|s|, i requires 0 <= i < |s| => LowerChar(s[i]))
  }

  /** A name without capitals is its own lower-case form. */
  lemma LowerKeepsLowerCase(s: string)
    requires forall i :: 0 <= i < |s| ==> !('A' <= s[i] <= 'Z')
    ensures Lower(s) == s
  {
  }

  /** `CommandHandler(cmd)` with a lower-case `cmd`: the library lower-cases
      the typed command before comparing, so `/Cancel` and `/CANCEL` are the
      command `cancel`. */
  predicate IsCommand(e: Event, cmd: string) {
    e.Command? && Lower(e.name) == cmd
  }

  predicate Matches(f: Filter, e: Event) {
    match f
    case TextNotCommand => e.Text? && e.text != ""
    case PhotoAttached => e.Photo? && e.fileIds != []
    case SkipPattern => MessageText(e).Some? && SkipRegexMatches(MessageText(e).value)
    case CommandIs(cmd) => IsCommand(e, cmd)
  }

  /** `InlineKeyboardButton(text, url=url)`, holding exactly what was passed. */
  datatype Button = Button(text: PyStr, url: PyStr)

  /** One outbound call into the chat. */
  datatype Action =
    | ReplyText(text: string)
    | SendText(text: string, markup: seq<seq<Button>>)
    | SendPhoto(photo: string, caption: string, markup: seq<seq<Button>>)

  /** Whether an action publishes the post (as opposed to a prompt reply). */
  predicate IsSend(a: Action) {
    a.SendText? || a.SendPhoto?
  }
}
