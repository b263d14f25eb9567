/** The post-creation wizard as a pure transition system: the conversation
    states, the routing table that picks a handler for an event, what each
    handler does to the user's scratch dictionary, and the composed post. */
module Wizard {
  import opened Values
  import opened Telegram

  /** The conversation states. `Idle` is "no conversation": both the
      initial situation and where `ConversationHandler.END` leads. */
  datatype State = Idle | Title | Description | PhotoStep | ButtonName | ButtonUrl

  /** `context.user_data`: the per-user scratch dictionary. */
  type UserData = map<string, PyStr>

  datatype Config = Config(state: State, data: UserData)

  // The replies the handlers send, in the order the wizard asks.
  const AskTitle: string := "\U{1F4CC} Send me the post **title**."
  const AskDescription: string := "\U{1F4DD} Now send me the **description**."
  const AskPhoto: string :=
    "\U{1F5BC}\U{FE0F} Send me a **photo for the post** or type `skip` to continue without image."
  const PhotoAgain: string := "\U{274C} Please send a photo or type `skip`."
  const AskButtonName: string := "\U{1F518} Enter the **button text**."
  const AskButtonUrl: string := "\U{1F517} Enter the **button URL**."
  const Cancelled: string := "\U{274C} Post creation cancelled."

  /** The handler functions of the bot. */
  datatype Handler =
    | StartPost | GetTitle | GetDescription | GetPhoto | SkipPhoto
    | GetButtonName | GetButtonUrl | Cancel

  datatype Entry = Entry(filter: Filter, handler: Handler)

  /** `entry_points`: tried only when no conversation is running. */
  const EntryPoints: seq<Entry> := [Entry(CommandIs("create_post"), StartPost)]

  /** `states`: the handlers listed for each conversation state. */
  function StateHandlers(s: State): seq<Entry> {
    match s
    case Idle => []
    case Title => [Entry(TextNotCommand, GetTitle)]
    case Description => [Entry(TextNotCommand, GetDescription)]
    case PhotoStep => [Entry(PhotoAttached, GetPhoto), Entry(SkipPattern, SkipPhoto)]
    case ButtonName => [Entry(TextNotCommand, GetButtonName)]
    case ButtonUrl => [Entry(TextNotCommand, GetButtonUrl)]
  }

  /** `fallbacks`: tried when no handler of the current state matches. */
  const Fallbacks: seq<Entry> := [Entry(CommandIs("cancel"), Cancel)]

  /** The handler of the first entry whose filter matches `e`. */
  function FirstMatch(entries: seq<Entry>, e: Event): Option<Handler> {
    if entries == [] then None
    else if Matches(entries[0].filter, e) then Some(entries[0].handler)
    else FirstMatch(entries[1..], e)
  }

  /** `FirstMatch` finds a handler exactly when some entry matches, and then
      it is the handler of the earliest matching entry. */
  lemma {:induction false} FirstMatchIsEarliest(entries: seq<Entry>, e: Event)
    ensures var r := FirstMatch(entries, e);
      (r.None? <==> forall i :: 0 <= i < |entries| ==> !Matches(entries[i].filter, e)) &&
      (r.Some? ==>
        exists i :: 0 <= i < |entries| && entries[i].handler == r.value &&
          Matches(entries[i].filter, e) &&
          forall j :: 0 <= j < i ==> !Matches(entries[j].filter, e))
  {
    if entries != [] && !Matches(entries[0].filter, e) {
      FirstMatchIsEarliest(entries[1..], e);
      assert forall i :: 1 <= i < |entries| ==> entries[i] == entries[1..][i - 1];
      var r := FirstMatch(entries, e);
      if r.Some? {
        var k :| 0 <= k < |entries[1..]| && entries[1..][k].handler == r.value &&
          Matches(entries[1..][k].filter, e) &&
          forall j :: 0 <= j < k ==> !Matches(entries[1..][j].filter, e);
        assert entries[k + 1] == entries[1..][k];
        assert forall j :: 0 <= j < k + 1 ==> !Matches(entries[j].filter, e) by {
          forall j | 0 <= j < k + 1 ensures !Matches(entries[j].filter, e) {
            if j > 0 { assert entries[j] == entries[1..][j - 1]; }
          }
        }
      }
    }
  }

  /** The handler the conversation runs for `e` in state `s`, if any. */
  function Route(s: State, e: Event): Option<Handler> {
    if s == Idle then FirstMatch(EntryPoints, e)
    else FirstMatch(StateHandlers(s) + Fallbacks, e)
  }

  /** What a handler gives back to the conversation: the next state and
      the replies it sent, or a `KeyError` for a key it looked up. */
  datatype HandlerResult =
    | Returned(next: State, out: seq<Action>)
    | Raised(missingKey: string)

  /** A handler's effect: the scratch dictionary afterwards, and its result. */
  datatype Effect = Effect(data: UserData, result: HandlerResult)

  /** The caption of the post: the title in bold, a blank line, the description. */
  function Caption(title: PyStr, description: PyStr): string {
    "**" + Show(title) + "**\n\n" + Show(description)
  }

  /** The send that ends the wizard, built from the scratch dictionary in the
      order the lookups happen; the first missing key is the `KeyError`. */
  function Publish(data: UserData): Result<Action, string> {
    if "button_name" !in data then Failure("button_name")
    else if "button_url" !in data then Failure("button_url")
    else if "title" !in data then Failure("title")
    else if "description" !in data then Failure("description")
    else if "photo" !in data then Failure("photo")
    else
      var markup := [[Button(data["button_name"], data["button_url"])]];
      var text := Caption(data["title"], data["description"]);
      if Truthy(data["photo"]) then Success(SendPhoto(data["photo"].value, text, markup))
      else Success(SendText(text, markup))
  }

  /** What running handler `h` on event `e` does. */
  function Apply(h: Handler, data: UserData, e: Event): Effect {
    match h
    case StartPost =>
      Effect(data, Returned(Title, [ReplyText(AskTitle)]))
    case GetTitle =>
      Effect(data["title" := MessageText(e)], Returned(Description, [ReplyText(AskDescription)]))
    case GetDescription =>
      Effect(data["description" := MessageText(e)], Returned(PhotoStep, [ReplyText(AskPhoto)]))
    case GetPhoto =>
      if e.Photo? && e.fileIds != [] then
        Effect(data["photo" := Some(e.fileIds[|e.fileIds| - 1])],
               Returned(ButtonName, [ReplyText(AskButtonName)]))
      else
        Effect(data, Returned(PhotoStep, [ReplyText(PhotoAgain)]))
    case SkipPhoto =>
      Effect(data["photo" := None], Returned(ButtonName, [ReplyText(AskButtonName)]))
    case GetButtonName =>
      Effect(data["button_name" := MessageText(e)], Returned(ButtonUrl, [ReplyText(AskButtonUrl)]))
    case GetButtonUrl =>
      var data' := data["button_url" := MessageText(e)];
      (match Publish(data')
       case Success(send) => Effect(data', Returned(Idle, [send]))
       case Failure(key) => Effect(data', Raised(key)))
    case Cancel =>
      Effect(data, Returned(Idle, [ReplyText(Cancelled)]))
  }

  /** The result of one event: the new configuration, what was sent, and
      the key of a `KeyError` that escaped the handler, if any. */
  datatype Outcome = Outcome(after: Config, out: seq<Action>, raised: Option<string>)

  /** One event through the conversation handler. An unmatched event changes
      nothing; a handler that raises leaves the state where it was. */
  function Dispatch(c: Config, e: Event): Outcome {
    match Route(c.state, e)
    case None => Outcome(c, [], None)
    case Some(h) =>
      var eff := Apply(h, c.data, e);
      match eff.result
      case Returned(next, out) => Outcome(Config(next, eff.data), out, None)
      case Raised(key) => Outcome(Config(c.state, eff.data), [], Some(key))
  }

  /** The configuration after a sequence of events. */
  function Run(c: Config, events: seq<Event>): Config
    decreases |events|
  {
    if events == [] then c else Run(Dispatch(c, events[0]).after, events[1..])
  }

  /** Everything sent while handling a sequence of events. */
  function Emitted(c: Config, events: seq<Event>): seq<Action>
    decreases |events|
  {
    if events == [] then []
    else Dispatch(c, events[0]).out + Emitted(Dispatch(c, events[0]).after, events[1..])
  }

  /** The key of the scratch dictionary a handler assigns, if any. */
  function KeyOf(h: Handler): Option<string> {
    match h
    case GetTitle => Some("title")
    case GetDescription => Some("description")
    case GetPhoto => Some("photo")
    case SkipPhoto => Some("photo")
    case GetButtonName => Some("button_name")
    case GetButtonUrl => Some("button_url")
    case _ => None
  }

  /** The keys assigned while handling `e` in configuration `c`. */
  function Assigned(c: Config, e: Event): set<string> {
    match Route(c.state, e)
    case None => {}
    case Some(h) =>
      if h == GetPhoto && !(e.Photo? && e.fileIds != []) then {}
      else match KeyOf(h) case Some(k) => {k} case None => {}
  }

  /** The keys a conversation has assigned by the time it is waiting in `s`. */
  function KeysBefore(s: State): set<string> {
    match s
    case Idle => {}
    case Title => {}
    case Description => {"title"}
    case PhotoStep => {"title", "description"}
    case ButtonName => {"title", "description", "photo"}
    case ButtonUrl => {"title", "description", "photo", "button_name"}
  }

  /** The keys assigned in the current conversation after `events`, starting
      from `c` with `w` already assigned: the set restarts whenever an event
      arrives while no conversation is running. */
  function Written(c: Config, w: set<string>, events: seq<Event>): set<string>
    decreases |events|
  {
    if events == [] then w
    else
      var w' := if c.state == Idle then {} else w + Assigned(c, events[0]);
      Written(Dispatch(c, events[0]).after, w', events[1..])
  }

  /** Every key the current step's predecessors assigned is present. */
  predicate Ready(c: Config) {
    KeysBefore(c.state) <= c.data.Keys
  }
}
