/** What the wizard promises: how each state treats each kind of event,
    which key each handler writes, how a conversation collects its fields,
    and what the final post looks like. */
module WizardProperties {
  import opened Values
  import opened Telegram
  import opened Wizard

  /** The state that follows a text-collecting state. */
  function Successor(s: State): State {
    match s
    case Title => Description
    case Description => PhotoStep
    case ButtonName => ButtonUrl
    case _ => Idle
  }

  /** The key a text-collecting state stores its answer under. */
  function FieldOf(s: State): string {
    match s
    case Title => "title"
    case Description => "description"
    case ButtonName => "button_name"
    case _ => "button_url"
  }

  /** The prompt the wizard sends on entering `s`. */
  function PromptFor(s: State): string {
    match s
    case Title => AskTitle
    case Description => AskDescription
    case PhotoStep => AskPhoto
    case ButtonName => AskButtonName
    case _ => AskButtonUrl
  }

  function KeySet(h: Handler): set<string> {
    match KeyOf(h)
    case Some(k) => {k}
    case None => {}
  }

  /** The routing table written out per state: which handler, if any, runs
      for an event. Handlers are tried in listed order, `/cancel` only when
      none of the state's handlers matches. */
  function Routed(s: State, e: Event): Option<Handler> {
    var cancel := if IsCommand(e, "cancel") then Some(Cancel) else None;
    var text := e.Text? && e.text != "";
    match s
    case Idle => if IsCommand(e, "create_post") then Some(StartPost) else None
    case Title => if text then Some(GetTitle) else cancel
    case Description => if text then Some(GetDescription) else cancel
    case PhotoStep =>
      if e.Photo? && e.fileIds != [] then Some(GetPhoto)
      else if e.Text? && SkipRegexMatches(e.text) then Some(SkipPhoto)
      else cancel
    case ButtonName => if text then Some(GetButtonName) else cancel
    case ButtonUrl => if text then Some(GetButtonUrl) else cancel
  }

  lemma FirstMatchCons(x: Entry, rest: seq<Entry>, e: Event)
    ensures FirstMatch([x] + rest, e) ==
      if Matches(x.filter, e) then Some(x.handler) else FirstMatch(rest, e)
  {
    assert ([x] + rest)[1..] == rest;
  }

  /** No command's text is a skip word. */
  lemma CommandIsNotSkip(name: string)
    ensures !SkipRegexMatches("/" + name)
  {
    assert ("/" + name)[0] == '/';
  }

  /** The table-driven routing agrees with the table written out. */
  lemma RouteTable(s: State, e: Event)
    ensures Route(s, e) == Routed(s, e)
  {
    if e.Command? {
      CommandIsNotSkip(e.name);
    }
    var cancel := Entry(CommandIs("cancel"), Cancel);
    FirstMatchCons(cancel, [], e);
    assert [cancel] + [] == Fallbacks;
    match s
    case Idle =>
      FirstMatchCons(Entry(CommandIs("create_post"), StartPost), [], e);
      assert [Entry(CommandIs("create_post"), StartPost)] + [] == EntryPoints;
    case PhotoStep =>
      var skip := Entry(SkipPattern, SkipPhoto);
      assert StateHandlers(s) + Fallbacks == [Entry(PhotoAttached, GetPhoto)] + ([skip] + [cancel]);
      FirstMatchCons(Entry(PhotoAttached, GetPhoto), [skip] + [cancel], e);
      FirstMatchCons(skip, [cancel], e);
    case _ =>
      assert StateHandlers(s) + Fallbacks == [StateHandlers(s)[0]] + [cancel];
      FirstMatchCons(StateHandlers(s)[0], [cancel], e);
  }

  /** Outside a conversation only `/create_post` (in any letter case) does
      anything, and it always opens the wizard at the title step without
      touching the stored data. */
  lemma EntryOnlyByCreatePost(data: UserData, e: Event)
    ensures var o := Dispatch(Config(Idle, data), e);
      if IsCommand(e, "create_post") then
        o == Outcome(Config(Title, data), [ReplyText(AskTitle)], None)
      else
        o == Outcome(Config(Idle, data), [], None)
  {
    RouteTable(Idle, e);
  }

  /** `/cancel`, in any letter case, ends any running conversation with the
      cancellation reply, and changes nothing else. */
  lemma CancelEndsConversation(c: Config, e: Event)
    requires c.state != Idle && IsCommand(e, "cancel")
    ensures Dispatch(c, e) == Outcome(Config(Idle, c.data), [ReplyText(Cancelled)], None)
  {
    RouteTable(c.state, e);
  }

  /** Two commands whose names differ only in letter case are handled the
      same way in every configuration. */
  lemma CommandIgnoresCase(c: Config, a: string, b: string)
    requires Lower(a) == Lower(b)
    ensures Dispatch(c, Command(a)) == Dispatch(c, Command(b))
  {
    RouteTable(c.state, Command(a));
    RouteTable(c.state, Command(b));
  }

  /** A capitalised `/Create_Post` opens the wizard, and `/Cancel` or
      `/CANCEL` cancels it. */
  lemma CapitalisedCommands(data: UserData)
    ensures Dispatch(Config(Idle, data), Command("Create_Post")) ==
      Outcome(Config(Title, data), [ReplyText(AskTitle)], None)
    ensures Dispatch(Config(Title, data), Command("Cancel")) ==
      Outcome(Config(Idle, data), [ReplyText(Cancelled)], None)
    ensures Dispatch(Config(ButtonUrl, data), Command("CANCEL")) ==
      Outcome(Config(Idle, data), [ReplyText(Cancelled)], None)
  {
    assert Lower("Create_Post") == "create_post";
    assert Lower("Cancel") == "cancel";
    assert Lower("CANCEL") == "cancel";
    EntryOnlyByCreatePost(data, Command("Create_Post"));
    CancelEndsConversation(Config(Title, data), Command("Cancel"));
    CancelEndsConversation(Config(ButtonUrl, data), Command("CANCEL"));
  }

  /** In the title, description and button-text steps, a non-empty plain
      text is stored verbatim under the step's key and the wizard moves one
      step on; `/cancel` in any letter case cancels; any other event (another command, a photo,
      an empty text) is ignored. */
  lemma TextStepStoresVerbatim(c: Config, e: Event)
    requires c.state == Title || c.state == Description || c.state == ButtonName
    ensures var o := Dispatch(c, e);
      if e.Text? && e.text != "" then
        o == Outcome(Config(Successor(c.state), c.data[FieldOf(c.state) := Some(e.text)]),
                     [ReplyText(PromptFor(Successor(c.state)))], None)
      else if IsCommand(e, "cancel") then
        o == Outcome(Config(Idle, c.data), [ReplyText(Cancelled)], None)
      else
        o == Outcome(c, [], None)
  {
    RouteTable(c.state, e);
  }

  /** In the button-URL step, a non-empty plain text is stored verbatim as
      the URL; then the post is published and the conversation ends, or a
      lookup of a missing key fails and the state stays. Other events are
      handled as in the other text steps. */
  lemma ButtonUrlStoresVerbatim(c: Config, e: Event)
    requires c.state == ButtonUrl
    ensures var o := Dispatch(c, e);
      if e.Text? && e.text != "" then
        var d := c.data["button_url" := Some(e.text)];
        o.after.data == d &&
        match Publish(d)
        case Success(send) => o == Outcome(Config(Idle, d), [send], None)
        case Failure(key) => o == Outcome(Config(ButtonUrl, d), [], Some(key))
      else if IsCommand(e, "cancel") then
        o == Outcome(Config(Idle, c.data), [ReplyText(Cancelled)], None)
      else
        o == Outcome(c, [], None)
  {
    RouteTable(c.state, e);
  }

  /** In the photo step a photo stores the file id of its last (largest)
      size; exactly `skip` or `Skip` (with at most one trailing newline,
      as Python's `$` allows) stores `None`; both move on to the button
      text. `/cancel` cancels; anything else is ignored. */
  lemma PhotoStepChoices(c: Config, e: Event)
    requires c.state == PhotoStep
    ensures var o := Dispatch(c, e);
      if e.Photo? && e.fileIds != [] then
        o == Outcome(Config(ButtonName, c.data["photo" := Some(e.fileIds[|e.fileIds| - 1])]),
                     [ReplyText(AskButtonName)], None)
      else if e.Text? && e.text in {"skip", "Skip", "skip\n", "Skip\n"} then
        o == Outcome(Config(ButtonName, c.data["photo" := None]), [ReplyText(AskButtonName)], None)
      else if IsCommand(e, "cancel") then
        o == Outcome(Config(Idle, c.data), [ReplyText(Cancelled)], None)
      else
        o == Outcome(c, [], None)
  {
    RouteTable(c.state, e);
  }

  /** Near misses of the skip word are ignored in the photo step. */
  lemma SkipIsCaseSensitive(c: Config)
    requires c.state == PhotoStep
    ensures Dispatch(c, Text("SKIP")) == Outcome(c, [], None)
    ensures Dispatch(c, Text("skip it")) == Outcome(c, [], None)
    ensures Dispatch(c, Command("skip")) == Outcome(c, [], None)
  {
    RouteTable(c.state, Text("SKIP"));
    RouteTable(c.state, Text("skip it"));
    RouteTable(c.state, Command("skip"));
  }

  /** The "please send a photo" reply of `get_photo` is never sent: the
      routing table only calls `get_photo` for a message with a photo. */
  lemma PhotoAgainUnreachable(c: Config, e: Event)
    ensures ReplyText(PhotoAgain) !in Dispatch(c, e).out
  {
    RouteTable(c.state, e);
  }

  /** Each handler assigns at most its own key; every other key of the
      scratch dictionary keeps its presence and its value. */
  lemma HandlerWritesOnlyItsKey(h: Handler, data: UserData, e: Event)
    ensures var d := Apply(h, data, e).data;
      d - KeySet(h) == data - KeySet(h) &&
      (h == StartPost || h == Cancel ==> d == data)
  {
  }

  /** Handling one event changes the scratch dictionary only at the keys
      it assigns, and assigns at most one key. */
  lemma DispatchWritesOnlyAssigned(c: Config, e: Event)
    ensures var d := Dispatch(c, e).after.data;
      |Assigned(c, e)| <= 1 &&
      Assigned(c, e) <= d.Keys &&
      d - Assigned(c, e) == c.data - Assigned(c, e)
  {
  }

  /** Within a conversation, the keys assigned so far are exactly those of
      the steps already passed, and all of them are present. */
  predicate InConversation(c: Config, w: set<string>) {
    c.state != Idle ==> w == KeysBefore(c.state) && w <= c.data.Keys
  }

  lemma DispatchKeepsConversation(c: Config, w: set<string>, e: Event)
    requires InConversation(c, w)
    ensures InConversation(Dispatch(c, e).after,
                           if c.state == Idle then {} else w + Assigned(c, e))
  {
    RouteTable(c.state, e);
  }

  /** Every run keeps `InConversation`, with the keys of the current
      conversation counted afresh from each start of the wizard. */
  lemma {:induction false} RunKeepsConversation(c: Config, w: set<string>, events: seq<Event>)
    requires InConversation(c, w)
    ensures InConversation(Run(c, events), Written(c, w, events))
    decreases |events|
  {
    if events != [] {
      var w' := if c.state == Idle then {} else w + Assigned(c, events[0]);
      DispatchKeepsConversation(c, w, events[0]);
      RunKeepsConversation(Dispatch(c, events[0]).after, w', events[1..]);
    }
  }

  /** Whatever the user sent before, and whatever the scratch dictionary held
      from earlier conversations: when the button-URL step is reached, the
      title, description, photo and button text were all assigned in this
      conversation, so handling the next event raises no `KeyError`. */
  lemma FieldsSetBeforeFinalStep(data: UserData, events: seq<Event>, e: Event)
    requires Run(Config(Idle, data), events).state == ButtonUrl
    ensures Written(Config(Idle, data), {}, events) == {"title", "description", "photo", "button_name"}
    ensures Written(Config(Idle, data), {}, events) <= Run(Config(Idle, data), events).data.Keys
    ensures Dispatch(Run(Config(Idle, data), events), e).raised == None
  {
    RunKeepsConversation(Config(Idle, data), {}, events);
  }

  /** A configuration whose earlier steps' keys are present stays so after
      any event, and no handler raises a `KeyError` on the way. */
  lemma DispatchKeepsReady(c: Config, e: Event)
    requires Ready(c)
    ensures Ready(Dispatch(c, e).after)
    ensures Dispatch(c, e).raised == None
  {
    RouteTable(c.state, e);
  }

  /** The final step sends exactly one message and ends the conversation:
      a photo with caption when the stored photo is truthy, a plain text
      otherwise; the text is the bold title, a blank line and the
      description; the keyboard is the one button (button text, URL). */
  lemma FinalStepSendsPost(c: Config, e: Event)
    requires Ready(c) && c.state == ButtonUrl
    requires e.Text? && e.text != ""
    ensures var o := Dispatch(c, e);
      var d := c.data;
      var text := Caption(d["title"], d["description"]);
      var markup := [[Button(d["button_name"], Some(e.text))]];
      o.after == Config(Idle, d["button_url" := Some(e.text)]) &&
      o.raised == None &&
      |o.out| == 1 && IsSend(o.out[0]) &&
      (o.out[0].SendPhoto? <==> Truthy(d["photo"])) &&
      o.out[0] == if Truthy(d["photo"]) then SendPhoto(d["photo"].value, text, markup)
                  else SendText(text, markup)
  {
  }

  /** What the photo step stores for a photo or a skip word. */
  function StoredPhoto(media: Event): PyStr {
    if media.Photo? && media.fileIds != [] then Some(media.fileIds[|media.fileIds| - 1]) else None
  }

  /** The scratch dictionary after the five answers. */
  function Answered(data: UserData, title: string, description: string, media: Event,
                    name: string, url: string): UserData
  {
    data["title" := Some(title)]["description" := Some(description)]["photo" := StoredPhoto(media)]
        ["button_name" := Some(name)]["button_url" := Some(url)]
  }

  /** The post for the given answers. */
  function PostOf(title: string, description: string, photo: PyStr, name: string, url: string): Action {
    var text := Caption(Some(title), Some(description));
    var markup := [[Button(Some(name), Some(url))]];
    if Truthy(photo) then SendPhoto(photo.value, text, markup) else SendText(text, markup)
  }

  /** The events of a whole conversation: the entry command and five answers. */
  function ConversationEvents(title: string, description: string, media: Event,
                              name: string, url: string): seq<Event>
  {
    [Command("create_post"), Text(title), Text(description), media, Text(name), Text(url)]
  }

  /** The configurations a whole conversation passes through. */
  function ConversationStages(data: UserData, title: string, description: string, media: Event,
                              name: string, url: string): seq<Config>
  {
    var d1 := data["title" := Some(title)];
    var d2 := d1["description" := Some(description)];
    var d3 := d2["photo" := StoredPhoto(media)];
    var d4 := d3["button_name" := Some(name)];
    [Config(Idle, data), Config(Title, data), Config(Description, d1), Config(PhotoStep, d2),
     Config(ButtonName, d3), Config(ButtonUrl, d4),
     Config(Idle, Answered(data, title, description, media, name, url))]
  }

  /** What each step of a whole conversation sends. */
  function ConversationReplies(title: string, description: string, media: Event,
                               name: string, url: string): seq<seq<Action>>
  {
    [[ReplyText(AskTitle)], [ReplyText(AskDescription)], [ReplyText(AskPhoto)],
     [ReplyText(AskButtonName)], [ReplyText(AskButtonUrl)],
     [PostOf(title, description, StoredPhoto(media), name, url)]]
  }

  /** Step `i` of a whole conversation. */
  lemma ConversationStep(data: UserData, title: string, description: string,
                         media: Event, name: string, url: string, i: nat)
    requires title != "" && description != "" && name != "" && url != ""
    requires (media.Photo? && media.fileIds != []) || (media.Text? && SkipRegexMatches(media.text))
    requires i < 6
    ensures var cs := ConversationStages(data, title, description, media, name, url);
      Dispatch(cs[i], ConversationEvents(title, description, media, name, url)[i]) ==
        Outcome(cs[i + 1], ConversationReplies(title, description, media, name, url)[i], None)
  {
    var cs := ConversationStages(data, title, description, media, name, url);
    var es := ConversationEvents(title, description, media, name, url);
    match i
    case 0 =>
      LowerKeepsLowerCase("create_post");
      EntryOnlyByCreatePost(data, es[0]);
    case 1 => TextStepStoresVerbatim(cs[1], es[1]);
    case 2 => TextStepStoresVerbatim(cs[2], es[2]);
    case 3 => PhotoStepChoices(cs[3], es[3]);
    case 4 => TextStepStoresVerbatim(cs[4], es[4]);
    case 5 => FinalStepSendsPost(cs[5], es[5]);
  }

  /** A whole conversation from `/create_post` to the button URL collects
      the five answers under their keys, sends the five prompts in order and
      then exactly one post: a photo with caption when a photo was sent, a
      plain text when the photo was skipped. */
  lemma CompleteConversation(data: UserData, title: string, description: string,
                             media: Event, name: string, url: string)
    requires title != "" && description != "" && name != "" && url != ""
    requires (media.Photo? && media.fileIds != []) || (media.Text? && SkipRegexMatches(media.text))
    ensures var events := ConversationEvents(title, description, media, name, url);
      Run(Config(Idle, data), events) == Config(Idle, Answered(data, title, description, media, name, url)) &&
      Emitted(Config(Idle, data), events) ==
        [ReplyText(AskTitle), ReplyText(AskDescription), ReplyText(AskPhoto),
         ReplyText(AskButtonName), ReplyText(AskButtonUrl),
         PostOf(title, description, StoredPhoto(media), name, url)]
  {
    var cs := ConversationStages(data, title, description, media, name, url);
    var es := ConversationEvents(title, description, media, name, url);
    var outs := ConversationReplies(title, description, media, name, url);
    assert Run(cs[0], es) == cs[6] && Emitted(cs[0], es) == Flatten(outs) by {
      forall i | 0 <= i < 6
        ensures Dispatch(cs[i], es[i]) == Outcome(cs[i + 1], outs[i], None)
      {
        ConversationStep(data, title, description, media, name, url, i);
      }
      RunThrough(cs, es, outs);
    }
    assert Flatten(outs) == outs[0] + outs[1] + outs[2] + outs[3] + outs[4] + outs[5] by {
      FlattenSix(outs);
    }
  }

  lemma FlattenSix(outs: seq<seq<Action>>)
    requires |outs| == 6
    ensures Flatten(outs) == outs[0] + outs[1] + outs[2] + outs[3] + outs[4] + outs[5]
  {
    assert outs[5..][1..] == [];
    assert Flatten(outs[5..]) == outs[5];
    assert outs[4..][1..] == outs[5..];
    assert Flatten(outs[4..]) == outs[4] + outs[5];
    assert outs[3..][1..] == outs[4..];
    assert Flatten(outs[3..]) == outs[3] + outs[4] + outs[5];
    assert outs[2..][1..] == outs[3..];
    assert Flatten(outs[2..]) == outs[2] + outs[3] + outs[4] + outs[5];
    assert outs[1..][1..] == outs[2..];
    assert Flatten(outs[1..]) == outs[1] + outs[2] + outs[3] + outs[4] + outs[5];
  }

  /** All the actions of a list of replies, in order. */
  function Flatten(outs: seq<seq<Action>>): seq<Action>
    decreases |outs|
  {
    if outs == [] then [] else outs[0] + Flatten(outs[1..])
  }

  /** A run that passes through the configurations `cs`, the i-th event
      leading from `cs[i]` to `cs[i + 1]` with replies `outs[i]`, ends in the
      last of them and emits all those replies in order. */
  lemma {:induction false} RunThrough(cs: seq<Config>, es: seq<Event>, outs: seq<seq<Action>>)
    requires |cs| == |es| + 1 && |outs| == |es|
    requires forall i :: 0 <= i < |es| ==> Dispatch(cs[i], es[i]) == Outcome(cs[i + 1], outs[i], None)
    ensures Run(cs[0], es) == cs[|es|]
    ensures Emitted(cs[0], es) == Flatten(outs)
    decreases |es|
  {
    if es != [] {
      RunThrough(cs[1..], es[1..], outs[1..]);
    }
  }

  /** Title "Sale", description "50% off", the photo skipped, button "Shop"
      to https://x.test: the post goes out as the text below. */
  lemma SkippedPhotoExample(data: UserData, events: seq<Event>)
    requires events == ConversationEvents("Sale", "50% off", Text("skip"), "Shop", "https://x.test")
    ensures Run(Config(Idle, data), events).state == Idle
    ensures Emitted(Config(Idle, data), events) ==
        [ReplyText(AskTitle), ReplyText(AskDescription), ReplyText(AskPhoto),
         ReplyText(AskButtonName), ReplyText(AskButtonUrl),
         SendText("**Sale**\n\n50% off", [[Button(Some("Shop"), Some("https://x.test"))]])]
  {
    var post := PostOf("Sale", "50% off", StoredPhoto(Text("skip")), "Shop", "https://x.test");
    assert post == SendText("**Sale**\n\n50% off", [[Button(Some("Shop"), Some("https://x.test"))]]);
    assert SkipRegexMatches("skip");
    CompleteConversation(data, "Sale", "50% off", Text("skip"), "Shop", "https://x.test");
  }

  /** The same conversation with a photo in two sizes: the post goes out as
      a photo with the larger size's file id. */
  lemma PhotoExample(data: UserData, events: seq<Event>)
    requires events == ConversationEvents("Sale", "50% off", Photo(["small", "large"]), "Shop", "https://x.test")
    ensures Run(Config(Idle, data), events).state == Idle
    ensures Emitted(Config(Idle, data), events) ==
        [ReplyText(AskTitle), ReplyText(AskDescription), ReplyText(AskPhoto),
         ReplyText(AskButtonName), ReplyText(AskButtonUrl),
         SendPhoto("large", "**Sale**\n\n50% off", [[Button(Some("Shop"), Some("https://x.test"))]])]
  {
    var post := PostOf("Sale", "50% off", StoredPhoto(Photo(["small", "large"])), "Shop", "https://x.test");
    assert post == SendPhoto("large", "**Sale**\n\n50% off", [[Button(Some("Shop"), Some("https://x.test"))]]);
    CompleteConversation(data, "Sale", "50% off", Photo(["small", "large"]), "Shop", "https://x.test");
  }
}
