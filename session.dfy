/** One user's conversation with the bot, as the object the library keeps:
    the conversation state and the scratch dictionary `context.user_data`,
    both updated in place. Each handler is a method that writes its key of
    the dictionary and returns the next state; `Step` is the conversation
    handler, which routes an event to a handler and records the state the
    handler returns. */
module PostSession {
  import opened Values
  import opened Telegram
  import opened Wizard
  import WizardProperties

  class Session {
    var state: State
    var userData: UserData

    function Current(): Config
      reads this
    {
      Config(state, userData)
    }

    /** The keys of the steps already passed are in the dictionary. */
    ghost predicate Valid()
      reads this
    {
      Ready(Current())
    }

    /** No conversation yet, and an empty dictionary. */
    constructor ()
      ensures Valid()
      ensures state == Idle && userData == map[]
    {
      state := Idle;
      userData := map[];
    }

    method StartPost(e: Event) returns (r: HandlerResult)
      ensures r == Returned(Title, [ReplyText(AskTitle)])
    {
      r := Returned(Title, [ReplyText(AskTitle)]);
    }

    method GetTitle(e: Event) returns (r: HandlerResult)
      modifies this`userData
      ensures userData == old(userData)["title" := MessageText(e)]
      ensures r == Returned(Description, [ReplyText(AskDescription)])
    {
      userData := userData["title" := MessageText(e)];
      r := Returned(Description, [ReplyText(AskDescription)]);
    }

    method GetDescription(e: Event) returns (r: HandlerResult)
      modifies this`userData
      ensures userData == old(userData)["description" := MessageText(e)]
      ensures r == Returned(PhotoStep, [ReplyText(AskPhoto)])
    {
      userData := userData["description" := MessageText(e)];
      r := Returned(PhotoStep, [ReplyText(AskPhoto)]);
    }

    /** A photo message stores the file id of its last size; anything else
        is asked again. */
    method GetPhoto(e: Event) returns (r: HandlerResult)
      modifies this`userData
      ensures if e.Photo? && e.fileIds != [] then
          userData == old(userData)["photo" := Some(e.fileIds[|e.fileIds| - 1])] &&
          r == Returned(ButtonName, [ReplyText(AskButtonName)])
        else
          userData == old(userData) && r == Returned(PhotoStep, [ReplyText(PhotoAgain)])
    {
      if e.Photo? && e.fileIds != [] {
        var photoFile := e.fileIds[|e.fileIds| - 1];
        userData := userData["photo" := Some(photoFile)];
        r := Returned(ButtonName, [ReplyText(AskButtonName)]);
        return;
      }
      r := Returned(PhotoStep, [ReplyText(PhotoAgain)]);
    }

    method SkipPhoto(e: Event) returns (r: HandlerResult)
      modifies this`userData
      ensures userData == old(userData)["photo" := None]
      ensures r == Returned(ButtonName, [ReplyText(AskButtonName)])
    {
      userData := userData["photo" := None];
      r := Returned(ButtonName, [ReplyText(AskButtonName)]);
    }

    method GetButtonName(e: Event) returns (r: HandlerResult)
      modifies this`userData
      ensures userData == old(userData)["button_name" := MessageText(e)]
      ensures r == Returned(ButtonUrl, [ReplyText(AskButtonUrl)])
    {
      userData := userData["button_name" := MessageText(e)];
      r := Returned(ButtonUrl, [ReplyText(AskButtonUrl)]);
    }

    /** Stores the URL, then looks up the other answers in the order the bot
        does and sends the post; a missing key raises `KeyError`. */
    method GetButtonUrl(e: Event) returns (r: HandlerResult)
      modifies this`userData
      ensures userData == old(userData)["button_url" := MessageText(e)]
      ensures r == match Publish(userData)
                   case Success(send) => Returned(Idle, [send])
                   case Failure(key) => Raised(key)
    {
      userData := userData["button_url" := MessageText(e)];
      if "button_name" !in userData {
        return Raised("button_name");
      }
      var button := Button(userData["button_name"], userData["button_url"]);
      var markup := [[button]];
      if "title" !in userData {
        return Raised("title");
      }
      if "description" !in userData {
        return Raised("description");
      }
      var messageText := Caption(userData["title"], userData["description"]);
      if "photo" !in userData {
        return Raised("photo");
      }
      if Truthy(userData["photo"]) {
        r := Returned(Idle, [SendPhoto(userData["photo"].value, messageText, markup)]);
      } else {
        r := Returned(Idle, [SendText(messageText, markup)]);
      }
    }

    method Cancel(e: Event) returns (r: HandlerResult)
      ensures r == Returned(Idle, [ReplyText(Cancelled)])
    {
      r := Returned(Idle, [ReplyText(Cancelled)]);
    }

    /** Handles one event: the routed handler runs and the conversation moves
        to the state it returns; an event no handler takes changes nothing.
        The object invariant rules out the `KeyError`. */
    method Step(e: Event) returns (out: seq<Action>)
      requires Valid()
      modifies this
      ensures Valid()
      ensures Dispatch(old(Current()), e) == Outcome(Current(), out, None)
    {
      WizardProperties.DispatchKeepsReady(Current(), e);
      var handler := Route(state, e);
      if handler.None? {
        return [];
      }
      var r: HandlerResult;
      match handler.value {
        case StartPost => r := StartPost(e);
        case GetTitle => r := GetTitle(e);
        case GetDescription => r := GetDescription(e);
        case GetPhoto => r := GetPhoto(e);
        case SkipPhoto => r := SkipPhoto(e);
        case GetButtonName => r := GetButtonName(e);
        case GetButtonUrl => r := GetButtonUrl(e);
        case Cancel => r := Cancel(e);
      }
      match r {
        case Returned(next, replies) =>
          state := next;
          out := replies;
        case Raised(_) =>
          out := [];
      }
    }
  }
}
