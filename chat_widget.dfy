/** chat-widget.js: the simple chat widget. It uses the host page's
    `window.ChatWidgetConfig` as it is, or its own defaults when there is
    none; it greets with the welcome text on first opening, sends each
    message with its route, and shows the webhook's `reply`. */
module ChatWidget {
  import opened JsValues
  import opened JsText
  import opened Exchange

  const DefaultConfig: Value :=
    Obj(map[
      "webhook" := Obj(map[
        "url" := Str("https://primary-production-6a14.up.railway.app/webhook/32018f08-0544-4a99-b68b-08a9591c9c25/chat"),
        "route" := Str("general")]),
      "branding" := Obj(map[
        "logo" := Str("https://assets.zyrosite.com/dJo5B912eBsrJD3M/0_0000a1_-mnlqWPq6x6Uv4ZD4.png"),
        "name" := Str("ProsesAI"),
        "welcomeText" := Str("Hi \U{1F44B}, how can we help?"),
        "responseTimeText" := Str("We typically respond right away")]),
      "style" := Obj(map[
        "primaryColor" := Str("#0079ad"), "secondaryColor" := Str("#005b82"),
        "position" := Str("right"), "backgroundColor" := Str("#ffffff"),
        "fontColor" := Str("#333333")])])

  const ErrorReply: string := "Maaf, terjadi kesalahan. Silakan coba lagi."

  /** `window.ChatWidgetConfig || defaults`: the host value whole when it
      is truthy, with no per-field merge, so a group or a setting the host
      leaves out stays out. */
  function SelectConfig(host: Value): (config: Value)
    ensures Truthy(config)
    ensures Truthy(host) ==> config == host
    ensures !Truthy(host) ==> config == DefaultConfig
  {
    if Truthy(host) then host else DefaultConfig
  }

  /** `config.<group>`; the configuration is truthy, so this never throws. */
  function Group(config: Value, group: string): Value
    requires Truthy(config)
  {
    Get(config, group).value
  }

  /** The stylesheet converts `style.primaryColor` and
      `style.backgroundColor` to text, and the markup converts
      `branding.logo` and `branding.name`. Reading a setting of a null or
      undefined group throws, and so does a setting that does not
      convert; either ends the script before any listener is attached. */
  predicate GroupsRender(style: Value, branding: Value) {
    && !Nullish(style)
    && !ConvertThrows(Get(style, "primaryColor").value)
    && !ConvertThrows(Get(style, "backgroundColor").value)
    && !Nullish(branding)
    && !ConvertThrows(Get(branding, "logo").value)
    && !ConvertThrows(Get(branding, "name").value)
  }

  predicate MountCompletes(config: Value)
    requires Truthy(config)
  {
    GroupsRender(Group(config, "style"), Group(config, "branding"))
  }

  /** The built-in defaults always mount. A truthy host value other than
      an object never mounts (its `style` reads as undefined), and a host
      object mounts exactly when it has `style` and `branding` entries
      that render. */
  lemma MountCompletesIff(host: Value)
    ensures MountCompletes(SelectConfig(host)) <==>
      || !Truthy(host)
      || (&& host.Obj? && "style" in host.fields && "branding" in host.fields
          && GroupsRender(host.fields["style"], host.fields["branding"]))
  {
    if !Truthy(host) {
      assert SelectConfig(host) == DefaultConfig;
      assert Group(DefaultConfig, "style") == DefaultConfig.fields["style"];
      assert Group(DefaultConfig, "branding") == DefaultConfig.fields["branding"];
    }
  }

  /** `config.branding.welcomeText`, whatever it holds. */
  function WelcomeText(config: Value): Value
    requires Truthy(config) && MountCompletes(config)
  {
    Get(Group(config, "branding"), "welcomeText").value
  }

  /** The request body. */
  function Payload(route: Value, message: string): (p: Value)
    ensures p.Obj? && p.fields.Keys == {"route", "message"}
    ensures Get(p, "route") == Ok(route) && Get(p, "message") == Ok(Str(message))
  {
    Obj(map["route" := route, "message" := Str(message)])
  }

  /** The messages one settled send appends. A failed call, and a body of
      null (reading `reply` from it throws inside the handler), give the
      error text; otherwise the `reply` is shown only when it is truthy. */
  function Replies(outcome: Outcome): (ms: seq<Message>)
    ensures |ms| <= 1 && forall i :: 0 <= i < |ms| ==> ms[i].sender == Bot
    ensures outcome.Failed? || Nullish(outcome.body) ==> ms == [Message(Bot, Str(ErrorReply))]
    ensures outcome.Parsed? && !Nullish(outcome.body) ==>
      (ms != [] <==> Truthy(Get(outcome.body, "reply").value))
    ensures outcome.Parsed? && !Nullish(outcome.body) && ms != [] ==>
      var reply := Get(outcome.body, "reply").value;
      ms[0].content == if ConvertThrows(reply) then Str(ErrorReply) else reply
  {
    match outcome
    case Failed => [Message(Bot, Str(ErrorReply))]
    case Parsed(data) =>
      match Get(data, "reply")
      case TypeError => [Message(Bot, Str(ErrorReply))]
      case Ok(reply) =>
        if !Truthy(reply) then []
        else if ConvertThrows(reply) then [Message(Bot, Str(ErrorReply))]
        else [Message(Bot, reply)]
  }

  /** One widget on the page, after the script has run to the end. */
  class Controller {
    const config: Value
    /** whether the modal's `style.display` is `'block'` (it starts out
        hidden by the stylesheet) */
    var shown: bool
    /** the input's value */
    var input: string
    /** the children of the messages container, oldest first */
    var log: seq<Message>
    /** the calls made to `fetch`, oldest first */
    var requests: seq<Request>
    /** sends whose outcome has not arrived yet */
    var awaiting: nat

    /** Every request follows the user message it sends (and there is one
        per user message unless `config.webhook` is null or undefined);
        the bot messages are the welcome text at most once plus at most
        one per settled request. */
    ghost predicate Valid()
      reads this
    {
      && Truthy(config) && MountCompletes(config)
      && awaiting <= |requests| <= Count(log, User)
      && (!Nullish(Group(config, "webhook")) ==> |requests| == Count(log, User))
      && Count(log, Bot) <= |requests| - awaiting + 1
    }

    constructor (host: Value)
      requires MountCompletes(SelectConfig(host))
      ensures Valid() && config == SelectConfig(host)
      ensures !shown && input == "" && log == [] && requests == [] && awaiting == 0
    {
      config := SelectConfig(host);
      shown := false;
      input := "";
      log := [];
      requests := [];
      awaiting := 0;
    }

    /** The log and the requests are as they were. */
    twostate predicate Quiet()
      reads this
    {
      log == old(log) && requests == old(requests) && awaiting == old(awaiting)
    }

    /** What `sendMessage` does before the call settles: nothing for
        blank input; otherwise the trimmed text is shown and the input
        cleared, and then the request is sent, unless reading
        `config.webhook.url` throws first. */
    twostate predicate Submitted()
      reads this
      requires Truthy(config)
    {
      var text := Trim(old(input));
      var webhook := Group(config, "webhook");
      if text == [] then input == old(input) && Quiet()
      else
        && input == ""
        && log == old(log) + [Message(User, Str(text))]
        && (Nullish(webhook) ==> requests == old(requests) && awaiting == old(awaiting))
        && (!Nullish(webhook) ==>
              && requests == old(requests)
                   + [Request(Get(webhook, "url").value, Payload(Get(webhook, "route").value, text))]
              && awaiting == old(awaiting) + 1)
    }

    /** The user edits the input. */
    method Edit(text: string)
      requires Valid()
      modifies this`input
      ensures Valid() && input == text
    {
      input := text;
    }

    /** `appendMessage`: setting `textContent` converts the value to
        text, which throws before the element is added when the
        conversion throws. */
    method AppendMessage(content: Value, sender: Sender) returns (added: bool)
      modifies this`log
      ensures added <==> !ConvertThrows(content)
      ensures log == old(log) + if added then [Message(sender, content)] else []
    {
      if ConvertThrows(content) {
        return false;
      }
      log := log + [Message(sender, content)];
      added := true;
    }

    /** The chat button's click handler: show the modal and, while the
        message list is still empty, greet with the welcome text. A
        welcome text that does not convert throws, and the list stays
        empty. */
    method ClickOpen()
      requires Valid()
      modifies this`shown, this`log
      ensures Valid() && shown
      ensures old(log) == [] && !ConvertThrows(WelcomeText(config)) ==>
        log == [Message(Bot, WelcomeText(config))]
      ensures old(log) != [] || ConvertThrows(WelcomeText(config)) ==> log == old(log)
    {
      shown := true;
      if log == [] {
        var greeted := AppendMessage(WelcomeText(config), Bot);
      }
    }

    /** The close button's click handler. */
    method ClickClose()
      requires Valid()
      modifies this`shown
      ensures Valid() && !shown
    {
      shown := false;
    }

    /** `sendMessage` up to the call to `fetch`; it is also the send
        button's click handler. */
    method SendMessage()
      requires Valid()
      modifies this`input, this`log, this`requests, this`awaiting
      ensures Valid() && Submitted()
    {
      var text := Trim(input);
      if text == [] {
        return;
      }
      var added := AppendMessage(Str(text), User);
      input := "";
      CountAppend(old(log), [Message(User, Str(text))], User);
      CountAppend(old(log), [Message(User, Str(text))], Bot);
      var webhook := Group(config, "webhook");
      if Nullish(webhook) {
        return;
      }
      var url := Get(webhook, "url").value;
      requests := requests + [Request(url, Payload(Get(webhook, "route").value, text))];
      awaiting := awaiting + 1;
    }

    /** The input's keypress handler: Enter sends. */
    method KeyPress(key: string)
      requires Valid()
      modifies this`input, this`log, this`requests, this`awaiting
      ensures Valid()
      ensures key == "Enter" ==> Submitted()
      ensures key != "Enter" ==> input == old(input) && Quiet()
    {
      if key == "Enter" {
        SendMessage();
      }
    }

    /** The promise chain after `fetch`, once it has settled. */
    method Settle(outcome: Outcome)
      requires Valid() && awaiting > 0
      modifies this`log, this`awaiting
      ensures Valid()
      ensures log == old(log) + Replies(outcome)
      ensures awaiting == old(awaiting) - 1
    {
      var failed := outcome.Failed?;
      if outcome.Parsed? {
        var reply := Get(outcome.body, "reply");
        if reply.TypeError? {
          failed := true;
        } else if Truthy(reply.value) {
          var added := AppendMessage(reply.value, Bot);
          failed := !added;
        }
      }
      if failed {
        var added := AppendMessage(Str(ErrorReply), Bot);
      }
      awaiting := awaiting - 1;
      assert log == old(log) + Replies(outcome);
      CountAppend(old(log), Replies(outcome), User);
      CountAppend(old(log), Replies(outcome), Bot);
    }
  }

  /** The script: select the configuration, then build the widget, which
      fails when the stylesheet or the markup cannot be built. */
  method Mount(host: Value) returns (w: Controller?)
    ensures w != null <==> MountCompletes(SelectConfig(host))
    ensures w != null ==>
      && fresh(w) && w.Valid() && w.config == SelectConfig(host)
      && !w.shown && w.input == "" && w.log == [] && w.requests == [] && w.awaiting == 0
  {
    if !MountCompletes(SelectConfig(host)) {
      return null;
    }
    w := new Controller(host);
  }

  /** Opening twice greets once; a welcome text that does not convert
      never shows, however often the modal is opened. */
  method OpenTwice(w: Controller)
    requires w.Valid() && w.log == []
    modifies w
    ensures w.Valid() && w.shown
    ensures w.log == if ConvertThrows(WelcomeText(w.config)) then [] else [Message(Bot, WelcomeText(w.config))]
  {
    w.ClickOpen();
    w.ClickOpen();
  }

  /** One send followed by its outcome: the log grows by the user's
      trimmed text and then by what Replies gives. */
  method SubmitThenSettle(w: Controller, outcome: Outcome)
    requires w.Valid() && Trim(w.input) != [] && !Nullish(Group(w.config, "webhook"))
    modifies w
    ensures w.Valid() && w.input == "" && w.awaiting == old(w.awaiting)
    ensures w.log == old(w.log) + [Message(User, Str(Trim(old(w.input))))] + Replies(outcome)
    ensures |w.requests| == |old(w.requests)| + 1
  {
    w.SendMessage();
    w.Settle(outcome);
  }
}
