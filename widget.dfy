/** widget.js: the session-based chat widget. Its configuration is the
    built-in defaults merged group by group with the host page's
    `window.ChatWidgetConfig`; every message is sent with the current
    session id, and the reply is the `output` field of the webhook's
    answer. */
module N8nWidget {
  import opened JsValues
  import opened JsText
  import opened Exchange

  const DefaultWebhook: map<string, Value> := map["url" := Str(""), "route" := Str("")]

  const DefaultPoweredBy: Value :=
    Obj(map["text" := Str("Powered by ProsesAI"), "link" := Str("https://prosesai.com")])

  const DefaultBranding: map<string, Value> :=
    map["logo" := Str(""), "name" := Str(""), "welcomeText" := Str(""),
        "responseTimeText" := Str(""), "poweredBy" := DefaultPoweredBy]

  const DefaultStyle: map<string, Value> :=
    map["primaryColor" := Str(""), "secondaryColor" := Str(""), "position" := Str("right"),
        "backgroundColor" := Str("#ffffff"), "fontColor" := Str("#333333")]

  const DefaultConfig: Value :=
    Obj(map["webhook" := Obj(DefaultWebhook), "branding" := Obj(DefaultBranding),
            "style" := Obj(DefaultStyle)])

  /** The three groups of settings; nothing else survives resolution. */
  const Groups: set<string> := {"webhook", "branding", "style"}

  const ErrorReply: string := "Sorry, there was an error sending your message."

  function DefaultGroup(group: string): map<string, Value>
    requires group in Groups
  {
    if group == "webhook" then DefaultWebhook
    else if group == "branding" then DefaultBranding
    else DefaultStyle
  }

  /** `{ ...defaults, ...override }`: the defaults with every own entry of
      `override` laid over them, whole (the merge is one level deep). */
  function Merge(defaults: map<string, Value>, override: Value): (m: map<string, Value>)
    ensures m.Keys == defaults.Keys + OwnEntries(override).Keys
    ensures forall k :: k in OwnEntries(override) ==> m[k] == OwnEntries(override)[k]
    ensures forall k :: k in defaults && k !in OwnEntries(override) ==> m[k] == defaults[k]
  {
    defaults + OwnEntries(override)
  }

  /** `window.ChatWidgetConfig.<group>`, read only when the host value is
      truthy, so never from null or undefined. */
  function HostGroup(host: Value, group: string): Value
    requires Truthy(host)
  {
    Get(host, group).value
  }

  /** One group of the configuration: with a (truthy) host value,
      `{ ...defaultConfig.<group>, ...window.ChatWidgetConfig.<group> }`,
      and otherwise the default group. */
  function ResolvedGroup(host: Value, group: string): (m: map<string, Value>)
    requires group in Groups
    ensures DefaultGroup(group).Keys <= m.Keys
  {
    if Truthy(host) then Merge(DefaultGroup(group), HostGroup(host, group)) else DefaultGroup(group)
  }

  /** The configuration the widget runs with. Without a (truthy) host
      value it is the defaults object itself; otherwise each of the three
      groups is the default group overridden by the host's group, and any
      other top-level key of the host is dropped. */
  function ResolveConfig(host: Value): (config: Value)
    ensures config.Obj? && config.fields.Keys == Groups
    ensures forall g :: g in Groups ==> config.fields[g] == Obj(ResolvedGroup(host, g))
    ensures !Truthy(host) ==> config == DefaultConfig
  {
    if Truthy(host) then
      Obj(map g | g in Groups :: Obj(ResolvedGroup(host, g)))
    else DefaultConfig
  }

  /** `config.<group>.<key>` on a resolved configuration. */
  function Setting(config: Value, group: string, key: string): Value
    requires config.Obj? && group in config.fields && config.fields[group].Obj?
  {
    Get(config.fields[group], key).value
  }

  /** With a host value, a setting is the host's when the host's group
      has it as an own entry, else the default, else undefined. */
  lemma ResolveSetting(host: Value, group: string, key: string)
    requires Truthy(host) && group in Groups
    ensures var config, own := ResolveConfig(host), OwnEntries(HostGroup(host, group));
      Setting(config, group, key) ==
        if key in own then own[key]
        else if key in DefaultGroup(group) then DefaultGroup(group)[key]
        else Undefined
  {
  }

  /** A named setting (one whose key is not a decimal index) keeps its
      default unless the host's group is an object that sets it: a host
      group that is a string, array, number, boolean, null or undefined
      overrides no named setting. */
  lemma NamedSettingKeepsDefault(host: Value, group: string, key: string)
    requires Truthy(host) && group in Groups && key in DefaultGroup(group) && !IsIndexKey(key)
    requires !(HostGroup(host, group).Obj? && key in HostGroup(host, group).fields)
    ensures Setting(ResolveConfig(host), group, key) == DefaultGroup(group)[key]
  {
    ResolveSetting(host, group, key);
  }

  /** The merge is shallow: a host `branding.poweredBy` replaces the
      default `{text, link}` object whole, whatever it holds. */
  lemma PoweredByReplacedWhole(host: Value)
    requires Truthy(host) && HostGroup(host, "branding").Obj?
    requires "poweredBy" in HostGroup(host, "branding").fields
    ensures Setting(ResolveConfig(host), "branding", "poweredBy")
         == HostGroup(host, "branding").fields["poweredBy"]
  {
    ResolveSetting(host, "branding", "poweredBy");
  }

  /** Laying an object over defaults whose keys it already has gives the
      object back. */
  lemma MergeOverSuperset(defaults: map<string, Value>, fields: map<string, Value>)
    requires defaults.Keys <= fields.Keys
    ensures Merge(defaults, Obj(fields)) == fields
  {
  }

  /** A resolved configuration is a fixed point: resolving it again (as a
      host value) gives it back. */
  lemma ResolveIdempotent(host: Value)
    ensures ResolveConfig(ResolveConfig(host)) == ResolveConfig(host)
  {
    var config := ResolveConfig(host);
    var again := ResolveConfig(config);
    assert Truthy(config);
    forall g | g in Groups
      ensures again.fields[g] == config.fields[g]
    {
      assert again.fields[g] == Obj(Merge(DefaultGroup(g), HostGroup(config, g)));
      assert HostGroup(config, g) == config.fields[g];
      MergeOverSuperset(DefaultGroup(g), config.fields[g].fields);
    }
    assert again.fields == config.fields;
  }

  /** The footer link renders from `poweredBy`: reading `.link` throws
      when it is null or undefined, and its `link` and `text` must convert
      to text. */
  predicate FooterRenders(poweredBy: Value) {
    && !Nullish(poweredBy)
    && !ConvertThrows(Get(poweredBy, "link").value)
    && !ConvertThrows(Get(poweredBy, "text").value)
  }

  /** The four colour variables convert to text. */
  predicate StyleRenders(style: Value)
    requires !Nullish(style)
  {
    && !ConvertThrows(Get(style, "primaryColor").value)
    && !ConvertThrows(Get(style, "secondaryColor").value)
    && !ConvertThrows(Get(style, "backgroundColor").value)
    && !ConvertThrows(Get(style, "fontColor").value)
  }

  /** The header's logo and name convert to text, and the footer
      renders. */
  predicate BrandingRenders(branding: Value)
    requires !Nullish(branding)
  {
    && !ConvertThrows(Get(branding, "logo").value)
    && !ConvertThrows(Get(branding, "name").value)
    && FooterRenders(Get(branding, "poweredBy").value)
  }

  /** Everything between setting the init flag and attaching the
      listeners succeeds with the configuration resolved from `host`
      (whose `style` and `branding` groups are ResolvedGroup's). Any
      setting that fails to render throws and ends the script. */
  predicate InitCompletes(host: Value) {
    StyleRenders(Obj(ResolvedGroup(host, "style"))) && BrandingRenders(Obj(ResolvedGroup(host, "branding")))
  }

  /** The host's own `<group>.<key>`, which the merge copies into the
      configuration, does not convert to text. */
  predicate OverrideThrows(host: Value, group: string, key: string)
    requires Truthy(host)
  {
    var own := OwnEntries(HostGroup(host, group));
    key in own && ConvertThrows(own[key])
  }

  /** The host's own `branding.poweredBy` does not render. */
  predicate PoweredByBreaks(host: Value)
    requires Truthy(host)
  {
    var own := OwnEntries(HostGroup(host, "branding"));
    "poweredBy" in own && !FooterRenders(own["poweredBy"])
  }

  /** A named setting whose default is text fails to convert exactly
      when the host overrides it with a value that fails. */
  lemma SettingThrowsIff(host: Value, group: string, key: string)
    requires Truthy(host) && group in Groups && key in DefaultGroup(group)
    requires DefaultGroup(group)[key].Str?
    ensures ConvertThrows(Get(Obj(ResolvedGroup(host, group)), key).value) <==> OverrideThrows(host, group, key)
  {
  }

  /** The footer renders from the resolved `poweredBy` exactly when the
      host leaves it alone or sets one that renders. */
  lemma FooterRendersIff(host: Value)
    requires Truthy(host)
    ensures FooterRenders(Get(Obj(ResolvedGroup(host, "branding")), "poweredBy").value) <==> !PoweredByBreaks(host)
  {
  }

  /** Without a host value the built-in defaults render. */
  lemma DefaultsInitialise(host: Value)
    requires !Truthy(host)
    ensures InitCompletes(host)
  {
    DefaultStyleRenders();
    DefaultBrandingRenders();
  }

  lemma DefaultStyleRenders()
    ensures StyleRenders(Obj(DefaultStyle))
  {
    assert DefaultStyle["primaryColor"].Str? && DefaultStyle["secondaryColor"].Str?;
    assert DefaultStyle["backgroundColor"].Str? && DefaultStyle["fontColor"].Str?;
  }

  lemma DefaultBrandingRenders()
    ensures BrandingRenders(Obj(DefaultBranding))
  {
    assert DefaultBranding["logo"].Str? && DefaultBranding["name"].Str?;
    assert Get(Obj(DefaultBranding), "poweredBy").value == DefaultPoweredBy;
    assert FooterRenders(DefaultPoweredBy);
  }

  /** The host overrides a colour variable with a value that does not
      convert to text. */
  predicate HostBreaksStyle(host: Value)
    requires Truthy(host)
  {
    || OverrideThrows(host, "style", "primaryColor")
    || OverrideThrows(host, "style", "secondaryColor")
    || OverrideThrows(host, "style", "backgroundColor")
    || OverrideThrows(host, "style", "fontColor")
  }

  /** The host overrides the logo or the name with a value that does not
      convert to text, or sets a `poweredBy` that does not render. */
  predicate HostBreaksBranding(host: Value)
    requires Truthy(host)
  {
    || OverrideThrows(host, "branding", "logo")
    || OverrideThrows(host, "branding", "name")
    || PoweredByBreaks(host)
  }

  /** One of the host's own settings that the markup uses cannot be
      rendered. */
  predicate HostBreaksRendering(host: Value)
    requires Truthy(host)
  {
    HostBreaksStyle(host) || HostBreaksBranding(host)
  }

  lemma StyleRendersIff(host: Value)
    requires Truthy(host)
    ensures StyleRenders(Obj(ResolvedGroup(host, "style"))) <==> !HostBreaksStyle(host)
  {
    SettingThrowsIff(host, "style", "primaryColor");
    SettingThrowsIff(host, "style", "secondaryColor");
    SettingThrowsIff(host, "style", "backgroundColor");
    SettingThrowsIff(host, "style", "fontColor");
  }

  lemma BrandingRendersIff(host: Value)
    requires Truthy(host)
    ensures BrandingRenders(Obj(ResolvedGroup(host, "branding"))) <==> !HostBreaksBranding(host)
  {
    SettingThrowsIff(host, "branding", "logo");
    SettingThrowsIff(host, "branding", "name");
    FooterRendersIff(host);
  }

  lemma HostRendersIff(host: Value)
    requires Truthy(host)
    ensures InitCompletes(host) <==> !HostBreaksRendering(host)
  {
    StyleRendersIff(host);
    BrandingRendersIff(host);
  }

  /** The defaults always initialise; with a host value, initialisation
      fails exactly when one of the host's own settings that the markup
      uses cannot be rendered. */
  lemma InitFailsIff(host: Value)
    ensures !InitCompletes(host) <==> Truthy(host) && HostBreaksRendering(host)
  {
    if Truthy(host) {
      HostRendersIff(host);
    } else {
      DefaultsInitialise(host);
    }
  }

  /** A host branding object that sets `poweredBy` to null or undefined
      stops initialisation, whatever else it sets. */
  lemma NullPoweredByFails(host: Value)
    requires Truthy(host) && HostGroup(host, "branding").Obj?
    requires "poweredBy" in HostGroup(host, "branding").fields
    requires Nullish(HostGroup(host, "branding").fields["poweredBy"])
    ensures !InitCompletes(host)
  {
    PoweredByReplacedWhole(host);
  }

  /** handleApiResponse after the body is parsed:
      `Array.isArray(data) ? data[0].output : data.output`. It throws on
      a null body, an empty list or a list whose first element is null. */
  function ExtractOutput(data: Value): (r: Result<Value>)
    ensures r.TypeError? <==>
      Nullish(data) || (data.Arr? && (data.items == [] || Nullish(data.items[0])))
    ensures data.Obj? ==>
      r == Ok(if "output" in data.fields then data.fields["output"] else Undefined)
    ensures data.Arr? && data.items != [] && data.items[0].Obj? ==>
      r == Ok(if "output" in data.items[0].fields then data.items[0].fields["output"] else Undefined)
    ensures data.Arr? && data.items != [] && !Nullish(data.items[0]) && !data.items[0].Obj? ==>
      r == Ok(Undefined)
    ensures !Nullish(data) && !data.Obj? && !data.Arr? ==> r == Ok(Undefined)
  {
    match data
    case Arr(items) => if items == [] then Get(Undefined, "output") else Get(items[0], "output")
    case _ => Get(data, "output")
  }

  /** The bot message that ends one send: the extracted `output` (even
      when it is undefined, which shows as empty text), or ErrorReply when
      the call, the parse, the extraction or showing the output threw. */
  function BotReply(outcome: Outcome): (m: Message)
    ensures m.sender == Bot
    ensures outcome.Failed? ==> m.content == Str(ErrorReply)
    ensures outcome.Parsed? && ExtractOutput(outcome.body).TypeError? ==> m.content == Str(ErrorReply)
    ensures outcome.Parsed? && ExtractOutput(outcome.body).Ok? ==>
      var output := ExtractOutput(outcome.body).value;
      m.content == if ConvertThrows(output) then Str(ErrorReply) else output
  {
    match outcome
    case Failed => Message(Bot, Str(ErrorReply))
    case Parsed(data) =>
      match ExtractOutput(data)
      case Ok(output) => if ConvertThrows(output) then Message(Bot, Str(ErrorReply)) else Message(Bot, output)
      case TypeError => Message(Bot, Str(ErrorReply))
  }

  /** The reply for each shape of body: the error text for a failed call,
      a null body, an empty list or a list led by null; the object's (or
      the first element's) `output` when it has one that converts; the
      error text when that `output` does not convert; and undefined for
      every other body. */
  lemma BotReplyByShape(outcome: Outcome)
    ensures outcome.Failed? ==> BotReply(outcome).content == Str(ErrorReply)
    ensures outcome.Parsed? ==>
      var body := outcome.body;
      var first := if body.Arr? && body.items != [] then body.items[0] else body;
      BotReply(outcome).content ==
        if Nullish(body) || (body.Arr? && (body.items == [] || Nullish(first))) then Str(ErrorReply)
        else if first.Obj? && "output" in first.fields then
          (if ConvertThrows(first.fields["output"]) then Str(ErrorReply) else first.fields["output"])
        else Undefined
  {
  }

  /** The request body: exactly these five entries. */
  function SessionPayload(sessionId: string, route: Value, message: string): (p: Value)
    ensures p.Obj? && p.fields.Keys == {"action", "sessionId", "route", "chatInput", "metadata"}
    ensures Get(p, "action") == Ok(Str("sendMessage"))
    ensures Get(p, "sessionId") == Ok(Str(sessionId)) && Get(p, "route") == Ok(route)
    ensures Get(p, "chatInput") == Ok(Str(message))
    ensures Get(p, "metadata") == Ok(Obj(map["userId" := Str("")]))
  {
    Obj(map["action" := Str("sendMessage"), "sessionId" := Str(sessionId), "route" := route,
            "chatInput" := Str(message), "metadata" := Obj(map["userId" := Str("")])])
  }

  /** What the handlers rely on: `config.webhook` is an object. Every
      resolved configuration has this shape. */
  predicate HasWebhook(config: Value) {
    config.Obj? && "webhook" in config.fields && config.fields["webhook"].Obj?
  }

  /** The page globals the script reads and writes. */
  class Window {
    /** `window.N8NChatWidgetInitialized` */
    var initialized: Value
    /** `window.ChatWidgetConfig` */
    var chatWidgetConfig: Value

    constructor (chatWidgetConfig: Value)
      ensures initialized == Undefined && this.chatWidgetConfig == chatWidgetConfig
    {
      initialized := Undefined;
      this.chatWidgetConfig := chatWidgetConfig;
    }
  }

  /** One widget on the page, after initialisation has completed. */
  class Controller {
    const hostConfig: Value
    const config: Value
    /** `currentSessionId`; the script never assigns it after
        initialisation. */
    const sessionId: string
    /** whether the chat container carries the `open` class */
    var open: bool
    /** the textarea's value */
    var draft: string
    /** the children of the messages container, oldest first */
    var log: seq<Message>
    /** the calls made to `fetch`, oldest first */
    var requests: seq<Request>
    /** sends whose outcome has not arrived yet */
    var awaiting: nat

    /** Nothing adds the `open` class; every request put exactly one user
        message in the log, and every settled one exactly one bot
        message. */
    ghost predicate Valid()
      reads this
    {
      && HasWebhook(config)
      && !open
      && Count(log, User) == |requests|
      && Count(log, Bot) + awaiting == |requests|
    }

    constructor (hostConfig: Value, sessionId: string)
      ensures Valid() && config == ResolveConfig(hostConfig)
      ensures this.hostConfig == hostConfig && this.sessionId == sessionId
      ensures draft == "" && log == [] && requests == [] && awaiting == 0
    {
      this.hostConfig := hostConfig;
      config := ResolveConfig(hostConfig);
      this.sessionId := sessionId;
      open := false;
      draft := "";
      log := [];
      requests := [];
      awaiting := 0;
    }

    function Url(): Value
      requires HasWebhook(config)
    {
      Setting(config, "webhook", "url")
    }

    function Route(): Value
      requires HasWebhook(config)
    {
      Setting(config, "webhook", "route")
    }

    /** The log and the requests are as they were. */
    twostate predicate Quiet()
      reads this
    {
      log == old(log) && requests == old(requests) && awaiting == old(awaiting)
    }

    /** What `sendMessage(message)` does before it awaits: nothing
        without a session; otherwise the user message is shown and the
        request is sent. */
    twostate predicate Sent(message: string)
      reads this
      requires HasWebhook(config)
    {
      if sessionId == "" then Quiet()
      else
        && log == old(log) + [Message(User, Str(message))]
        && requests == old(requests) + [Request(Url(), SessionPayload(sessionId, Route(), message))]
        && awaiting == old(awaiting) + 1
    }

    /** What a submit does: nothing for blank text; otherwise send the
        trimmed text and clear the textarea. */
    twostate predicate Submitted()
      reads this
      requires HasWebhook(config)
    {
      var message := Trim(old(draft));
      if message == [] then draft == old(draft) && Quiet()
      else draft == "" && Sent(message)
    }

    /** The user edits the textarea. */
    method Edit(text: string)
      requires Valid()
      modifies this`draft
      ensures Valid() && draft == text
    {
      draft := text;
    }

    /** `appendMessage`: setting `textContent` converts the value to
        text, which throws before the element is added when the
        conversion throws. */
    method AppendMessage(content: Value, sender: Sender) returns (added: bool)
      modifies this`log
      ensures added <==> !ConvertThrows(content)
      ensures log == old(log) + if added then [Message(sender, content)] else []
    {
      if ConvertThrows(content) {
        return false;
      }
      log := log + [Message(sender, content)];
      added := true;
    }

    /** The part of `sendMessage` that runs before the first await. */
    method SendMessage(message: string)
      requires Valid()
      modifies this`log, this`requests, this`awaiting
      ensures Valid() && Sent(message)
    {
      if sessionId == "" {
        return;
      }
      var payload := SessionPayload(sessionId, Route(), message);
      var added := AppendMessage(Str(message), User);
      requests := requests + [Request(Url(), payload)];
      awaiting := awaiting + 1;
      CountAppend(old(log), [Message(User, Str(message))], User);
      CountAppend(old(log), [Message(User, Str(message))], Bot);
    }

    /** The send button's click handler. */
    method ClickSend()
      requires Valid()
      modifies this`draft, this`log, this`requests, this`awaiting
      ensures Valid() && Submitted()
    {
      var message := Trim(draft);
      if message != [] {
        SendMessage(message);
        draft := "";
      }
    }

    /** The textarea's keypress handler: Enter without Shift submits
        exactly as the send button does; any other key is left to the
        browser (see Edit). */
    method KeyPress(key: string, shiftKey: bool)
      requires Valid()
      modifies this`draft, this`log, this`requests, this`awaiting
      ensures Valid()
      ensures key == "Enter" && !shiftKey ==> Submitted()
      ensures !(key == "Enter" && !shiftKey) ==> draft == old(draft) && Quiet()
    {
      if key == "Enter" && !shiftKey {
        ClickSend();
      }
    }

    /** The close button's click handler. */
    method ClickClose()
      requires Valid()
      modifies this`open
      ensures Valid() && !open
    {
      open := false;
    }

    /** The rest of `sendMessage`, once the awaited call has settled:
        one bot message, the reply or the error text. */
    method Settle(outcome: Outcome)
      requires Valid() && awaiting > 0
      modifies this`log, this`awaiting
      ensures Valid()
      ensures log == old(log) + [BotReply(outcome)]
      ensures awaiting == old(awaiting) - 1
    {
      var added := false;
      if outcome.Parsed? {
        var output := ExtractOutput(outcome.body);
        if output.Ok? {
          added := AppendMessage(output.value, Bot);
        }
      }
      if !added {
        added := AppendMessage(Str(ErrorReply), Bot);
      }
      awaiting := awaiting - 1;
      assert log == old(log) + [BotReply(outcome)];
      CountAppend(old(log), [BotReply(outcome)], User);
      CountAppend(old(log), [BotReply(outcome)], Bot);
    }
  }

  /** The script's top level: the init guard, then the widget. The flag
      is set before anything can throw, so a failed initialisation still
      blocks every later one. The session id starts out empty. */
  method Install(window: Window) returns (w: Controller?)
    modifies window`initialized
    ensures Truthy(old(window.initialized)) ==> window.initialized == old(window.initialized)
    ensures !Truthy(old(window.initialized)) ==> window.initialized == Bool(true)
    ensures w != null <==> !Truthy(old(window.initialized)) && InitCompletes(window.chatWidgetConfig)
    ensures w != null ==>
      && fresh(w) && w.Valid() && w.config == ResolveConfig(window.chatWidgetConfig) && w.sessionId == ""
      && w.draft == "" && w.log == [] && w.requests == [] && w.awaiting == 0
  {
    if Truthy(window.initialized) {
      return null;
    }
    window.initialized := Bool(true);
    if !InitCompletes(window.chatWidgetConfig) {
      return null;
    }
    w := new Controller(window.chatWidgetConfig, "");
  }

  /** Running the script a second time on the same page adds no widget. */
  method InstallTwice(window: Window) returns (first: Controller?, second: Controller?)
    modifies window`initialized
    ensures second == null
    ensures first != null <==> !Truthy(old(window.initialized)) && InitCompletes(window.chatWidgetConfig)
  {
    first := Install(window);
    assert Truthy(window.initialized);
    second := Install(window);
  }

  /** A widget without a session, which is what Install creates, never
      lets a submit reach the log or the network: `sendMessage` returns
      at once, yet non-blank text is still cleared from the textarea. */
  method SubmitWithoutSession(w: Controller, text: string)
    requires w.Valid() && w.sessionId == ""
    modifies w
    ensures w.Valid() && w.log == old(w.log) && w.requests == old(w.requests)
    ensures w.draft == if Trim(text) == [] then text else ""
  {
    w.Edit(text);
    w.ClickSend();
  }

  /** One send with a session, followed by its outcome: the log grows by
      the user's trimmed text and then the bot's reply. */
  method SubmitThenSettle(w: Controller, outcome: Outcome)
    requires w.Valid() && w.sessionId != "" && Trim(w.draft) != []
    modifies w
    ensures w.Valid() && w.draft == "" && w.awaiting == old(w.awaiting)
    ensures w.log == old(w.log) + [Message(User, Str(Trim(old(w.draft)))), BotReply(outcome)]
    ensures |w.requests| == |old(w.requests)| + 1
  {
    ghost var log0 := w.log;
    ghost var user := Message(User, Str(Trim(w.draft)));
    w.ClickSend();
    assert w.log == log0 + [user];
    w.Settle(outcome);
    assert log0 + [user] + [BotReply(outcome)] == log0 + [user, BotReply(outcome)];
  }
}
