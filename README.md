# Chat widget core, modelled in Dafny

The repository ships two self-contained browser scripts. Each one drops a
chat widget onto a host page:

- `widget.js` is the session-based widget. Its configuration is the
  built-in defaults merged group by group (`webhook`, `branding`, `style`)
  with the page's `window.ChatWidgetConfig`. A global flag keeps it from
  initialising twice. Each message goes to the webhook together with the
  current session id. The bot's answer is the `output` field of the reply
  body, or of the first element when the body is a list.
- `chat-widget.js` is the simple widget. It uses `window.ChatWidgetConfig`
  as it is, or its own defaults when the page sets none. Each time it is
  opened while its message list is still empty, it greets with the
  welcome text, so a welcome text that cannot be converted to text is
  retried on every opening and never shows. It sends `{route, message}`
  and shows the reply's `reply` field when that field is truthy.

The model abstracts the DOM and the network away. It has four parts:

- `js_values.dfy` (module `JsValues`) covers the JavaScript values the
  scripts handle: truthiness, reading a property (which throws on null or
  undefined), and the own entries that object spread copies.
- `js_text.dfy` (module `JsText`) models `String.prototype.trim`. Its
  white-space set is spelled out explicitly.
- `exchange.dfy` (module `Exchange`) holds messages, webhook outcomes and
  requests.
- `widget.dfy` (module `N8nWidget`) and `chat_widget.dfy` (module
  `ChatWidget`) hold one configuration function and one `Controller`
  class per script. The class fields are the modal/open flag, the compose
  text, the append-only message log, the requests issued and the number of
  sends still waiting for their outcome. Its methods are the event handlers.

A send is split in two. The synchronous part is `SendMessage` /
`ClickSend` / `KeyPress`, which issues the request. The continuation is
`Settle(outcome)`, where the outcome is an input: either `Failed` or
`Parsed(body)`.

## Notes on the code

- `widget.js` merges the host configuration into its defaults one group
  deep. `chat-widget.js` takes the host object whole, so a setting the
  host leaves out stays out.
- Each script reads one field of the reply body: `output` in `widget.js`,
  `reply` in `chat-widget.js`.
- The error texts are "Sorry, there was an error sending your message."
  in `widget.js` and "Maaf, terjadi kesalahan. Silakan coba lagi." in
  `chat-widget.js`.
- Nothing blocks a send while another one awaits its outcome, so several
  sends may be in flight at once.
- `widget.js` has no handler that adds the `open` class, so its container
  never carries it. `Valid()` records this.
- Converting a value to text can throw: an object with an own `toString`
  entry that is not a function cannot be converted. The colour variables,
  the header and footer markup and `textContent` all convert. At start-up
  such a setting ends the script, so no widget appears. For a reply, the
  conversion throws inside the `try` block (`widget.js`) or inside the
  `.then` handler (`chat-widget.js`), and their `catch` shows the error
  text instead.
- `widget.js` never assigns `currentSessionId`, and `generateUUID` is
  never called. So on an installed widget every send stops before
  anything is appended or requested, yet non-blank text is still cleared
  from the textarea.

## Model

| member | source | states |
|---|---|---|
| `JsValues.Get` | widget.js:214 | Reading a property throws exactly when the value is null or undefined. An object's own entry gives its value; every other read gives undefined |
| `JsValues.Truthy` | widget.js:153 | JavaScript truthiness, as the init guard, the config choice (widget.js:157, chat-widget.js:3) and the reply test (chat-widget.js:228) use it: null and undefined are falsy, objects and arrays truthy |
| `JsValues.ConvertThrows` | widget.js:220 | Only objects and arrays can fail to convert to text. An object fails exactly when it has an own `toString` entry; an array whose elements are not objects or arrays never fails |
| `JsValues.IndexKey` | widget.js:159-161 | The key under which spread stores element i is a non-empty string of decimal digits, one digit long exactly for i < 10 |
| `JsValues.IndexKeyInjective` | widget.js:159-161 | Distinct indices get distinct keys, so spreading a list or string never lets one element overwrite another |
| `JsValues.IndexEntries` | widget.js:159-161 | Spreading a list yields only index keys |
| `JsValues.IndexEntriesAt` | widget.js:159-161 | Spreading a list keeps element i under key IndexKey(i) |
| `JsValues.OwnEntries` | widget.js:159-161 | Spreading an object copies its fields; a list or string gives only index keys; any other value gives nothing |
| `JsText.TrimStart` | widget.js:262 | The result is the suffix of the input after its leading white space and starts with another character |
| `JsText.TrimEnd` | widget.js:262 | The result is the prefix of the input before its trailing white space and ends with another character |
| `JsText.Trim` | chat-widget.js:205 | The result is no longer than the input and neither starts nor ends with white space |
| `JsText.TrimIsSlice` | widget.js:262 | Trim returns the slice s[i..j] with white space only before i and after j and other characters at both ends |
| `JsText.TrimOfUnique` | widget.js:262 | That slice is unique, so it is an independent definition of Trim |
| `JsText.TrimEmptyIff` | chat-widget.js:205-206 | The trimmed text is empty exactly when the input is all white space; this is the blank-input guard of both scripts |
| `JsText.TrimIdempotent` | widget.js:262 | Trimming twice is the same as trimming once |
| `Exchange.Count` | widget.js:241-256 | The number of messages from one sender, at most the log's length. The `Valid()` invariants are stated with it: in `widget.js` every request follows exactly one user message and every settled send adds exactly one bot message; in `chat-widget.js` every request follows one user message and every settled send adds at most one bot message, besides the welcome text |
| `Exchange.CountAppend` | chat-widget.js:208-235 | Per-sender counts add up over an appended log, which is how each handler keeps those invariants |
| `N8nWidget.Merge` | widget.js:159-161 | `{...defaults, ...group}` has the keys of both; the group's own entries win, and the other keys keep their defaults |
| `N8nWidget.ResolvedGroup` | widget.js:157-162 | One group of the config: the default group overridden by the host's group when there is a truthy host value, the default group otherwise; it always holds every default key |
| `N8nWidget.ResolveConfig` | widget.js:157-162 | The config always has exactly the keys webhook, branding and style, so other host groups are dropped; each group is the object ResolvedGroup gives; with no truthy host value the config is `defaultConfig` itself |
| `N8nWidget.ResolveSetting` | widget.js:157-162 | With a host value, config.group.key is the host group's own entry if it has one, else the default, else undefined |
| `N8nWidget.NamedSettingKeepsDefault` | widget.js:159-161 | A named setting keeps its default unless the host group is an object that sets it; a host group that is a string, list, number, boolean, null or undefined overrides nothing |
| `N8nWidget.PoweredByReplacedWhole` | widget.js:160 | A host `branding.poweredBy` replaces the default `{text, link}` whole, because the merge is one level deep |
| `N8nWidget.MergeOverSuperset` | widget.js:159-161 | Merging defaults under an object that already has every default key gives that object back |
| `N8nWidget.ResolveIdempotent` | widget.js:157-162 | Resolving a resolved configuration again gives the same configuration |
| `N8nWidget.SettingThrowsIff` | widget.js:171-183 | A rendered setting whose default is text fails to convert exactly when the host overrides it with a value that fails |
| `N8nWidget.FooterRendersIff` | widget.js:192 | The resolved `poweredBy` renders exactly when the host does not set a `poweredBy` that is null or undefined or has a link or text that does not convert |
| `N8nWidget.DefaultsInitialise` | widget.js:157-162 | Without a host value, the built-in defaults render and initialisation completes |
| `N8nWidget.DefaultStyleRenders` | widget.js:143-149 | The four default colours convert to text |
| `N8nWidget.DefaultBrandingRenders` | widget.js:133-142 | The default logo and name convert to text, and the default `poweredBy` renders |
| `N8nWidget.StyleRendersIff` | widget.js:171-174 | With a host value, the colour variables render exactly when the host overrides none of them with a value that does not convert |
| `N8nWidget.BrandingRendersIff` | widget.js:182-192 | With a host value, the header and footer render exactly when the host overrides neither the logo nor the name with a value that does not convert, and sets no `poweredBy` that fails to render |
| `N8nWidget.HostRendersIff` | widget.js:171-192 | With a host value, initialisation completes exactly when none of the host's own rendered settings breaks it |
| `N8nWidget.InitFailsIff` | widget.js:171-192 | The defaults always initialise. With a host value, initialisation fails exactly when the host overrides a colour variable, the logo or the name with a value that does not convert to text, or sets a `poweredBy` that is null or undefined or whose link or text does not convert |
| `N8nWidget.NullPoweredByFails` | widget.js:192 | A host branding object that sets `poweredBy` to null or undefined stops initialisation, whatever else it sets |
| `N8nWidget.ExtractOutput` | widget.js:212-215 | Reading `output` throws exactly on a null body, an empty list, or a list whose first element is null. An object body gives its own `output`, or undefined; a list gives that of its first element; any other body gives undefined |
| `N8nWidget.BotReply` | widget.js:243-257 | The closing message of a send is from the bot. It is the error text when the call failed, the extraction threw, or the output does not convert to text; otherwise it is the extracted output |
| `N8nWidget.BotReplyByShape` | widget.js:212-257 | The reply for every body shape: the error text for a failed call, a null body, an empty list or a list led by null or undefined; the object's or the first element's own `output` when it converts, the error text when it does not; undefined for every other body |
| `N8nWidget.SessionPayload` | widget.js:231-239 | The body has exactly five keys: action "sendMessage", the session id, the route, chatInput set to the message, and metadata {userId: ""} |
| `N8nWidget.Window.constructor` | widget.js:153 | A fresh page has no init flag and carries the host's config |
| `N8nWidget.Controller.constructor` | widget.js:164-206 | A new widget holds the resolved config, the given session, an empty textarea and log, no requests, and no open class |
| `N8nWidget.Controller.Edit` | widget.js:188 | Typing sets the textarea's value and keeps `Valid()` |
| `N8nWidget.Controller.AppendMessage` | widget.js:217-223 | It reports whether the value converts to text. If it does, the log becomes old log + [message]; if not, the log is unchanged |
| `N8nWidget.Controller.SendMessage` | widget.js:225-250 | Without a session, log and requests are unchanged. With one, log becomes old + [user message] and requests become old + [POST to webhook.url with SessionPayload], and one more send awaits its outcome |
| `N8nWidget.Controller.ClickSend` | widget.js:261-267 | Blank text leaves the textarea, log and requests unchanged. Otherwise the trimmed text is sent as SendMessage says, and the textarea is cleared even when the send aborts |
| `N8nWidget.Controller.KeyPress` | widget.js:269-278 | Enter without Shift acts exactly like the send button. Any other key changes nothing |
| `N8nWidget.Controller.ClickClose` | widget.js:280-285 | The open class is removed; log, textarea and requests are unchanged |
| `N8nWidget.Controller.Settle` | widget.js:243-257 | When a send settles, the log becomes old + [BotReply(outcome)], and the per-sender counts stay tied to the requests |
| `N8nWidget.Install` | widget.js:153-200 | A truthy init flag makes the script a no-op. Otherwise the flag becomes true before anything can throw. A widget exists exactly when the flag was unset and the stylesheet variables and the markup render (InitCompletes). It starts with an empty session id |
| `N8nWidget.InstallTwice` | widget.js:153-154 | A second run never adds a widget, even when the first one failed |
| `N8nWidget.SubmitWithoutSession` | widget.js:226-229 | On a widget without a session, which is what Install creates, a submit leaves the log and requests unchanged and clears non-blank text |
| `N8nWidget.SubmitThenSettle` | widget.js:241-266 | With a session, one submit followed by its outcome grows the log by exactly [user trimmed text, BotReply(outcome)] |
| `ChatWidget.SelectConfig` | chat-widget.js:3-21 | The config is the host value whole when it is truthy, else the built-in defaults; no per-field merge |
| `ChatWidget.MountCompletesIff` | chat-widget.js:36-157 | The defaults always mount. A truthy host that is not an object never mounts. A host object mounts exactly when it has style and branding entries that are not null or undefined and whose colours, logo and name convert to text |
| `ChatWidget.Payload` | chat-widget.js:218-221 | The body has exactly two keys: route and message |
| `ChatWidget.Replies` | chat-widget.js:223-235 | A send settles with at most one bot message. A failure or a null body gives the error text. Otherwise a message appears exactly when `reply` is truthy: the reply itself, or the error text when it does not convert to text |
| `ChatWidget.Controller.constructor` | chat-widget.js:137-166 | A mounted widget holds the selected config, with the modal hidden and the input, log and requests empty |
| `ChatWidget.Controller.Edit` | chat-widget.js:150 | Typing sets the input's value and keeps `Valid()` |
| `ChatWidget.Controller.AppendMessage` | chat-widget.js:169-187 | It reports whether the value converts to text. If it does, the log becomes old log + [message]; if not, the log is unchanged |
| `ChatWidget.Controller.ClickOpen` | chat-widget.js:190-196 | The modal is shown. An empty log becomes exactly [bot welcomeText] when the welcome text converts to text and stays empty when it does not; a non-empty log is unchanged |
| `ChatWidget.Controller.ClickClose` | chat-widget.js:199-201 | The modal is hidden; log and input are unchanged |
| `ChatWidget.Controller.SendMessage` | chat-widget.js:204-222 | Blank input changes nothing. Otherwise the log becomes old + [user trimmed text] and the input is cleared. Then one POST {route, message} to webhook.url is issued, unless config.webhook is null or undefined, in which case the read throws and nothing is requested |
| `ChatWidget.Controller.KeyPress` | chat-widget.js:242-246 | Enter acts exactly like SendMessage. Any other key changes nothing |
| `ChatWidget.Controller.Settle` | chat-widget.js:223-235 | When a send settles, the log becomes old + Replies(outcome), which is at most one bot message |
| `ChatWidget.Mount` | chat-widget.js:3-166 | A widget exists exactly when the selected config mounts (MountCompletes): style and branding present and their rendered settings convertible. It starts hidden and empty |
| `ChatWidget.OpenTwice` | chat-widget.js:190-196 | Opening twice on an empty log greets exactly once, or never when the welcome text does not convert |
| `ChatWidget.SubmitThenSettle` | chat-widget.js:204-235 | One send followed by its outcome grows the log by exactly [user trimmed text] + Replies(outcome) |

Every method's `ensures` writes the new log as the old log plus appended
messages (for `ClickOpen` on an empty log, plus the welcome message). So
every operation keeps the old log as a prefix, and no message is removed
or edited.

## Left out

- Stylesheets, font loading, CSS variables and the `position-left` class
  are styling text with no behaviour. The text they produce is not
  modelled. Whether building them throws is modelled: converting the
  colours (see the conversion note above, `StyleRenders` and
  `GroupsRender`) and, in `chat-widget.js` only, reading a setting of a
  null or undefined `config.style`. In `widget.js` every resolved group is
  an object, so those reads cannot throw.
- HTML templating through `innerHTML` and element lookup are not modelled.
  The elements are class fields, and the model assumes every element
  lookup finds its element.
- Install: settings are put into the `innerHTML` markup without escaping.
  A logo or name whose text breaks the markup (for example `<!--`, which
  comments out the rest of the template) makes `querySelector` return
  null, and the script throws at widget.js:261 before any listener is
  attached. This is outside the model: `Install` says a widget exists
  whenever `InitCompletes` holds.
- Mount: a name whose text breaks the markup (for example `<!--` at
  chat-widget.js:145) removes the close button, the messages list and the
  input area. The script then throws at chat-widget.js:199, after the open
  button's listener is attached, and leaves a half-wired widget. This is
  outside the model: `Mount` says a full widget exists whenever
  `MountCompletes` holds.
- Mount models one run of `chat-widget.js`. The script has no init guard,
  so a second run adds a second `#chat-widget-container` with the same
  ids. `getElementById` (chat-widget.js:161-166) then finds the first
  widget's elements, and the second run's listeners attach to the first
  widget. On a second run, the assumption that every lookup finds its own
  element does not hold.
- The configuration is taken as fixed when the widget mounts (the
  `config` constant of each `Controller`). `chat-widget.js:3` keeps a
  reference to the host's own object and reads `branding.welcomeText`,
  `webhook.url` and `webhook.route` (chat-widget.js:194, 213, 219) each
  time an event fires, so a host page that changes those fields later
  changes what later events do. `widget.js` copies each group
  (widget.js:159-161), so the same change has no effect there.
- Per-message inline styles and auto-scroll (`scrollTop`) are not modelled.
  A message keeps the value handed to `appendMessage`. The text the browser
  makes of that value is not modelled (for example, `undefined` shows as
  empty text). Whether the conversion throws is modelled; then no message
  is added, and inside a send the error text is shown instead.
- `JsValues.ConvertThrows` treats values as having no functions. A host
  configuration can hold functions: an own `toString` that is a function
  returning text converts without throwing, while the model says it
  throws. Symbols, `Symbol.toPrimitive` and getters are not modelled
  either.
- `fetch`, HTTP status codes and JSON text parsing are not modelled. The
  outcome of a call is an input (`Failed` or `Parsed(body)`), and neither
  script checks `response.ok`. The model does not tie an outcome to its
  request: a webhook URL that does not convert to text makes `fetch`
  reject, which is the `Failed` outcome.
- `JSON.stringify` is not modelled. A request records the object passed to
  it, so entries holding `undefined`, which stringify drops, are still
  present in the model.
- `generateUUID` / `crypto.randomUUID` is not modelled. It is a foreign
  call and nothing calls it.
- `console.error` logging is not modelled.
- Interleaving of several requests in flight is only partly modelled.
  `awaiting` counts them, and each `Settle` closes one of them. Which
  request an outcome belongs to, and the order in which outcomes arrive,
  are not modelled.
- The browser's default key actions are not modelled. Typing, including
  the newline that Shift+Enter inserts and the text field's removal of
  line breaks, is the separate `Edit` event.
- `JsValues.Get` does not model inherited prototype properties. The keys
  the scripts read are not own properties of non-objects. The exception is
  `String.prototype.link`, which the footer would read from a string
  `poweredBy`. Only whether that read throws matters, and on a string it
  does not.
- `JsValues.OwnEntries` spreads a string one Unicode scalar value per
  index. JavaScript spreads one UTF-16 code unit per index, so characters
  outside the Basic Multilingual Plane get one key here instead of two.
  Only index keys are affected, and no named setting is.
- `JsValues.Truthy` does not model NaN or negative zero, because `Num`
  holds a real number. JSON bodies cannot produce NaN.
