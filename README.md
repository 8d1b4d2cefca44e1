# Scrapling bridge: request validation and dispatch

This project models the command protocol of `scripts/scrapling_bridge.py`, a
one-shot bridge that reads one JSON command on standard input, drives a
stealth browser engine (`StealthyFetcher`) through one of four actions
(`get_content`, `click`, `fill`, `evaluate`) and prints one
`{content, isError?}` response before exiting.

The browser engine is a parameter: a function from the fetch request the
bridge builds (url, the fixed `headless`/`network_idle` options, the
`wait_selector`, and the page action with its selector, value or script) to
an outcome, either a loaded page or a raised exception. Decoding stdin is a
parameter too: either a decoded command object or a decode error message.
With both abstracted, `main` is the pure function `Bridge.Run`. It returns
the printed response, the exit code and the fetch made, if any.
`Bridge.BridgeProcess.Serve` mirrors `main`'s step-by-step shape, with its
early exits, and is proved to print exactly what `Run` computes.

Modules:

- `Text` (`text.dfy`): `truncate` and its limits (15000 for page content,
  10000 for click and evaluate text), and the fixed-point behaviour of
  cutting.
- `Decimal` (`decimal.dfy`): how the status code is written into the
  content (`str(int)`), and its parser, proved to be an inverse.
- `Protocol` (`protocol.dfy`): command fields, which may be missing, null or
  a string. Also the response envelope, the fetch request, the page, and the
  engine outcome.
- `Handlers` (`handlers.dfy`): the four handlers. Each has its validation
  guards, the request it sends, and the content it composes.
- `Bridge` (`bridge.dfy`): action defaulting, dispatch, collapsing of engine
  exceptions, exit codes, and the process view.

Notes on how the model reads the code:

- A missing `action` key defaults to `get_content`. An explicit JSON `null`
  does not get the default: `cmd.get("action", "get_content")` returns
  `None`, and the run answers `Unknown action: None`.
- `isError == false` in `Response` stands for the key being left out. No
  success path writes `"isError": false`.
- `get_content` passes `wait_for` to the engine as `wait_selector`
  unchanged, so an empty string is passed through. The three page-action
  callbacks wait only when `wait_for` is truthy (`Handlers.WaitIfGiven`).

## Model

| member | source | states |
|---|---|---|
| Text.Truncate | scripts/scrapling_bridge.py:21-24 | text of at most `limit` characters is returned unchanged; a longer text gives exactly `limit + 15` characters: the first `limit` characters of the input followed by `"\n...(truncated)"` |
| Text.TruncatedIffLonger | scripts/scrapling_bridge.py:21-24 | the result is longer than `limit` exactly when the input was, so the result tells whether cutting happened |
| Text.TruncateFixpoint | scripts/scrapling_bridge.py:21-24 | truncate returns its input exactly when the input fits, or when the input is already `limit` characters followed by the marker |
| Decimal.NatToDecimal | scripts/scrapling_bridge.py:39 | a non-negative status renders as a non-empty string of decimal digits with no leading zero |
| Decimal.IntToString | scripts/scrapling_bridge.py:39 | `str(status)` starts with a minus sign exactly for negative values, followed by digits. The form is canonical: no leading zero, and zero is written `0` |
| Decimal.DecimalRoundTrip | scripts/scrapling_bridge.py:39 | reading the digits back gives the original number |
| Decimal.IntRoundTrip | scripts/scrapling_bridge.py:39 | reading the rendered status back gives the original integer |
| Decimal.IntToStringInjective | scripts/scrapling_bridge.py:39 | two different status codes never render to the same `Status:` text |
| Protocol.Get | scripts/scrapling_bridge.py:123-128 | `cmd.get(key)` gives a string exactly when the key holds a string, and gives None for a missing key or null |
| Protocol.Truthy | scripts/scrapling_bridge.py:130 | a string-or-None value is falsy exactly when it is None or the empty string. This is the test behind `if not url` and the selector, script and `wait_for` checks |
| Bridge.ActionOf | scripts/scrapling_bridge.py:124 | a missing action reads as `"get_content"`, an explicit null as None, and a string as itself |
| Bridge.ActionText | scripts/scrapling_bridge.py:144 | an action string is written as itself in the unknown-action message, and an explicit null (None) as `None` |
| Handlers.TitleText | scripts/scrapling_bridge.py:35-36 | the title line holds the title element's text, or the empty string when the page has no title |
| Handlers.GetContentHeader | scripts/scrapling_bridge.py:39 | the get_content header is exactly `Page: <title>`, `URL: <url>` and `Status: <status>` in decimal, each on its own line, followed by a blank line |
| Handlers.HeaderDeterminesStatus | scripts/scrapling_bridge.py:39 | for a fixed url and title, two get_content headers are equal only when the status codes are equal |
| Handlers.ClickHeader | scripts/scrapling_bridge.py:65 | the click header is exactly `Clicked "<selector>"`, `Page: <title>` and `URL: <url>`, each on its own line, followed by a blank line |
| Handlers.WaitIfGiven | scripts/scrapling_bridge.py:49-50 | a page-action callback waits for `wait_for` exactly when it is a non-empty string |
| Handlers.Fetch | scripts/scrapling_bridge.py:55-60 | every fetch carries the url, `headless=True` and `network_idle=True`, and the given wait selector and page action |
| Handlers.HandleGetContent | scripts/scrapling_bridge.py:27-40 | always fetches once, with `wait_selector=wait_for` and no page action. An engine exception leaves the handler. A loaded page gives a success whose content is the `Page:/URL:/Status:` header, then the page text: verbatim up to 15000 characters, or the first 15000 followed by the marker |
| Handlers.HandleClick | scripts/scrapling_bridge.py:43-66 | fetches if and only if the selector is non-empty. Otherwise the result is the selector-required error. The fetch carries a click action on the selector. A loaded page gives the `Clicked "<selector>"` header with the text cut at 10000. An engine exception leaves the handler |
| Handlers.HandleFill | scripts/scrapling_bridge.py:69-88 | fetches if and only if the selector is non-empty and the value is present. The selector is checked before the value. An empty value is sent to the engine. Success content is `Filled "<selector>" with value "<value>"` |
| Handlers.HandleEvaluate | scripts/scrapling_bridge.py:91-112 | fetches if and only if the script is non-empty, otherwise the javascript-required error. A loaded page gives `JavaScript result:` and the serialized result cut at 10000 |
| Bridge.Dispatch | scripts/scrapling_bridge.py:134-144 | each of the four known actions reaches its own handler, with that action's fields and `wait_for`. An unknown action gives `Unknown action: <action>` without a fetch. Every fetch is for a known action, at the command's url. An exception occurs only when the engine raised. A success only comes from a loaded page |
| Bridge.Settle | scripts/scrapling_bridge.py:145-146 | a returned response passes through; an exception becomes `scrapling error: <message>` with `isError` |
| Bridge.Run | scripts/scrapling_bridge.py:115-148 | the exit code is 1 exactly when decoding failed or the url is missing or empty, and 0 otherwise. Exit 1 always carries `isError` and makes no fetch. The decode and url messages are exact. Every fetch goes to the command's url with the fixed options. An engine exception becomes `scrapling error: <message>` with exit 0. A response is a success exactly when a fetch was made and the page loaded |
| Bridge.AbsentActionIsGetContent | scripts/scrapling_bridge.py:124-136 | a command without an action key runs exactly like the same command with `"get_content"` |
| Bridge.UnknownActionIsRefused | scripts/scrapling_bridge.py:143-144 | any action outside the four names, null included, gives `Unknown action: <action>` with `isError`, exit 0 and no fetch. For null the text is `Unknown action: None` |
| Bridge.EngineNotConsulted | scripts/scrapling_bridge.py:116-144 | a run that makes no fetch gives the same result for every engine |
| Bridge.ClickRequiresSelector | scripts/scrapling_bridge.py:45-46 | click with a missing or empty selector gives the selector error, exit 0 and no fetch |
| Bridge.FillRequiresSelectorFirst | scripts/scrapling_bridge.py:71-72 | fill with a missing or empty selector gives the selector error whatever the value is, with exit 0 and no fetch |
| Bridge.FillRequiresValue | scripts/scrapling_bridge.py:73-74 | fill with a selector and a missing or null value gives the value error, exit 0 and no fetch |
| Bridge.FillAcceptsEmptyValue | scripts/scrapling_bridge.py:73-88 | fill with value `""` passes validation and fetches with the empty value. A loaded page answers `Filled "<selector>" with value ""` |
| Bridge.ClickFormat | scripts/scrapling_bridge.py:43-66 | click with a selector fetches with a click on that selector. A loaded page gives exit 0 and the `Clicked` header, then the text cut at 10000. An engine exception gives `scrapling error: <message>` with exit 0 |
| Bridge.FillFormat | scripts/scrapling_bridge.py:69-88 | fill with a selector and a present value fetches with that value. A loaded page gives exactly `Filled "<selector>" with value "<value>"` and exit 0. An engine exception gives `scrapling error: <message>` with exit 0 |
| Bridge.EvaluateFormat | scripts/scrapling_bridge.py:91-112 | evaluate with a script fetches with that script. A loaded page gives exit 0 and `JavaScript result:`, then the result cut at 10000. A script or engine exception gives `scrapling error: <message>` with exit 0 |
| Bridge.EvaluateRequiresJavascript | scripts/scrapling_bridge.py:93-94 | evaluate with a missing or empty script gives the javascript error, exit 0 and no fetch |
| Bridge.GetContentFormat | scripts/scrapling_bridge.py:35-39 | get_content (named or defaulted) fetches the url with `wait_for` as the wait selector. On a loaded page, the content is the header followed by the page text, verbatim or cut at 15000 with the marker |
| Bridge.BridgeProcess.Serve | scripts/scrapling_bridge.py:115-148 | a process that has not yet exited serves one command: it appends exactly one response to standard output. It sets the exit status and records the fetch it made. All three agree with `Run` |

## Left out

- `StealthyFetcher.fetch` and every page operation are left out: `css_first`, `get_all_text`, `click`, `fill`, `wait_for_selector` with its 10000 ms timeout, `wait_for_timeout(1500)` and `evaluate`. They are an external browser engine, modelled only by its answer to the request: a loaded `Page` or a raised message.
- Reading stdin, `print` and `sys.exit` are process I/O. The response and the exit code are returned as values, and `BridgeProcess` keeps them in fields.
- `json.loads` and `json.dumps` are not modelled. Decoding is an input (`Decoded` or `DecodeError`). The JSON text of the evaluate result (`default=str`) is the page's `jsResult` string. A failure to serialise it would surface as an engine exception. The response is kept as a value, not as its JSON line.
- A decoded document that is not an object, such as a top-level array, makes `cmd.get` raise outside any `try`. That is an uncaught crash, which the model does not represent: `Decoded` always carries an object.
- Command fields holding JSON numbers, booleans, arrays or objects are not modelled. Their Python truthiness and `str()` rendering in `Unknown action: …` are therefore not modelled either. Fields are missing, null or strings.
- In `handle_evaluate`, the engine is assumed to run the page action whenever the fetch loads. The case where `js_result` stays `None` and renders as `null` is not separated out.
