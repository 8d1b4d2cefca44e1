/** The values that cross the bridge's boundaries: the decoded command, the
    response envelope, and what the browser engine is asked and answers. */
module Protocol {

  datatype Option<+T> = None | Some(value: T)

  /** The JSON value under one key of the command object. Only strings and
      null are modelled; `cmd.get(key)` reads both Absent and Null as None. */
  datatype Field = Absent | Null | Str(text: string)

  /** One decoded command object. */
  datatype Command = Command(
    url: Field,
    action: Field,
    selector: Field,
    value: Field,
    javascript: Field,
    waitFor: Field)

  /** What reading stdin and decoding it produced. */
  datatype DecodeOutcome = Decoded(cmd: Command) | DecodeError(message: string)

  /** The `{content, isError?}` envelope; `isError == false` stands for the
      key being omitted, which is how every success path writes it. */
  datatype Response = Response(content: string, isError: bool)

  function Success(content: string): Response { Response(content, false) }

  function Failure(content: string): Response { Response(content, true) }

  /** The `page_action` callback handed to the engine. `waitFor` is the
      selector awaited (with a 10 s timeout) before the interaction. */
  datatype PageAction =
    | NoPageAction
    | ClickAction(waitFor: Option<string>, selector: string)
    | FillAction(waitFor: Option<string>, selector: string, value: string)
    | EvaluateAction(waitFor: Option<string>, javascript: string)

  /** One call of `StealthyFetcher.fetch`. */
  datatype FetchRequest = FetchRequest(
    url: string,
    headless: bool,
    networkIdle: bool,
    waitSelector: Option<string>,
    pageAction: PageAction)

  /** What the handlers read from a loaded page: the `<title>` text if there
      is a title element, the status code, the whole-page text, and the
      serialized value the page action's script returned. */
  datatype Page = Page(title: Option<string>, status: int, text: string, jsResult: string)

  /** A fetch either loads a page or raises. */
  datatype EngineOutcome = Loaded(page: Page) | Raised(message: string)

  /** The browser engine, seen only through its answers. */
  type Engine = FetchRequest -> EngineOutcome

  /** Looking a key up in the command: the string under it, or None when the
      key is missing or holds null. */
  function Get(f: Field): (r: Option<string>)
    ensures r.Some? <==> f.Str?
    ensures f.Str? ==> r.value == f.text
  {
    match f
    case Str(s) => Some(s)
    case _ => None
  }

  /** Python truthiness of a string-or-None value: false exactly for None
      and for the empty string. */
  predicate Truthy(v: Option<string>): (b: bool)
    ensures !b <==> v == None || v == Some("")
  {
    v.Some? && v.value != ""
  }
}
