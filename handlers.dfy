/** The four action handlers: each checks its own required fields, builds
    the engine request, and composes the response text from the page. */
module Handlers {
  import opened Protocol
  import opened Text
  import opened Decimal

  /** How a handler ended: it returned a response, or the engine raised and
      the exception left the handler. */
  datatype HandlerOutcome = Returned(response: Response) | Threw(message: string)

  /** A handler's outcome together with the fetch it made, if any. */
  datatype Step = Step(outcome: HandlerOutcome, call: Option<FetchRequest>)

  /** The text of the page's title element, or the empty string when the
      page has none. */
  function TitleText(p: Page): (t: string)
    ensures p.title.Some? ==> t == p.title.value
    ensures p.title.None? ==> t == ""
  {
    match p.title
    case Some(t) => t
    case None => ""
  }

  /** The page-action callbacks only wait when `wait_for` is truthy. */
  function WaitIfGiven(waitFor: Option<string>): (w: Option<string>)
    ensures w.Some? <==> Truthy(waitFor)
    ensures w.Some? ==> w == waitFor
  {
    if Truthy(waitFor) then waitFor else None
  }

  /** The fetch with the fixed base configuration: headless, network idle. */
  function Fetch(url: string, waitSelector: Option<string>, action: PageAction): (q: FetchRequest)
    ensures q.url == url && q.headless && q.networkIdle
    ensures q.waitSelector == waitSelector && q.pageAction == action
  {
    FetchRequest(url, true, true, waitSelector, action)
  }

  /** The get_content header, line by line: `Page: ` and the title, `URL: `
      and the url, `Status: ` and the status in decimal, then a blank line. */
  function GetContentHeader(url: string, p: Page): (h: string)
    ensures |h| == 6 + |TitleText(p)| + 6 + |url| + 9 + |IntToString(p.status)| + 2
    ensures h[..6 + |TitleText(p)|] == "Page: " + TitleText(p)
    ensures h[6 + |TitleText(p)|..6 + |TitleText(p)| + 6 + |url|] == "\nURL: " + url
    ensures h[6 + |TitleText(p)| + 6 + |url|..|h| - 2] == "\nStatus: " + IntToString(p.status)
    ensures h[|h| - 2..] == "\n\n"
  {
    "Page: " + TitleText(p) + "\nURL: " + url + "\nStatus: " + IntToString(p.status) + "\n\n"
  }

  /** The click header, line by line: `Clicked ` and the selector in quotes,
      `Page: ` and the title, `URL: ` and the url, then a blank line. */
  function ClickHeader(url: string, selector: string, p: Page): (h: string)
    ensures |h| == 9 + |selector| + 2 + 6 + |TitleText(p)| + 6 + |url| + 2
    ensures h[..9 + |selector| + 2] == "Clicked \"" + selector + "\"\n"
    ensures h[9 + |selector| + 2..9 + |selector| + 2 + 6 + |TitleText(p)|] == "Page: " + TitleText(p)
    ensures h[9 + |selector| + 2 + 6 + |TitleText(p)|..|h| - 2] == "\nURL: " + url
    ensures h[|h| - 2..] == "\n\n"
  {
    "Clicked \"" + selector + "\"\nPage: " + TitleText(p) + "\nURL: " + url + "\n\n"
  }

  const EvaluateHeader: string := "JavaScript result:\n"

  /** `content` is `header` followed by `text` cut to `limit`: the text
      verbatim when it fits, otherwise its first `limit` characters and the
      truncation marker. */
  predicate HeaderThenText(content: string, header: string, text: string, limit: nat)
  {
    |content| >= |header| && content[..|header|] == header &&
    (|text| <= limit ==> content[|header|..] == text) &&
    (|text| > limit ==> content[|header|..] == text[..limit] + TruncationMarker)
  }

  lemma ComposeHeaderThenText(header: string, text: string, limit: nat)
    ensures HeaderThenText(header + Truncate(text, limit), header, text, limit)
  {
  }

  /** For a fixed url and title, the get_content header determines the
      status: two pages whose headers agree have the same status code. */
  lemma {:induction false} HeaderDeterminesStatus(url: string, p: Page, q: Page)
    requires TitleText(p) == TitleText(q)
    requires GetContentHeader(url, p) == GetContentHeader(url, q)
    ensures p.status == q.status
  {
    var h := GetContentHeader(url, p);
    var k := 6 + |TitleText(p)| + 6 + |url|;
    assert "\nStatus: " + IntToString(p.status) == h[k..|h| - 2] == "\nStatus: " + IntToString(q.status);
    assert IntToString(p.status) == ("\nStatus: " + IntToString(p.status))[9..];
    assert IntToString(q.status) == ("\nStatus: " + IntToString(q.status))[9..];
    IntToStringInjective(p.status, q.status);
  }

  /** handle_get_content: no field of its own to check; always fetches. */
  function HandleGetContent(url: string, waitFor: Option<string>, engine: Engine): (r: Step)
    ensures r.call == Some(Fetch(url, waitFor, NoPageAction))
    ensures engine(r.call.value).Raised? ==> r.outcome == Threw(engine(r.call.value).message)
    ensures engine(r.call.value).Loaded? ==>
              r.outcome.Returned? && !r.outcome.response.isError &&
              HeaderThenText(r.outcome.response.content,
                             GetContentHeader(url, engine(r.call.value).page),
                             engine(r.call.value).page.text, MaxTextLength)
  {
    var q := Fetch(url, waitFor, NoPageAction);
    match engine(q)
    case Raised(e) => Step(Threw(e), Some(q))
    case Loaded(p) =>
      ComposeHeaderThenText(GetContentHeader(url, p), p.text, MaxTextLength);
      Step(Returned(Success(GetContentHeader(url, p) + Truncate(p.text, MaxTextLength))), Some(q))
  }

  /** handle_click: an empty or missing selector is refused before any fetch. */
  function HandleClick(url: string, selector: Option<string>, waitFor: Option<string>, engine: Engine): (r: Step)
    ensures r.call.None? <==> !Truthy(selector)
    ensures !Truthy(selector) ==>
              r.outcome == Returned(Failure("Error: selector is required for click action"))
    ensures Truthy(selector) ==>
              r.call == Some(Fetch(url, None, ClickAction(WaitIfGiven(waitFor), selector.value)))
    ensures r.call.Some? && engine(r.call.value).Raised? ==>
              r.outcome == Threw(engine(r.call.value).message)
    ensures r.call.Some? && engine(r.call.value).Loaded? ==>
              r.outcome.Returned? && !r.outcome.response.isError &&
              HeaderThenText(r.outcome.response.content,
                             ClickHeader(url, selector.value, engine(r.call.value).page),
                             engine(r.call.value).page.text, InteractionTextLength)
  {
    if !Truthy(selector) then
      Step(Returned(Failure("Error: selector is required for click action")), None)
    else
      var q := Fetch(url, None, ClickAction(WaitIfGiven(waitFor), selector.value));
      match engine(q)
      case Raised(e) => Step(Threw(e), Some(q))
      case Loaded(p) =>
        ComposeHeaderThenText(ClickHeader(url, selector.value, p), p.text, InteractionTextLength);
        Step(Returned(Success(ClickHeader(url, selector.value, p) + Truncate(p.text, InteractionTextLength))), Some(q))
  }

  /** handle_fill: the selector is checked first, then the value; an empty
      value is accepted, only a missing one is refused. */
  function HandleFill(url: string, selector: Option<string>, value: Option<string>, waitFor: Option<string>, engine: Engine): (r: Step)
    ensures r.call.None? <==> !Truthy(selector) || value.None?
    ensures !Truthy(selector) ==>
              r.outcome == Returned(Failure("Error: selector is required for fill action"))
    ensures Truthy(selector) && value.None? ==>
              r.outcome == Returned(Failure("Error: value is required for fill action"))
    ensures Truthy(selector) && value.Some? ==>
              r.call == Some(Fetch(url, None, FillAction(WaitIfGiven(waitFor), selector.value, value.value)))
    ensures r.call.Some? && engine(r.call.value).Raised? ==>
              r.outcome == Threw(engine(r.call.value).message)
    ensures r.call.Some? && engine(r.call.value).Loaded? ==>
              r.outcome == Returned(Success("Filled \"" + selector.value + "\" with value \"" + value.value + "\""))
  {
    if !Truthy(selector) then
      Step(Returned(Failure("Error: selector is required for fill action")), None)
    else if value.None? then
      Step(Returned(Failure("Error: value is required for fill action")), None)
    else
      var q := Fetch(url, None, FillAction(WaitIfGiven(waitFor), selector.value, value.value));
      match engine(q)
      case Raised(e) => Step(Threw(e), Some(q))
      case Loaded(_) =>
        Step(Returned(Success("Filled \"" + selector.value + "\" with value \"" + value.value + "\"")), Some(q))
  }

  /** handle_evaluate: an empty or missing script is refused before any fetch. */
  function HandleEvaluate(url: string, javascript: Option<string>, waitFor: Option<string>, engine: Engine): (r: Step)
    ensures r.call.None? <==> !Truthy(javascript)
    ensures !Truthy(javascript) ==>
              r.outcome == Returned(Failure("Error: javascript is required for evaluate action"))
    ensures Truthy(javascript) ==>
              r.call == Some(Fetch(url, None, EvaluateAction(WaitIfGiven(waitFor), javascript.value)))
    ensures r.call.Some? && engine(r.call.value).Raised? ==>
              r.outcome == Threw(engine(r.call.value).message)
    ensures r.call.Some? && engine(r.call.value).Loaded? ==>
              r.outcome.Returned? && !r.outcome.response.isError &&
              HeaderThenText(r.outcome.response.content, EvaluateHeader,
                             engine(r.call.value).page.jsResult, InteractionTextLength)
  {
    if !Truthy(javascript) then
      Step(Returned(Failure("Error: javascript is required for evaluate action")), None)
    else
      var q := Fetch(url, None, EvaluateAction(WaitIfGiven(waitFor), javascript.value));
      match engine(q)
      case Raised(e) => Step(Threw(e), Some(q))
      case Loaded(p) =>
        ComposeHeaderThenText(EvaluateHeader, p.jsResult, InteractionTextLength);
        Step(Returned(Success(EvaluateHeader + Truncate(p.jsResult, InteractionTextLength))), Some(q))
  }
}
