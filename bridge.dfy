/** The one-shot request cycle of `main`: decode, require a url, dispatch on
    the action, collapse engine exceptions, and choose the exit code. */
module Bridge {
  import opened Protocol
  import opened Handlers

  /** What one run produces: the single printed response, the process exit
      code, and the engine fetch made, if any. */
  datatype RunResult = RunResult(response: Response, exitCode: int, call: Option<FetchRequest>)

  /** The action the command asks for. The get_content default applies only
      when the key is missing; an explicit null reads as None. */
  function ActionOf(f: Field): (a: Option<string>)
    ensures f.Absent? ==> a == Some("get_content")
    ensures f.Null? ==> a.None?
    ensures f.Str? ==> a == Some(f.text)
  {
    match f
    case Absent => Some("get_content")
    case Null => None
    case Str(s) => Some(s)
  }

  /** How the action is written into the unknown-action message: a string
      as itself, an explicit null (None) as Python writes it, `None`. */
  function ActionText(a: Option<string>): (t: string)
    ensures a.Some? ==> t == a.value
    ensures a.None? ==> t == "None"
  {
    match a
    case Some(s) => s
    case None => "None"
  }

  predicate KnownAction(a: Option<string>)
  {
    a == Some("get_content") || a == Some("click") || a == Some("fill") || a == Some("evaluate")
  }

  /** The if/elif chain of `main`, for a command whose url is present. */
  function Dispatch(cmd: Command, url: string, engine: Engine): (r: Step)
    ensures !KnownAction(ActionOf(cmd.action)) ==>
              r == Step(Returned(Failure("Unknown action: " + ActionText(ActionOf(cmd.action)))), None)
    ensures r.call.Some? ==> KnownAction(ActionOf(cmd.action)) && r.call.value.url == url
    ensures r.call.Some? ==> r.call.value.headless && r.call.value.networkIdle
    ensures r.call.Some? && engine(r.call.value).Raised? ==> r.outcome == Threw(engine(r.call.value).message)
    ensures r.outcome.Threw? ==> r.call.Some? && engine(r.call.value).Raised?
    ensures r.outcome.Returned? && !r.outcome.response.isError ==>
              r.call.Some? && engine(r.call.value).Loaded?
    // each known action reaches its own handler with its own fields
    ensures ActionOf(cmd.action) == Some("get_content") ==>
              r == HandleGetContent(url, Get(cmd.waitFor), engine)
    ensures ActionOf(cmd.action) == Some("click") ==>
              r == HandleClick(url, Get(cmd.selector), Get(cmd.waitFor), engine)
    ensures ActionOf(cmd.action) == Some("fill") ==>
              r == HandleFill(url, Get(cmd.selector), Get(cmd.value), Get(cmd.waitFor), engine)
    ensures ActionOf(cmd.action) == Some("evaluate") ==>
              r == HandleEvaluate(url, Get(cmd.javascript), Get(cmd.waitFor), engine)
  {
    var action := ActionOf(cmd.action);
    var waitFor := Get(cmd.waitFor);
    if action == Some("get_content") then
      HandleGetContent(url, waitFor, engine)
    else if action == Some("click") then
      HandleClick(url, Get(cmd.selector), waitFor, engine)
    else if action == Some("fill") then
      HandleFill(url, Get(cmd.selector), Get(cmd.value), waitFor, engine)
    else if action == Some("evaluate") then
      HandleEvaluate(url, Get(cmd.javascript), waitFor, engine)
    else
      Step(Returned(Failure("Unknown action: " + ActionText(action))), None)
  }

  /** The catch-all around dispatch: an exception leaving a handler becomes
      the uniform engine-failure response. */
  function Settle(outcome: HandlerOutcome): (resp: Response)
    ensures outcome.Returned? ==> resp == outcome.response
    ensures outcome.Threw? ==> resp == Failure("scrapling error: " + outcome.message)
  {
    match outcome
    case Returned(resp) => resp
    case Threw(e) => Failure("scrapling error: " + e)
  }

  /** The command was decoded and carries a non-empty url string. */
  predicate HasUrl(input: DecodeOutcome)
  {
    input.Decoded? && Truthy(Get(input.cmd.url))
  }

  /** One whole run of the bridge on the decoded input. */
  function Run(input: DecodeOutcome, engine: Engine): (r: RunResult)
    // only the two protocol-fatal cases exit non-zero, and they exit 1
    ensures r.exitCode == 0 || r.exitCode == 1
    ensures r.exitCode == 1 <==> !HasUrl(input)
    ensures r.exitCode == 1 ==> r.response.isError && r.call.None?
    ensures input.DecodeError? ==> r.response == Failure("Invalid input: " + input.message)
    ensures input.Decoded? && !HasUrl(input) ==> r.response == Failure("Error: url is required")
    // every fetch goes to the command's url with the fixed configuration
    ensures r.call.Some? ==>
              HasUrl(input) && KnownAction(ActionOf(input.cmd.action)) &&
              r.call.value.url == Get(input.cmd.url).value &&
              r.call.value.headless && r.call.value.networkIdle
    // every engine exception becomes one uniform payload-level failure
    ensures r.call.Some? && engine(r.call.value).Raised? ==>
              r.response == Failure("scrapling error: " + engine(r.call.value).message) && r.exitCode == 0
    // a success needs a fetch that loaded a page, and every loaded page gives one
    ensures !r.response.isError ==> r.exitCode == 0 && r.call.Some? && engine(r.call.value).Loaded?
    ensures r.call.Some? && engine(r.call.value).Loaded? ==> !r.response.isError
  {
    match input
    case DecodeError(e) => RunResult(Failure("Invalid input: " + e), 1, None)
    case Decoded(cmd) =>
      var url := Get(cmd.url);
      if !Truthy(url) then
        RunResult(Failure("Error: url is required"), 1, None)
      else
        var step := Dispatch(cmd, url.value, engine);
        RunResult(Settle(step.outcome), 0, step.call)
  }

  /** A missing action key runs exactly as `"get_content"` does. */
  lemma AbsentActionIsGetContent(cmd: Command, engine: Engine)
    ensures Run(Decoded(cmd.(action := Absent)), engine) == Run(Decoded(cmd.(action := Str("get_content"))), engine)
  {
  }

  /** An action outside the four names (an explicit null included) is a
      payload-level failure that never reaches the engine. */
  lemma UnknownActionIsRefused(cmd: Command, engine: Engine)
    requires Truthy(Get(cmd.url)) && !KnownAction(ActionOf(cmd.action))
    ensures Run(Decoded(cmd), engine) ==
            RunResult(Failure("Unknown action: " + ActionText(ActionOf(cmd.action))), 0, None)
    ensures cmd.action.Null? ==> Run(Decoded(cmd), engine).response.content == "Unknown action: None"
  {
  }

  /** A run that makes no fetch does not depend on the engine at all. */
  lemma EngineNotConsulted(input: DecodeOutcome, e1: Engine, e2: Engine)
    requires Run(input, e1).call.None?
    ensures Run(input, e2) == Run(input, e1)
  {
  }

  /** click without a selector: refused in the payload, exit 0, no fetch. */
  lemma ClickRequiresSelector(cmd: Command, engine: Engine)
    requires Truthy(Get(cmd.url)) && cmd.action == Str("click") && !Truthy(Get(cmd.selector))
    ensures Run(Decoded(cmd), engine) ==
            RunResult(Failure("Error: selector is required for click action"), 0, None)
  {
  }

  /** fill checks the selector before the value. */
  lemma FillRequiresSelectorFirst(cmd: Command, engine: Engine)
    requires Truthy(Get(cmd.url)) && cmd.action == Str("fill") && !Truthy(Get(cmd.selector))
    ensures Run(Decoded(cmd), engine) ==
            RunResult(Failure("Error: selector is required for fill action"), 0, None)
  {
  }

  /** fill with a missing (absent or null) value: refused, no fetch. */
  lemma FillRequiresValue(cmd: Command, engine: Engine)
    requires Truthy(Get(cmd.url)) && cmd.action == Str("fill") && Truthy(Get(cmd.selector))
    requires cmd.value.Absent? || cmd.value.Null?
    ensures Run(Decoded(cmd), engine) ==
            RunResult(Failure("Error: value is required for fill action"), 0, None)
  {
  }

  /** fill with an empty-string value passes validation and reaches the engine. */
  lemma FillAcceptsEmptyValue(cmd: Command, engine: Engine)
    requires Truthy(Get(cmd.url)) && cmd.action == Str("fill") && Truthy(Get(cmd.selector))
    requires cmd.value == Str("")
    ensures Run(Decoded(cmd), engine).call.Some?
    ensures Run(Decoded(cmd), engine).call.value.pageAction.FillAction?
    ensures Run(Decoded(cmd), engine).call.value.pageAction.value == ""
    ensures engine(Run(Decoded(cmd), engine).call.value).Loaded? ==>
              Run(Decoded(cmd), engine).response ==
              Success("Filled \"" + cmd.selector.text + "\" with value \"\"")
  {
  }

  /** evaluate without a script: refused, no fetch. */
  lemma EvaluateRequiresJavascript(cmd: Command, engine: Engine)
    requires Truthy(Get(cmd.url)) && cmd.action == Str("evaluate") && !Truthy(Get(cmd.javascript))
    ensures Run(Decoded(cmd), engine) ==
            RunResult(Failure("Error: javascript is required for evaluate action"), 0, None)
  {
  }

  /** get_content on a loaded page: the fixed header, then the page text,
      verbatim up to 15000 characters and cut with the marker beyond. */
  lemma GetContentFormat(cmd: Command, engine: Engine)
    requires Truthy(Get(cmd.url)) && ActionOf(cmd.action) == Some("get_content")
    ensures Run(Decoded(cmd), engine).call ==
            Some(Fetch(Get(cmd.url).value, Get(cmd.waitFor), NoPageAction))
    ensures engine(Run(Decoded(cmd), engine).call.value).Loaded? ==>
              var p := engine(Run(Decoded(cmd), engine).call.value).page;
              !Run(Decoded(cmd), engine).response.isError &&
              HeaderThenText(Run(Decoded(cmd), engine).response.content,
                             GetContentHeader(Get(cmd.url).value, p), p.text, Text.MaxTextLength)
  {
  }

  /** click with a selector fetches with a click on it; a loaded page gives
      the click header and the text cut at 10000, an exception the uniform
      engine failure. */
  lemma ClickFormat(cmd: Command, engine: Engine)
    requires Truthy(Get(cmd.url)) && cmd.action == Str("click") && Truthy(Get(cmd.selector))
    ensures Run(Decoded(cmd), engine).call ==
            Some(Fetch(Get(cmd.url).value, None,
                       ClickAction(WaitIfGiven(Get(cmd.waitFor)), cmd.selector.text)))
    ensures engine(Run(Decoded(cmd), engine).call.value).Loaded? ==>
              var p := engine(Run(Decoded(cmd), engine).call.value).page;
              Run(Decoded(cmd), engine).exitCode == 0 &&
              !Run(Decoded(cmd), engine).response.isError &&
              HeaderThenText(Run(Decoded(cmd), engine).response.content,
                             ClickHeader(Get(cmd.url).value, cmd.selector.text, p), p.text,
                             Text.InteractionTextLength)
    ensures engine(Run(Decoded(cmd), engine).call.value).Raised? ==>
              Run(Decoded(cmd), engine) ==
              RunResult(Failure("scrapling error: " + engine(Run(Decoded(cmd), engine).call.value).message),
                        0, Run(Decoded(cmd), engine).call)
  {
  }

  /** fill with a selector and a present value fetches with that value; a
      loaded page gives the confirmation naming both. */
  lemma FillFormat(cmd: Command, engine: Engine)
    requires Truthy(Get(cmd.url)) && cmd.action == Str("fill") && Truthy(Get(cmd.selector))
    requires cmd.value.Str?
    ensures Run(Decoded(cmd), engine).call ==
            Some(Fetch(Get(cmd.url).value, None,
                       FillAction(WaitIfGiven(Get(cmd.waitFor)), cmd.selector.text, cmd.value.text)))
    ensures engine(Run(Decoded(cmd), engine).call.value).Loaded? ==>
              Run(Decoded(cmd), engine) ==
              RunResult(Success("Filled \"" + cmd.selector.text + "\" with value \"" + cmd.value.text + "\""),
                        0, Run(Decoded(cmd), engine).call)
    ensures engine(Run(Decoded(cmd), engine).call.value).Raised? ==>
              Run(Decoded(cmd), engine) ==
              RunResult(Failure("scrapling error: " + engine(Run(Decoded(cmd), engine).call.value).message),
                        0, Run(Decoded(cmd), engine).call)
  {
  }

  /** evaluate with a script fetches with it; a loaded page gives the result
      cut at 10000, and a script that throws gives the uniform engine
      failure with exit 0. */
  lemma EvaluateFormat(cmd: Command, engine: Engine)
    requires Truthy(Get(cmd.url)) && cmd.action == Str("evaluate") && Truthy(Get(cmd.javascript))
    ensures Run(Decoded(cmd), engine).call ==
            Some(Fetch(Get(cmd.url).value, None,
                       EvaluateAction(WaitIfGiven(Get(cmd.waitFor)), cmd.javascript.text)))
    ensures engine(Run(Decoded(cmd), engine).call.value).Loaded? ==>
              var p := engine(Run(Decoded(cmd), engine).call.value).page;
              Run(Decoded(cmd), engine).exitCode == 0 &&
              !Run(Decoded(cmd), engine).response.isError &&
              HeaderThenText(Run(Decoded(cmd), engine).response.content, EvaluateHeader,
                             p.jsResult, Text.InteractionTextLength)
    ensures engine(Run(Decoded(cmd), engine).call.value).Raised? ==>
              Run(Decoded(cmd), engine) ==
              RunResult(Failure("scrapling error: " + engine(Run(Decoded(cmd), engine).call.value).message),
                        0, Run(Decoded(cmd), engine).call)
  {
  }

  /** The imperative shape of `main`: one process serves one command, prints
      exactly one response and records how it exits. */
  class BridgeProcess {
    /** Responses printed on standard output. */
    var stdout: seq<Response>
    /** None while running; the exit status once `main` has finished. */
    var exitCode: Option<int>
    /** Fetches handed to the engine. */
    var fetches: seq<FetchRequest>

    constructor ()
      ensures stdout == [] && exitCode.None? && fetches == []
    {
      stdout := [];
      exitCode := None;
      fetches := [];
    }

    method Serve(input: DecodeOutcome, engine: Engine)
      requires exitCode.None?
      modifies this
      ensures stdout == old(stdout) + [Run(input, engine).response]
      ensures exitCode == Some(Run(input, engine).exitCode)
      ensures fetches == old(fetches) + (if Run(input, engine).call.Some? then [Run(input, engine).call.value] else [])
    {
      if input.DecodeError? {
        stdout := stdout + [Failure("Invalid input: " + input.message)];
        exitCode := Some(1);
        return;
      }
      var cmd := input.cmd;
      var url := Get(cmd.url);
      var action := ActionOf(cmd.action);
      var selector := Get(cmd.selector);
      var value := Get(cmd.value);
      var javascript := Get(cmd.javascript);
      var waitFor := Get(cmd.waitFor);
      if !Truthy(url) {
        stdout := stdout + [Failure("Error: url is required")];
        exitCode := Some(1);
        return;
      }
      var step: Step;
      if action == Some("get_content") {
        step := HandleGetContent(url.value, waitFor, engine);
      } else if action == Some("click") {
        step := HandleClick(url.value, selector, waitFor, engine);
      } else if action == Some("fill") {
        step := HandleFill(url.value, selector, value, waitFor, engine);
      } else if action == Some("evaluate") {
        step := HandleEvaluate(url.value, javascript, waitFor, engine);
      } else {
        step := Step(Returned(Failure("Unknown action: " + ActionText(action))), None);
      }
      if step.call.Some? {
        fetches := fetches + [step.call.value];
      }
      var result: Response;
      match step.outcome {
        case Returned(resp) => result := resp;
        case Threw(e) => result := Failure("scrapling error: " + e);
      }
      stdout := stdout + [result];
      exitCode := Some(0);
    }
  }
}
