/** The live browser session, seen from the engine: an opaque collaborator that
    answers each call issued against it with a value or an exception. The
    session is modelled by an oracle (`respond(k)` is its answer to the k-th
    call) and a log of the calls issued so far, so every run of the engine is
    deterministic once the oracle is fixed. */
module Browser {
  import opened Py

  /** The readiness an explicit wait asks for (`presence_of_element_located`,
      `visibility_of_element_located`, `element_to_be_clickable`). */
  datatype Readiness = Present | Visible | Clickable

  /** One operation issued against the session. `strategy` is the lower-case
      strategy string of Selenium's `By` class. */
  datatype Call =
    | Wait(readiness: Readiness, strategy: string, locator: Value, timeout: Value)
    | SendKeys(element: Value, text: Value)
    | ElementClick(element: Value)
    | ExecuteScript(script: Value, args: seq<Value>)
    | ClickAndHold(element: Value)
    | Release(element: Value)
    | FindElement(strategy: string, locator: Value)
    | FindElements(strategy: string, locator: Value)
    | ReadText(target: Value)        // the `.text` property of an element or an alert
    | SwitchToFrame(frame: Value)
    | Title
    | CurrentUrl
    | PageSource
    | Close
    | Quit
    | Back
    | Forward
    | Refresh
    | SwitchToAlert
    | SwitchToDefaultContent
    | GetCookies
    | AddCookie(cookie: Value)
    | DeleteCookie(name: Value)
    | DeleteAllCookies
    | SaveScreenshot(path: Value)
    | WindowHandles
    | SwitchToWindow(handle: Value)
    | SetWindowSize(width: int, height: int)
    | Navigate(url: Value)

  datatype Reply = Gives(v: Value) | Throws(e: Error)

  /** `respond(k)` is how the browser answers the k-th call of the run. */
  type Oracle = nat -> Reply

  /** What a piece of engine code does to the session when it starts at some
      position of the oracle: how it ends and the calls it issues, in order. */
  datatype Run = Run(out: Outcome, calls: seq<Call>)

  /** The reply turned into the outcome of a call that returns it. */
  function Answer(r: Reply): (o: Outcome)
    ensures r.Gives? ==> o == Returned(r.v)
    ensures r.Throws? ==> o == Raised(r.e)
  {
    match r
    case Gives(v) => Returned(v)
    case Throws(e) => Raised(e)
  }

  /** `driver.quit(); exit(1)`: the process ends with status 1 unless `quit`
      itself raises, in which case its exception propagates instead. */
  function QuitThenExit(quitReply: Reply): (o: Outcome)
    ensures quitReply.Gives? ==> o == Exited(1)
    ensures quitReply.Throws? ==> o == Raised(quitReply.e)
  {
    if quitReply.Throws? then Raised(quitReply.e) else Exited(1)
  }

  /** `r` and the log after the call are what `s` says, starting from `before`. */
  ghost predicate Performed(s: Run, r: Outcome, before: seq<Call>, after: seq<Call>) {
    r == s.out && after == before + s.calls
  }

  class Session {
    const respond: Oracle
    var log: seq<Call>

    constructor (respond: Oracle)
      ensures this.respond == respond && log == []
    {
      this.respond := respond;
      log := [];
    }

    /** Issue one call; the answer is the oracle's reply at the call's position. */
    method Issue(c: Call) returns (r: Reply)
      modifies this
      ensures log == old(log) + [c]
      ensures r == respond(|old(log)|)
    {
      r := respond(|log|);
      log := log + [c];
    }
  }

  // ---------------------------------------------------------------------------
  // The DriverActions methods that only forward to one session call. Both
  // driver implementations (driver_actions.py:104-167, main2.py:67-132) have
  // the same nineteen of them.
  // ---------------------------------------------------------------------------

  predicate IsForwarder(name: string) {
    name in {
      "switch_to", "get_title", "get_current_url", "get_page_source", "close",
      "quit", "go_back", "go_forward", "refresh", "switch_to_alert",
      "switch_to_default_content", "execute_script", "get_cookies", "add_cookie",
      "delete_cookie", "delete_all_cookies", "save_screenshot",
      "get_window_handles", "switch_to_window"
    }
  }

  /** The one parameter a forwarder takes, if any. */
  function ForwardParam(name: string): Option<string> {
    match name
    case "switch_to" => Some("frame")
    case "execute_script" => Some("script")
    case "add_cookie" => Some("cookie_dict")
    case "delete_cookie" => Some("cookie_name")
    case "save_screenshot" => Some("path")
    case "switch_to_window" => Some("handle")
    case _ => None
  }

  /** The forwarders whose Python method `return`s the session's answer; the
      others return None. */
  predicate IsYielding(name: string) {
    name in {
      "get_title", "get_current_url", "get_page_source", "switch_to_alert",
      "execute_script", "get_cookies", "get_window_handles"
    }
  }

  /** The session call a forwarder issues, given its argument (ignored when
      it takes none). */
  function ForwardCall(name: string, arg: Value): Call
    requires IsForwarder(name)
  {
    match name
    case "switch_to" => SwitchToFrame(arg)
    case "get_title" => Title
    case "get_current_url" => CurrentUrl
    case "get_page_source" => PageSource
    case "close" => Close
    case "quit" => Quit
    case "go_back" => Back
    case "go_forward" => Forward
    case "refresh" => Refresh
    case "switch_to_alert" => SwitchToAlert
    case "switch_to_default_content" => SwitchToDefaultContent
    case "execute_script" => ExecuteScript(arg, [])
    case "get_cookies" => GetCookies
    case "add_cookie" => AddCookie(arg)
    case "delete_cookie" => DeleteCookie(arg)
    case "delete_all_cookies" => DeleteAllCookies
    case "save_screenshot" => SaveScreenshot(arg)
    case "get_window_handles" => WindowHandles
    case "switch_to_window" => SwitchToWindow(arg)
  }

  /** A forwarder: exactly one call, whose answer is returned or discarded. */
  function ForwardRun(o: Oracle, n: nat, name: string, arg: Value): (r: Run)
    requires IsForwarder(name)
    ensures r.calls == [ForwardCall(name, arg)]
    ensures !r.out.Exited?
    ensures r.out.Raised? <==> o(n).Throws?
    ensures IsYielding(name) && o(n).Gives? ==> r.out == Returned(o(n).v)
    ensures !IsYielding(name) && o(n).Gives? ==> r.out == Returned(VNull)
  {
    var a := Answer(o(n));
    Run(if IsYielding(name) then a else Discarded(a), [ForwardCall(name, arg)])
  }
}
