/** What the lenient engine of driver_actions.py does to a browser session, as
    functions of the session's oracle `o` and the position `n` of the first call
    they issue. Each function here is the specification of the method of the
    same role in module Driver, and the properties of the engine are stated on
    these functions and in the lemmas at the end. */
module Engine {
  import opened Py
  import opened Browser
  import opened Locators
  import opened Batches
  import opened Texts
  import StaleRetry

  /** `timeout=10` in every wait. */
  const DefaultTimeout: Value := VInt(10)

  /** The script the fallbacks of `input` and `click` run. */
  const SetValueScript: string := "arguments[0].value = arguments[1];"
  const ClickScript: string := "arguments[0].click();"

  // ---------------------------------------------------------------------------
  // Waits (driver_actions.py:51-59, 69-75)
  // ---------------------------------------------------------------------------

  /** `wait_for_element`: wait for presence; a timeout quits the browser and
      exits with status 1. */
  function WaitPresent(o: Oracle, n: nat, lt: Value, lv: Value, timeout: Value): (r: Run)
    ensures ConvertLocator(lt).Err? ==> r == Run(Raised(ConvertLocator(lt).error), [])
    ensures ConvertLocator(lt).Ok? ==>
      var w := Wait(Present, ByValue(ConvertLocator(lt).value), lv, timeout);
      (o(n).Gives? ==> r == Run(Returned(o(n).v), [w])) &&
      (o(n) == Throws(Timeout) ==> r == Run(QuitThenExit(o(n + 1)), [w, Quit])) &&
      (o(n).Throws? && o(n).e != Timeout ==> r == Run(Raised(o(n).e), [w]))
    ensures r.out.Exited? ==> r.out.code == 1 && r.calls != [] && r.calls[|r.calls| - 1] == Quit
  {
    match ConvertLocator(lt)
    case Err(e) => Run(Raised(e), [])
    case Ok(kind) =>
      var w := Wait(Present, ByValue(kind), lv, timeout);
      match o(n)
      case Gives(el) => Run(Returned(el), [w])
      case Throws(e) =>
        if e == Timeout then Run(QuitThenExit(o(n + 1)), [w, Quit]) else Run(Raised(e), [w])
  }

  /** `wait_for_element_to_be_clickable` / `_visible`: one wait, whose failure
      (a timeout included) propagates to the caller. */
  function WaitReady(o: Oracle, n: nat, readiness: Readiness, lt: Value, lv: Value, timeout: Value): (r: Run)
    ensures ConvertLocator(lt).Err? ==> r == Run(Raised(ConvertLocator(lt).error), [])
    ensures ConvertLocator(lt).Ok? ==>
      r == Run(Answer(o(n)), [Wait(readiness, ByValue(ConvertLocator(lt).value), lv, timeout)])
    ensures !r.out.Exited?
  {
    match ConvertLocator(lt)
    case Err(e) => Run(Raised(e), [])
    case Ok(kind) => Run(Answer(o(n)), [Wait(readiness, ByValue(kind), lv, timeout)])
  }

  // ---------------------------------------------------------------------------
  // One call of the undecorated `input` and `click` (driver_actions.py:78-102)
  // ---------------------------------------------------------------------------

  /** `input`: the visibility wait stands outside the try; a not-interactable
      `send_keys` falls back to a script setting the same value; any other
      `send_keys` failure is logged and swallowed (InputBehaviour). */
  function InputAttempt(o: Oracle, n: nat, lt: Value, lv: Value, text: Value): (r: Run)
    ensures r.out.Returned? ==> r.out.v == VNull
    ensures !r.out.Exited?
  {
    match ConvertLocator(lt)
    case Err(e) => Run(Raised(e), [])
    case Ok(kind) =>
      var w := WaitReady(o, n, Visible, VStr(kind), lv, DefaultTimeout);
      if !w.out.Returned? then w
      else
        var el := w.out.v;
        var m := n + |w.calls|;
        match o(m)
        case Gives(_) => Run(Returned(VNull), w.calls + [SendKeys(el, text)])
        case Throws(e) =>
          if e == NotInteractable then
            Run(Discarded(Answer(o(m + 1))),
                w.calls + [SendKeys(el, text), ExecuteScript(VStr(SetValueScript), [el, text])])
          else Run(Returned(VNull), w.calls + [SendKeys(el, text)])
  }

  /** `click`: the clickability wait stands inside the try, so its failures
      are swallowed too, except a not-interactable one, whose handler reads
      the still unbound `element`; a not-interactable click falls back to a
      script click (ClickBehaviour). */
  function ClickAttempt(o: Oracle, n: nat, lt: Value, lv: Value): (r: Run)
    ensures r.out.Returned? ==> r.out.v == VNull
    ensures !r.out.Exited?
  {
    match ConvertLocator(lt)
    case Err(e) => Run(Raised(e), [])
    case Ok(kind) =>
      var w := WaitReady(o, n, Clickable, VStr(kind), lv, DefaultTimeout);
      if w.out.Returned? then
        var el := w.out.v;
        var m := n + |w.calls|;
        match o(m)
        case Gives(_) => Run(Returned(VNull), w.calls + [ElementClick(el)])
        case Throws(e) =>
          if e == NotInteractable then
            Run(Discarded(Answer(o(m + 1))),
                w.calls + [ElementClick(el), ExecuteScript(VStr(ClickScript), [el])])
          else Run(Returned(VNull), w.calls + [ElementClick(el)])
      else if w.out == Raised(NotInteractable) then Run(Raised(UnboundLocal("element")), w.calls)
      else Run(if w.out.Raised? then Returned(VNull) else w.out, w.calls)
  }

  /** When one call of `input` and of `click` raises, and what it starts with. */
  lemma AttemptShapes(o: Oracle, n: nat, lt: Value, lv: Value, text: Value)
    ensures var r := InputAttempt(o, n, lt, lv, text);
      (ConvertLocator(lt).Err? ==> r == Run(Raised(ConvertLocator(lt).error), [])) &&
      (ConvertLocator(lt).Ok? ==>
         1 <= |r.calls| <= 3 && r.calls[0] == Wait(Visible, ByValue(ConvertLocator(lt).value), lv, DefaultTimeout)) &&
      (r.out.Raised? <==>
         ConvertLocator(lt).Err? || o(n).Throws? || (o(n + 1) == Throws(NotInteractable) && o(n + 2).Throws?))
    ensures var r := ClickAttempt(o, n, lt, lv);
      (ConvertLocator(lt).Err? ==> r == Run(Raised(ConvertLocator(lt).error), [])) &&
      (ConvertLocator(lt).Ok? ==>
         1 <= |r.calls| <= 3 && r.calls[0] == Wait(Clickable, ByValue(ConvertLocator(lt).value), lv, DefaultTimeout)) &&
      (r.out.Raised? <==>
         ConvertLocator(lt).Err? || o(n) == Throws(NotInteractable) ||
         (o(n).Gives? && o(n + 1) == Throws(NotInteractable) && o(n + 2).Throws?))
  {
  }

  /** What one call of `input` does once the locator type is accepted. */
  lemma InputBehaviour(o: Oracle, n: nat, kind: string, lv: Value, text: Value)
    requires IsSupported(kind)
    ensures var w := Wait(Visible, ByValue(kind), lv, DefaultTimeout);
      var r := InputAttempt(o, n, VStr(kind), lv, text);
      (o(n).Throws? ==> r == Run(Raised(o(n).e), [w])) &&
      (o(n).Gives? ==>
        var el := o(n).v;
        (o(n + 1) == Throws(NotInteractable) ==>
           r == Run(Discarded(Answer(o(n + 2))),
                    [w, SendKeys(el, text), ExecuteScript(VStr(SetValueScript), [el, text])])) &&
        (o(n + 1) != Throws(NotInteractable) ==> r == Run(Returned(VNull), [w, SendKeys(el, text)])))
  {
  }

  /** What one call of `click` does once the locator type is accepted. */
  lemma ClickBehaviour(o: Oracle, n: nat, kind: string, lv: Value)
    requires IsSupported(kind)
    ensures var w := Wait(Clickable, ByValue(kind), lv, DefaultTimeout);
      var r := ClickAttempt(o, n, VStr(kind), lv);
      (o(n) == Throws(NotInteractable) ==> r == Run(Raised(UnboundLocal("element")), [w])) &&
      (o(n).Throws? && o(n).e != NotInteractable ==> r == Run(Returned(VNull), [w])) &&
      (o(n).Gives? ==>
        var el := o(n).v;
        (o(n + 1) == Throws(NotInteractable) ==>
           r == Run(Discarded(Answer(o(n + 2))),
                    [w, ElementClick(el), ExecuteScript(VStr(ClickScript), [el])])) &&
        (o(n + 1) != Throws(NotInteractable) ==> r == Run(Returned(VNull), [w, ElementClick(el)])))
  {
  }

  // ---------------------------------------------------------------------------
  // The decorated primitives: the stale-element retry threaded through the
  // session (driver_actions.py:21-32 applied at 77 and 91)
  // ---------------------------------------------------------------------------

  /** The two functions the retry decorator is applied to, with their arguments. */
  datatype Decorated = InputOp(lt: Value, lv: Value, text: Value) | ClickOp(lt: Value, lv: Value)

  /** One call of the undecorated function. */
  function Attempt(o: Oracle, n: nat, op: Decorated): (r: Run)
    ensures !r.out.Exited?
    ensures r.out.Returned? ==> r.out.v == VNull
  {
    match op
    case InputOp(lt, lv, text) => InputAttempt(o, n, lt, lv, text)
    case ClickOp(lt, lv) => ClickAttempt(o, n, lt, lv)
  }

  /** The undecorated function as the wrapper sees it: what one call does
      from each position of the session. */
  function Attempts(o: Oracle, op: Decorated): nat -> Run {
    (m: nat) => Attempt(o, m, op)
  }

  lemma AttemptsEndPlainly(o: Oracle, op: Decorated)
    ensures forall m: nat :: var a := Attempts(o, op)(m);
      !a.out.Exited? && (a.out.Returned? ==> a.out.v == VNull)
  {
    forall m: nat ensures var a := Attempt(o, m, op); !a.out.Exited? && (a.out.Returned? ==> a.out.v == VNull) {
    }
  }

  /** `att` is the undecorated function seen from every position of the
      session. The trigger keeps the attempts' bodies out of proofs that only
      thread positions through the wrapper. */
  ghost predicate IsAttempts(att: nat -> Run, o: Oracle, op: Decorated) {
    forall m: nat {:trigger Attempt(o, m, op)} :: att(m) == Attempt(o, m, op)
  }

  /** The decorated call. */
  function Retried(o: Oracle, n: nat, op: Decorated): (r: Run)
    ensures !r.out.Exited?
    ensures r.out.Returned? ==> r.out.v == VNull
  {
    var att := Attempts(o, op);
    AttemptsEndPlainly(o, op);
    StaleRetry.WrappedEndsAsACall(att, n, StaleRetry.DefaultRetries);
    StaleRetry.Wrapped(att, n, StaleRetry.DefaultRetries)
  }

  lemma AttemptsAre(o: Oracle, op: Decorated)
    ensures IsAttempts(Attempts(o, op), o, op)
  {
  }

  // ---------------------------------------------------------------------------
  // Lookups and mouse gestures (driver_actions.py:131-137, 169-179)
  // ---------------------------------------------------------------------------

  /** `find_element` / `find_elements`: normalise, then one lookup call. */
  function Find(o: Oracle, n: nat, many: bool, lt: Value, lv: Value): (r: Run)
    ensures ConvertLocator(lt).Err? ==> r == Run(Raised(ConvertLocator(lt).error), [])
    ensures ConvertLocator(lt).Ok? ==>
      var strat := ByValue(ConvertLocator(lt).value);
      r == Run(Answer(o(n)), [if many then FindElements(strat, lv) else FindElement(strat, lv)])
  {
    match ConvertLocator(lt)
    case Err(e) => Run(Raised(e), [])
    case Ok(kind) =>
      Run(Answer(o(n)), [if many then FindElements(ByValue(kind), lv) else FindElement(ByValue(kind), lv)])
  }

  /** `mouse_down` (hold) / `mouse_up`: presence wait, then the gesture; no
      retry and no fallback. */
  function Mouse(o: Oracle, n: nat, hold: bool, lt: Value, lv: Value): (r: Run)
    ensures ConvertLocator(lt).Err? ==> r == Run(Raised(ConvertLocator(lt).error), [])
    ensures ConvertLocator(lt).Ok? && o(n).Gives? ==>
      var strat := ByValue(ConvertLocator(lt).value);
      var el := o(n).v;
      r == Run(Discarded(Answer(o(n + 1))),
               [Wait(Present, strat, lv, DefaultTimeout), if hold then ClickAndHold(el) else Release(el)])
    ensures r.out.Exited? ==> r.out.code == 1 && r.calls != [] && r.calls[|r.calls| - 1] == Quit
    ensures r.out.Returned? ==> r.out.v == VNull
  {
    match ConvertLocator(lt)
    case Err(e) => Run(Raised(e), [])
    case Ok(kind) =>
      var w := WaitPresent(o, n, VStr(kind), lv, DefaultTimeout);
      if w.out.Returned? then
        var el := w.out.v;
        Run(Discarded(Answer(o(n + |w.calls|))), w.calls + [if hold then ClickAndHold(el) else Release(el)])
      else w
  }

  // ---------------------------------------------------------------------------
  // Name-based dispatch (driver_actions.py:61-67)
  // ---------------------------------------------------------------------------

  /** The attribute names of a DriverActions object that the model knows:
      its methods and its `driver` field. */
  predicate IsAttribute(name: string) {
    IsForwarder(name) ||
    name in {
      "_convert_locator_type", "wait_for_element", "execute",
      "wait_for_element_to_be_clickable", "wait_for_element_to_be_visible",
      "input", "click", "find_element", "find_elements", "mouse_down", "mouse_up",
      "execute_actions_from_json", "driver"
    }
  }

  /** The parameters each method requires. */
  function Required(name: string): set<string> {
    match name
    case "_convert_locator_type" => {"locator_type"}
    case "input" => {"locator_type", "locator_value", "input_value"}
    case "wait_for_element" | "wait_for_element_to_be_clickable" | "wait_for_element_to_be_visible"
       | "click" | "find_element" | "find_elements" | "mouse_down" | "mouse_up" =>
      {"locator_type", "locator_value"}
    case "execute" => {"action"}
    case "execute_actions_from_json" => {"actions_json"}
    case _ => match ForwardParam(name) case Some(p) => {p} case None => {}
  }

  /** The parameters with a default: only the waits' `timeout`. */
  function Optional(name: string): set<string> {
    if name in {"wait_for_element", "wait_for_element_to_be_clickable", "wait_for_element_to_be_visible"}
    then {"timeout"} else {}
  }

  function TimeoutArg(p: Dict): Value {
    if "timeout" in p then p["timeout"] else DefaultTimeout
  }

  /** The argument a forwarder is called with, taken from the keywords. */
  function ForwardArg(p: Dict, name: string): Value {
    match ForwardParam(name)
    case Some(k) => if k in p then p[k] else VNull
    case None => VNull
  }

  /** `getattr(self, name)(**p)`. */
  function Invoke(o: Oracle, n: nat, name: string, p: Dict): (r: Run)
    requires IsAttribute(name)
    ensures !Binds(p, Required(name), Optional(name)) ==> r == Run(Raised(TypeError), [])
    ensures name == "driver" ==> r == Run(Raised(TypeError), [])
  {
    if name == "driver" then Run(Raised(TypeError), [])
    else if !Binds(p, Required(name), Optional(name)) then Run(Raised(TypeError), [])
    else
      match name
      case "_convert_locator_type" =>
        (match ConvertLocator(p["locator_type"])
         case Ok(kind) => Run(Returned(VStr(kind)), [])
         case Err(e) => Run(Raised(e), []))
      case "wait_for_element" => WaitPresent(o, n, p["locator_type"], p["locator_value"], TimeoutArg(p))
      case "wait_for_element_to_be_clickable" =>
        WaitReady(o, n, Clickable, p["locator_type"], p["locator_value"], TimeoutArg(p))
      case "wait_for_element_to_be_visible" =>
        WaitReady(o, n, Visible, p["locator_type"], p["locator_value"], TimeoutArg(p))
      case "input" => Retried(o, n, InputOp(p["locator_type"], p["locator_value"], p["input_value"]))
      case "click" => Retried(o, n, ClickOp(p["locator_type"], p["locator_value"]))
      case "find_element" => Find(o, n, false, p["locator_type"], p["locator_value"])
      case "find_elements" => Find(o, n, true, p["locator_type"], p["locator_value"])
      case "mouse_down" => Mouse(o, n, true, p["locator_type"], p["locator_value"])
      case "mouse_up" => Mouse(o, n, false, p["locator_type"], p["locator_value"])
      case "execute" => Run(Raised(Unmodelled(name)), [])
      case "execute_actions_from_json" => Run(Raised(Unmodelled(name)), [])
      case _ => ForwardRun(o, n, name, ForwardArg(p, name))
  }

  /** The keyword arguments `execute` builds: every key but "action", with a
      `locator_type` of "CSS" (and nothing else) rewritten to "CSS_SELECTOR". */
  function ExecuteParams(action: Dict): (p: Dict)
    ensures p.Keys == action.Keys - {"action"}
    ensures forall k :: k in p && k != "locator_type" ==> p[k] == action[k]
    ensures "locator_type" in p && action["locator_type"] != VStr("CSS") ==>
      p["locator_type"] == action["locator_type"]
    ensures "locator_type" in p && action["locator_type"] == VStr("CSS") ==>
      p["locator_type"] == VStr("CSS_SELECTOR")
  {
    var params := action - {"action"};
    if "locator_type" in params && params["locator_type"] == VStr("CSS")
    then params["locator_type" := VStr("CSS_SELECTOR")]
    else params
  }

  /** `execute(action)`: dynamic dispatch on the action name; an unknown name
      is skipped without a call or an error; the method's value is dropped. */
  function Execute(o: Oracle, n: nat, action: Dict): (r: Run)
    ensures "action" !in action ==> r == Run(Raised(KeyError("action")), [])
    ensures "action" in action && !action["action"].VStr? ==> r == Run(Raised(TypeError), [])
    ensures "action" in action && action["action"].VStr? && !IsAttribute(action["action"].s) ==>
      r == Run(Returned(VNull), [])
    ensures "action" in action && action["action"].VStr? && IsAttribute(action["action"].s) ==>
      var i := Invoke(o, n, action["action"].s, ExecuteParams(action));
      r == Run(Discarded(i.out), i.calls)
    ensures r.out.Returned? ==> r.out.v == VNull
  {
    if "action" !in action then Run(Raised(KeyError("action")), [])
    else
      match action["action"]
      case VStr(name) =>
        if IsAttribute(name) then
          var i := Invoke(o, n, name, ExecuteParams(action));
          Run(Discarded(i.out), i.calls)
        else Run(Returned(VNull), [])
      case _ => Run(Raised(TypeError), [])
  }

  // ---------------------------------------------------------------------------
  // The batch runner (driver_actions.py:182-274)
  // ---------------------------------------------------------------------------

  /** A lookup followed by the text extraction of lines 223 and 227. */
  function FindText(o: Oracle, n: nat, many: bool, lt: Value, lv: Value): (r: Run)
    ensures ConvertLocator(lt).Err? ==> r == Run(Raised(ConvertLocator(lt).error), [])
    ensures !r.out.Exited?
  {
    var f := Find(o, n, many, lt, lv);
    if f.out.Returned? then
      var t := if many then ListTexts(o, n + |f.calls|, f.out.v) else TextOf(o, n + |f.calls|, f.out.v);
      Run(t.out, f.calls + t.calls)
    else f
  }

  /** `alert = self.switch_to_alert(); alert.text if alert else None`. */
  function AlertText(o: Oracle, n: nat): (r: Run)
    ensures r.calls != [] && r.calls[0] == SwitchToAlert
    ensures !r.out.Exited?
  {
    var f := ForwardRun(o, n, "switch_to_alert", VNull);
    if f.out.Returned? then
      var t := TextOf(o, n + 1, f.out.v);
      Run(t.out, f.calls + t.calls)
    else f
  }

  /** The branch of the if-chain an action name selects. */
  datatype Route =
    | InputRoute
    | ClickRoute
    | FindRoute(many: bool)        // find_element, find_elements
    | MouseRoute(hold: bool)       // mouse_down, mouse_up
    | AlertRoute                   // switch_to_alert reads the alert's text
    | ScriptRoute                  // runScript
    | ForwardRoute(name: string)   // the other forwarders
    | NoRoute

  /** The if-chain of driver_actions.py:188-268 on the action name. */
  function RouteOf(name: string): (r: Route)
    ensures r.ForwardRoute? ==> r.name == name && IsForwarder(name) && name != "switch_to_alert"
  {
    if name == "input" then InputRoute
    else if name == "click" then ClickRoute
    else if name == "find_element" then FindRoute(false)
    else if name == "find_elements" then FindRoute(true)
    else if name == "switch_to_alert" then AlertRoute
    else if name == "mouse_down" then MouseRoute(true)
    else if name == "mouse_up" then MouseRoute(false)
    else if name == "runScript" then ScriptRoute
    else if IsForwarder(name) then ForwardRoute(name)
    else NoRoute
  }

  /** The action names the batch runner has a branch for. */
  predicate HasBranch(name: string) {
    IsForwarder(name) ||
    name in {"input", "click", "find_element", "find_elements", "mouse_down", "mouse_up", "runScript"}
  }

  /** The branches that append to the result list. */
  predicate IsProducingName(name: string) {
    name in {
      "get_title", "get_current_url", "get_page_source", "find_element", "find_elements",
      "switch_to_alert", "execute_script", "get_cookies", "get_window_handles", "runScript"
    }
  }

  /** Every name of the chain has a branch, and only those. */
  lemma RouteOfBranches(name: string)
    ensures RouteOf(name) != NoRoute <==> HasBranch(name)
  {
  }

  /** How many entries a branch appends when it succeeds. */
  function RouteAppends(r: Route): nat {
    match r
    case FindRoute(_) => 1
    case AlertRoute => 1
    case ScriptRoute => 1
    case ForwardRoute(name) => if IsYielding(name) then 1 else 0
    case _ => 0
  }

  /** The branch appends one entry exactly for the value-producing names. */
  lemma RouteAppendsProducing(name: string)
    ensures RouteAppends(RouteOf(name)) == if IsProducingName(name) then 1 else 0
  {
  }

  /** The branch for a located primitive: `getattr(By, action["locator_type"])`
      then `action["locator_value"]`, then the primitive on the `By` value. */
  function LocatedBranch(o: Oracle, n: nat, r: Route, a: Dict): (s: Step)
    requires r.FindRoute? || r.MouseRoute?
    ensures s.out.Returned? ==> |s.appended| == RouteAppends(r)
    ensures s.out.Returned? ==> s.appended == if r.FindRoute? then [s.out.v] else []
    ensures !s.out.Returned? ==> s.appended == []
    ensures s.out.Exited? ==> s.out.code == 1 && s.calls != [] && s.calls[|s.calls| - 1] == Quit
  {
    match Lookup(a, ["locator_type"])
    case Err(e) => Step(Raised(e), [], [])
    case Ok(_) =>
      match ByAttr(a["locator_type"])
      case Err(e) => Step(Raised(e), [], [])
      case Ok(strat) =>
        match Lookup(a, ["locator_value"])
        case Err(e) => Step(Raised(e), [], [])
        case Ok(_) => LocatedCall(o, n, r, strat, a["locator_value"])
  }

  /** The located primitive called with the `By` value `strat`. */
  function LocatedCall(o: Oracle, n: nat, r: Route, strat: string, lv: Value): (s: Step)
    requires r.FindRoute? || r.MouseRoute?
    ensures r.FindRoute? ==> s.out == FindText(o, n, r.many, VStr(strat), lv).out
    ensures s.out.Returned? ==> |s.appended| == RouteAppends(r)
    ensures s.out.Returned? ==> s.appended == if r.FindRoute? then [s.out.v] else []
    ensures !s.out.Returned? ==> s.appended == []
    ensures s.out.Exited? ==> s.out.code == 1 && s.calls != [] && s.calls[|s.calls| - 1] == Quit
  {
    if r.FindRoute? then Appending(FindText(o, n, r.many, VStr(strat), lv))
    else Plain(Mouse(o, n, r.hold, VStr(strat), lv))
  }

  /** The branch of a forwarder: its parameter, if it takes one, is looked up
      first; the answer is appended when the Python method returns it. */
  function ForwardBranch(o: Oracle, n: nat, name: string, a: Dict): (s: Step)
    requires IsForwarder(name)
    ensures ForwardParam(name).Some? && ForwardParam(name).value !in a ==>
      s == Step(Raised(KeyError(ForwardParam(name).value)), [], [])
    ensures ForwardParam(name).None? ==> s.calls == [ForwardCall(name, VNull)]
    ensures ForwardParam(name).Some? && ForwardParam(name).value in a ==>
      s.calls == [ForwardCall(name, a[ForwardParam(name).value])]
    ensures s.calls != [] && IsYielding(name) ==> s.out == Answer(o(n))
    ensures s.out.Returned? ==> |s.appended| == (if IsYielding(name) then 1 else 0)
    ensures s.out.Returned? ==> s.appended == if IsYielding(name) then [s.out.v] else []
    ensures !s.out.Returned? ==> s.appended == []
    ensures !s.out.Exited?
  {
    match ForwardParam(name)
    case None =>
      var f := ForwardRun(o, n, name, VNull);
      if IsYielding(name) then Appending(f) else Plain(f)
    case Some(k) =>
      match Lookup(a, [k])
      case Err(e) => Step(Raised(e), [], [])
      case Ok(args) =>
        var f := ForwardRun(o, n, name, args[0]);
        if IsYielding(name) then Appending(f) else Plain(f)
  }

  /** The branches of `input`, `click` and `runScript`: the parameters are
      looked up in order, then the primitive runs. */
  function InputBranch(o: Oracle, n: nat, a: Dict): (s: Step)
    ensures s.appended == [] && !s.out.Exited?
  {
    match Lookup(a, ["locator_type", "locator_value", "input_value"])
    case Err(e) => Step(Raised(e), [], [])
    case Ok(args) => Plain(Retried(o, n, InputOp(args[0], args[1], args[2])))
  }

  function ClickBranch(o: Oracle, n: nat, a: Dict): (s: Step)
    ensures s.appended == [] && !s.out.Exited?
  {
    match Lookup(a, ["locator_type", "locator_value"])
    case Err(e) => Step(Raised(e), [], [])
    case Ok(args) => Plain(Retried(o, n, ClickOp(args[0], args[1])))
  }

  /** `runScript` appends what `execute_script` returned: the browser's
      answer to the script call. */
  function ScriptBranch(o: Oracle, n: nat, a: Dict): (s: Step)
    ensures "script" !in a ==> s == Step(Raised(KeyError("script")), [], [])
    ensures "script" in a ==> s.calls == [ForwardCall("execute_script", a["script"])] && s.out == Answer(o(n))
    ensures s.out.Returned? ==> s.appended == [s.out.v]
    ensures !s.out.Returned? ==> s.appended == []
    ensures !s.out.Exited?
  {
    match Lookup(a, ["script"])
    case Err(e) => Step(Raised(e), [], [])
    case Ok(args) => Appending(ForwardRun(o, n, "execute_script", args[0]))
  }

  /** The branch a route selects. */
  function NamedBranch(o: Oracle, n: nat, r: Route, a: Dict): (s: Step)
    requires r != NoRoute
    requires r.ForwardRoute? ==> IsForwarder(r.name)
    ensures s.out.Returned? ==> |s.appended| == RouteAppends(r)
    ensures s.out.Returned? ==> s.appended == if RouteAppends(r) == 1 then [s.out.v] else []
    ensures !s.out.Returned? ==> s.appended == []
    ensures s.out.Exited? ==> s.out.code == 1 && s.calls != [] && s.calls[|s.calls| - 1] == Quit
  {
    match r
    case InputRoute => InputBranch(o, n, a)
    case ClickRoute => ClickBranch(o, n, a)
    case FindRoute(_) => LocatedBranch(o, n, r, a)
    case MouseRoute(_) => LocatedBranch(o, n, r, a)
    case AlertRoute => Appending(AlertText(o, n))
    case ScriptRoute => ScriptBranch(o, n, a)
    case ForwardRoute(name) => ForwardBranch(o, n, name, a)
  }

  /** The body of the `try`: an unmatched action name does nothing. */
  function Branch(o: Oracle, n: nat, a: Dict): (s: Step)
    ensures "action" !in a ==> s == Step(Raised(KeyError("action")), [], [])
    ensures "action" in a && ActionRoute(a) == NoRoute ==> s == Step(Returned(VNull), [], [])
    ensures s.out.Returned? ==> |s.appended| == ActionAppends(a)
    ensures s.out.Returned? ==> s.appended == if ActionAppends(a) == 1 then [s.out.v] else []
    ensures !s.out.Returned? ==> s.appended == []
    ensures s.out.Exited? ==> s.out.code == 1 && s.calls != [] && s.calls[|s.calls| - 1] == Quit
  {
    if "action" !in a then Step(Raised(KeyError("action")), [], [])
    else
      var r := ActionRoute(a);
      if r == NoRoute then Step(Returned(VNull), [], []) else NamedBranch(o, n, r, a)
  }

  /** The route of an action: a name that is not a string equals none of the
      names of the chain. */
  function ActionRoute(a: Dict): Route {
    if "action" in a && a["action"].VStr? then RouteOf(a["action"].s) else NoRoute
  }

  /** Whether an action names a value-producing branch. */
  predicate IsProducing(a: Dict) {
    "action" in a && a["action"].VStr? && IsProducingName(a["action"].s)
  }

  /** How many entries an action appends when its branch succeeds. */
  function ActionAppends(a: Dict): nat {
    RouteAppends(ActionRoute(a))
  }

  /** The if-chain appends one entry exactly for the value-producing names. */
  lemma AppendsProducing(a: Dict)
    ensures ActionAppends(a) == if IsProducing(a) then 1 else 0
  {
    if "action" in a && a["action"].VStr? {
      RouteAppendsProducing(a["action"].s);
    }
  }

  /** One iteration of the loop: the locator type is normalised before the
      `try`, so a missing or unsupported one escapes as an exception; an
      exception inside the `try` quits the browser and exits with status 1. */
  function StepSpec(o: Oracle, n: nat, action: Dict): (s: Step)
    ensures "locator_type" !in action ==> s == Step(Raised(KeyError("locator_type")), [], [])
    ensures "locator_type" in action && ConvertLocator(action["locator_type"]).Err? ==>
      s == Step(Raised(ConvertLocator(action["locator_type"]).error), [], [])
    ensures s.out.Returned? ==> |s.appended| == ActionAppends(action)
    ensures s.out.Returned? ==> s.appended == if IsProducing(action) then [s.out.v] else []
    ensures !s.out.Returned? ==> s.appended == []
    ensures s.out.Exited? ==> s.out.code == 1 && s.calls != [] && s.calls[|s.calls| - 1] == Quit
  {
    if "locator_type" !in action then Step(Raised(KeyError("locator_type")), [], [])
    else
      match ConvertLocator(action["locator_type"])
      case Err(e) => Step(Raised(e), [], [])
      case Ok(kind) =>
        var a := action["locator_type" := VStr(kind)];
        AppendsProducing(action);
        assert ActionRoute(a) == ActionRoute(action) by {
          assert "action" in a <==> "action" in action;
          if "action" in a { assert a["action"] == action["action"]; }
        }
        Handler(o, n, a, Branch(o, n, a))
  }

  /** The `except Exception` clause around the branch `b` of action `a`: it
      formats `a["action"]`, which raises KeyError when the name is missing;
      otherwise it quits the browser and exits with status 1. An action whose
      branch does not raise is untouched. */
  function Handler(o: Oracle, n: nat, a: Dict, b: Step): (s: Step)
    ensures b.out.Raised? && "action" in a ==>
      s == Step(QuitThenExit(o(n + |b.calls|)), [], b.calls + [Quit])
    ensures b.out.Raised? && "action" !in a ==> s == Step(Raised(KeyError("action")), [], b.calls)
    ensures !b.out.Raised? ==> s == b
  {
    if b.out.Raised? then
      if "action" in a then Step(QuitThenExit(o(n + |b.calls|)), [], b.calls + [Quit])
      else Step(Raised(KeyError("action")), [], b.calls)
    else b
  }

  /** `step` is one iteration of the loop, seen from every position of the
      session; the trigger keeps the iteration's body out of proofs that only
      thread positions through the loop. */
  ghost predicate IsSteps(step: Stepper, o: Oracle) {
    forall m: nat, a: Dict {:trigger StepSpec(o, m, a)} :: step(o, m, a) == StepSpec(o, m, a)
  }

  lemma StepsAre(o: Oracle)
    ensures IsSteps(StepSpec, o)
  {
  }

  /** `execute_actions_from_json` on the decoded list of actions. */
  function ExecuteActions(o: Oracle, n: nat, actions: seq<Dict>): Run {
    Batch(StepSpec, o, n, actions, [])
  }

  // ---------------------------------------------------------------------------
  // Properties of the engine
  // ---------------------------------------------------------------------------

  /** Number of actions in the batch that name a value-producing branch. */
  function CountProducing(actions: seq<Dict>): nat {
    if actions == [] then 0 else (if IsProducing(actions[0]) then 1 else 0) + CountProducing(actions[1..])
  }

  lemma {:induction false} TotalAppends(actions: seq<Dict>)
    ensures Total(ActionAppends, actions) == CountProducing(actions)
  {
    if actions != [] {
      AppendsProducing(actions[0]);
      TotalAppends(actions[1..]);
    }
  }

  /** A batch that completes returns the entries its steps appended, one
      per value-producing action. */
  lemma ResultsPerProducingAction(o: Oracle, n: nat, actions: seq<Dict>)
    ensures var r := ExecuteActions(o, n, actions);
      r.out.Returned? ==>
        r.out == Returned(VList(Appended(StepSpec, o, n, actions))) &&
        |r.out.v.items| == CountProducing(actions)
  {
    ResultCount(StepSpec, ActionAppends, o, n, actions, []);
    TotalAppends(actions);
    BatchResults(StepSpec, o, n, actions, []);
    assert [] + Appended(StepSpec, o, n, actions) == Appended(StepSpec, o, n, actions);
  }

  /** The entry of an action sits between those of the actions before it
      and those after it, and it is the value its branch returned: when the
      actions `xs` before `a` all returned and `a` returned too, the entries
      are those of `xs`, then `a`'s value if `a` produces one, then those of
      `ys`. */
  lemma ActionEntry(step: Stepper, o: Oracle, n: nat, xs: seq<Dict>, a: Dict, ys: seq<Dict>)
    requires IsSteps(step, o)
    requires Batch(step, o, n, xs, []).out.Returned?
    requires step(o, n + |Batch(step, o, n, xs, []).calls|, a).out.Returned?
    ensures var m := n + |Batch(step, o, n, xs, []).calls|;
      var s := step(o, m, a);
      Appended(step, o, n, xs + [a] + ys) ==
        Appended(step, o, n, xs) + (if IsProducing(a) then [s.out.v] else []) +
        Appended(step, o, m + |s.calls|, ys)
  {
    var m := n + |Batch(step, o, n, xs, []).calls|;
    assert step(o, m, a) == StepSpec(o, m, a);
    AppendedAround(step, o, n, xs, a, ys);
  }

  /** A batch of one "get_title" action returns the list holding the title
      the browser answered. */
  lemma TitleEntry(o: Oracle, n: nat, kind: string)
    requires IsSupported(kind) && o(n).Gives?
    ensures ExecuteActions(o, n, [map["action" := VStr("get_title"), "locator_type" := VStr(kind)]]) ==
      Run(Returned(VList([o(n).v])), [ForwardCall("get_title", VNull)])
  {
    var a := map["action" := VStr("get_title"), "locator_type" := VStr(kind)];
    assert a["locator_type" := VStr(kind)] == a;
    assert ActionRoute(a) == ForwardRoute("get_title");
    var b := ForwardBranch(o, n, "get_title", a);
    assert b.out == Returned(o(n).v) && b.calls == [ForwardCall("get_title", VNull)];
    var s := StepSpec(o, n, a);
    assert s == Handler(o, n, a, Branch(o, n, a)) && Branch(o, n, a) == b;
    assert IsProducing(a) && s.appended == [o(n).v];
    assert [a][1..] == [];
    assert [] + s.appended == [o(n).v];
    assert Batch(StepSpec, o, n + |s.calls|, [], [] + s.appended) == Run(Returned(VList([o(n).v])), []);
  }

  /** The process exits only through `driver.quit(); exit(1)`: the status is
      1 and the last call of the batch is Quit. */
  lemma BatchExitQuits(o: Oracle, n: nat, actions: seq<Dict>)
    ensures var r := ExecuteActions(o, n, actions);
      r.out.Exited? ==> r.out.code == 1 && r.calls != [] && r.calls[|r.calls| - 1] == Quit
  {
    var step: Stepper := StepSpec;
    assert forall o': Oracle, m: nat, a: Dict :: step(o', m, a).out.Exited? ==>
      var s := step(o', m, a); s.out.code == 1 && s.calls != [] && s.calls[|s.calls| - 1] == Quit
    by {
      forall o': Oracle, m: nat, a: Dict | step(o', m, a).out.Exited?
        ensures var s := step(o', m, a); s.out.code == 1 && s.calls != [] && s.calls[|s.calls| - 1] == Quit
      {
        StepExitQuits(o', m, a);
      }
    }
    ExitQuits(step, o, n, actions, []);
  }

  /** One iteration exits only with status 1, right after Quit. */
  lemma StepExitQuits(o: Oracle, n: nat, a: Dict)
    ensures var s := StepSpec(o, n, a);
      s.out.Exited? ==> s.out.code == 1 && s.calls != [] && s.calls[|s.calls| - 1] == Quit
  {
  }

  /** The locator type is normalised before the `try` for every action: an
      action without one, or with an unsupported one, makes the batch raise
      before it issues any call for that action, and the browser is not quit. */
  lemma LocatorFailureEscapes(o: Oracle, n: nat, a: Dict, rest: seq<Dict>)
    requires "locator_type" !in a || ConvertLocator(a["locator_type"]).Err?
    ensures ExecuteActions(o, n, [a] + rest).calls == []
    ensures ExecuteActions(o, n, [a] + rest).out.Raised?
  {
    assert ([a] + rest)[0] == a;
  }

  /** The find_element, find_elements, mouse_down and mouse_up branches hand
      the lower-case `By` value back to the resolver, which rejects it: with
      a supported locator type these actions always quit and exit. */
  lemma LowercaseBranchesExit(o: Oracle, n: nat, action: Dict)
    requires "action" in action && "locator_type" in action
    requires action["action"] in {VStr("find_element"), VStr("find_elements"), VStr("mouse_down"), VStr("mouse_up")}
    requires ConvertLocator(action["locator_type"]).Ok?
    ensures StepSpec(o, n, action) == Step(QuitThenExit(o(n)), [], [Quit])
  {
    var kind := ConvertLocator(action["locator_type"]).value;
    var a := action["locator_type" := VStr(kind)];
    assert a["action"] == action["action"];
    var r := ActionRoute(a);
    assert r.FindRoute? || r.MouseRoute?;
    LocatedBranchFails(o, n, r, a, kind);
  }

  /** The resolver rejects every `By` value, so a located branch raises
      before it issues a call. */
  lemma LocatedBranchFails(o: Oracle, n: nat, r: Route, a: Dict, kind: string)
    requires r.FindRoute? || r.MouseRoute?
    requires "locator_type" in a && a["locator_type"] == VStr(kind) && IsSupported(kind)
    ensures LocatedBranch(o, n, r, a).out.Raised? && LocatedBranch(o, n, r, a).calls == []
  {
    ByValuesRejected(kind);
    assert ConvertLocator(VStr(ByValue(kind))).Err?;
  }


  /** Inside the `try`, any exception (a missing parameter, a failing
      primitive) quits the browser and exits with status 1, or raises what
      `quit` raised; no entry is appended for that action. */
  lemma TryFailureExits(o: Oracle, n: nat, a: Dict, b: Step)
    requires "action" in a && b.out.Raised?
    ensures var s := Handler(o, n, a, b);
      s.calls == b.calls + [Quit] && s.appended == [] &&
      (o(n + |b.calls|).Gives? ==> s.out == Exited(1)) &&
      (o(n + |b.calls|).Throws? ==> s.out == Raised(o(n + |b.calls|).e))
  {
  }

  /** An action whose name the batch has no branch for appends nothing,
      issues no call and raises nothing. */
  lemma UnmatchedActionSkipped(o: Oracle, n: nat, action: Dict)
    requires "action" in action && "locator_type" in action
    requires ConvertLocator(action["locator_type"]).Ok?
    requires !(action["action"].VStr? && HasBranch(action["action"].s))
    ensures StepSpec(o, n, action) == Step(Returned(VNull), [], [])
  {
    if action["action"].VStr? {
      RouteOfBranches(action["action"].s);
    }
    var a := action["locator_type" := VStr(ConvertLocator(action["locator_type"]).value)];
    assert a["action"] == action["action"];
  }

  /** A decorated call that does not raise StaleElement on its first attempt
      is exactly that attempt. */
  lemma RetriedFirstNotStale(o: Oracle, n: nat, op: Decorated)
    requires Attempt(o, n, op).out != Raised(StaleElement)
    ensures Retried(o, n, op) == Attempt(o, n, op)
  {
    StaleRetry.CallsBeforeNext(Attempts(o, op), n, 0);
    StaleRetry.FirstNotStale(Attempts(o, op), n);
  }

  /** An action named "open", "setWindowSize" or "runScript" names no
      method, so `execute` skips it without a call. */
  lemma NoMethodSkipped(o: Oracle, n: nat, a: Dict)
    requires "action" in a && a["action"] in {VStr("open"), VStr("setWindowSize"), VStr("runScript")}
    ensures Execute(o, n, a) == Run(Returned(VNull), [])
  {
  }

  /** An "input" or "click" action whose keyword arguments do not fit the
      method's signature makes `execute` raise TypeError before any call:
      "input" needs `input_value`, "click" refuses it. */
  lemma MisfitArgumentsRaise(o: Oracle, n: nat, a: Dict)
    requires "action" in a && a["action"] in {VStr("input"), VStr("click")}
    requires ("input_value" in a) == (a["action"] == VStr("click"))
    ensures Execute(o, n, a) == Run(Raised(TypeError), [])
  {
    assert ("input_value" in ExecuteParams(a)) == ("input_value" in a);
  }
}
