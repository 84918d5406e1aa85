/** The `DriverActions` class of driver_actions.py: an object holding the live
    browser session, whose methods issue calls against it. Each method is
    proved to do to the session exactly what the function of the same role
    in module Engine says. */
module Driver {
  import opened Py
  import opened Browser
  import opened Locators
  import opened Batches
  import opened Texts
  import StaleRetry
  import Engine

  class DriverActions {
    const driver: Session

    constructor (driver: Session)
      ensures this.driver == driver
    {
      this.driver := driver;
    }

    // -------------------------------------------------------------------------
    // Waits and one-call primitives (driver_actions.py:51-75, 104-167)
    // -------------------------------------------------------------------------

    method WaitForElement(lt: Value, lv: Value, timeout: Value) returns (r: Outcome)
      modifies driver
      ensures Performed(Engine.WaitPresent(driver.respond, |old(driver.log)|, lt, lv, timeout), r,
                        old(driver.log), driver.log)
    {
      var kind := ConvertLocator(lt);
      if kind.Err? {
        return Raised(kind.error);
      }
      var reply := driver.Issue(Wait(Present, ByValue(kind.value), lv, timeout));
      if reply.Gives? {
        return Returned(reply.v);
      }
      if reply.e != Timeout {
        return Raised(reply.e);
      }
      var q := driver.Issue(Quit);
      r := QuitThenExit(q);
    }

    /** `wait_for_element_to_be_clickable` (Clickable) and
        `wait_for_element_to_be_visible` (Visible). */
    method WaitUntil(readiness: Readiness, lt: Value, lv: Value, timeout: Value) returns (r: Outcome)
      modifies driver
      ensures Performed(Engine.WaitReady(driver.respond, |old(driver.log)|, readiness, lt, lv, timeout), r,
                        old(driver.log), driver.log)
    {
      var kind := ConvertLocator(lt);
      if kind.Err? {
        return Raised(kind.error);
      }
      var reply := driver.Issue(Wait(readiness, ByValue(kind.value), lv, timeout));
      r := Answer(reply);
    }

    /** `find_element` (many false) and `find_elements` (many true). */
    method Find(many: bool, lt: Value, lv: Value) returns (r: Outcome)
      modifies driver
      ensures Performed(Engine.Find(driver.respond, |old(driver.log)|, many, lt, lv), r, old(driver.log), driver.log)
    {
      var kind := ConvertLocator(lt);
      if kind.Err? {
        return Raised(kind.error);
      }
      var strat := ByValue(kind.value);
      var reply := driver.Issue(if many then FindElements(strat, lv) else FindElement(strat, lv));
      r := Answer(reply);
    }

    /** `mouse_down` (hold true) and `mouse_up` (hold false). */
    method Mouse(hold: bool, lt: Value, lv: Value) returns (r: Outcome)
      modifies driver
      ensures Performed(Engine.Mouse(driver.respond, |old(driver.log)|, hold, lt, lv), r, old(driver.log), driver.log)
    {
      var kind := ConvertLocator(lt);
      if kind.Err? {
        return Raised(kind.error);
      }
      var element := WaitForElement(VStr(kind.value), lv, Engine.DefaultTimeout);
      if !element.Returned? {
        return element;
      }
      var reply := driver.Issue(if hold then ClickAndHold(element.v) else Release(element.v));
      r := Discarded(Answer(reply));
    }

    /** The nineteen methods that forward to one session call. */
    method Forward(name: string, arg: Value) returns (r: Outcome)
      requires IsForwarder(name)
      modifies driver
      ensures Performed(ForwardRun(driver.respond, |old(driver.log)|, name, arg), r, old(driver.log), driver.log)
    {
      var reply := driver.Issue(ForwardCall(name, arg));
      r := if IsYielding(name) then Answer(reply) else Discarded(Answer(reply));
    }

    // -------------------------------------------------------------------------
    // `input` and `click` with their stale-element retry (driver_actions.py:21-32, 77-102)
    // -------------------------------------------------------------------------

    /** One call of the undecorated `input`. */
    method InputOnce(lt: Value, lv: Value, text: Value) returns (r: Outcome)
      modifies driver
      ensures Performed(Engine.InputAttempt(driver.respond, |old(driver.log)|, lt, lv, text), r,
                        old(driver.log), driver.log)
    {
      var kind := ConvertLocator(lt);
      if kind.Err? {
        return Raised(kind.error);
      }
      var element := WaitUntil(Visible, VStr(kind.value), lv, Engine.DefaultTimeout);
      if !element.Returned? {
        return element;
      }
      var sent := driver.Issue(SendKeys(element.v, text));
      if sent == Throws(NotInteractable) {
        var fallback := driver.Issue(ExecuteScript(VStr(Engine.SetValueScript), [element.v, text]));
        r := Discarded(Answer(fallback));
      } else {
        r := Returned(VNull);
      }
    }

    /** One call of the undecorated `click`. */
    method ClickOnce(lt: Value, lv: Value) returns (r: Outcome)
      modifies driver
      ensures Performed(Engine.ClickAttempt(driver.respond, |old(driver.log)|, lt, lv), r, old(driver.log), driver.log)
    {
      var kind := ConvertLocator(lt);
      if kind.Err? {
        return Raised(kind.error);
      }
      var element := WaitUntil(Clickable, VStr(kind.value), lv, Engine.DefaultTimeout);
      if element.Returned? {
        var clicked := driver.Issue(ElementClick(element.v));
        if clicked == Throws(NotInteractable) {
          var scripted := driver.Issue(ExecuteScript(VStr(Engine.ClickScript), [element.v]));
          r := Discarded(Answer(scripted));
        } else {
          r := Returned(VNull);
        }
      } else if element == Raised(NotInteractable) {
        r := Raised(UnboundLocal("element"));
      } else {
        r := if element.Raised? then Returned(VNull) else element;
      }
    }

    /** One call of the undecorated function, seen through `att`. */
    method AttemptOnce(op: Engine.Decorated, ghost att: nat -> Run) returns (r: Outcome)
      requires Engine.IsAttempts(att, driver.respond, op)
      modifies driver
      ensures Performed(att(|old(driver.log)|), r, old(driver.log), driver.log)
    {
      ghost var m := |driver.log|;
      assert att(m) == Engine.Attempt(driver.respond, m, op);
      match op
      case InputOp(lt, lv, text) => r := InputOnce(lt, lv, text);
      case ClickOp(lt, lv) => r := ClickOnce(lt, lv);
    }

    /** The decorator's wrapper: up to three calls that swallow a stale
        element, then one that does not. */
    method Retrying(op: Engine.Decorated, ghost att: nat -> Run) returns (r: Outcome)
      requires Engine.IsAttempts(att, driver.respond, op)
      modifies driver
      ensures Performed(StaleRetry.Wrapped(att, |old(driver.log)|, StaleRetry.DefaultRetries), r,
                        old(driver.log), driver.log)
    {
      ghost var total := StaleRetry.Wrapped(att, |driver.log|, StaleRetry.DefaultRetries);
      ghost var log0 := driver.log;
      ghost var done: seq<Call> := [];
      var i := 0;
      while true
        invariant 0 <= i <= StaleRetry.DefaultRetries
        invariant driver.log == log0 + done
        invariant var t := StaleRetry.Wrapped(att, |driver.log|, StaleRetry.DefaultRetries - i);
          total == Run(t.out, done + t.calls)
        decreases StaleRetry.DefaultRetries - i
      {
        ghost var m := |driver.log|;
        r := AttemptOnce(op, att);
        AppendAssoc(log0, done, att(m).calls);
        if i == StaleRetry.DefaultRetries || r != Raised(StaleElement) {
          StaleRetry.LastStep(att, m, StaleRetry.DefaultRetries - i, done, total);
          return;
        }
        StaleRetry.StaleStep(att, m, StaleRetry.DefaultRetries - i, done, total);
        done := done + att(m).calls;
        i := i + 1;
      }
    }

    method Input(lt: Value, lv: Value, text: Value) returns (r: Outcome)
      modifies driver
      ensures Performed(Engine.Retried(driver.respond, |old(driver.log)|, Engine.InputOp(lt, lv, text)), r,
                        old(driver.log), driver.log)
    {
      Engine.AttemptsAre(driver.respond, Engine.InputOp(lt, lv, text));
      r := Retrying(Engine.InputOp(lt, lv, text), Engine.Attempts(driver.respond, Engine.InputOp(lt, lv, text)));
    }

    method Click(lt: Value, lv: Value) returns (r: Outcome)
      modifies driver
      ensures Performed(Engine.Retried(driver.respond, |old(driver.log)|, Engine.ClickOp(lt, lv)), r,
                        old(driver.log), driver.log)
    {
      Engine.AttemptsAre(driver.respond, Engine.ClickOp(lt, lv));
      r := Retrying(Engine.ClickOp(lt, lv), Engine.Attempts(driver.respond, Engine.ClickOp(lt, lv)));
    }

    // -------------------------------------------------------------------------
    // Dispatch by name (driver_actions.py:61-67)
    // -------------------------------------------------------------------------

    /** `getattr(self, name)(**p)`. */
    method Invoke(name: string, p: Dict) returns (r: Outcome)
      requires Engine.IsAttribute(name)
      modifies driver
      ensures Performed(Engine.Invoke(driver.respond, |old(driver.log)|, name, p), r, old(driver.log), driver.log)
    {
      if name == "driver" || !Binds(p, Engine.Required(name), Engine.Optional(name)) {
        return Raised(TypeError);
      }
      match name
      case "_convert_locator_type" =>
        var kind := ConvertLocator(p["locator_type"]);
        r := if kind.Ok? then Returned(VStr(kind.value)) else Raised(kind.error);
      case "wait_for_element" =>
        r := WaitForElement(p["locator_type"], p["locator_value"], Engine.TimeoutArg(p));
      case "wait_for_element_to_be_clickable" =>
        r := WaitUntil(Clickable, p["locator_type"], p["locator_value"], Engine.TimeoutArg(p));
      case "wait_for_element_to_be_visible" =>
        r := WaitUntil(Visible, p["locator_type"], p["locator_value"], Engine.TimeoutArg(p));
      case "input" => r := Input(p["locator_type"], p["locator_value"], p["input_value"]);
      case "click" => r := Click(p["locator_type"], p["locator_value"]);
      case "find_element" => r := Find(false, p["locator_type"], p["locator_value"]);
      case "find_elements" => r := Find(true, p["locator_type"], p["locator_value"]);
      case "mouse_down" => r := Mouse(true, p["locator_type"], p["locator_value"]);
      case "mouse_up" => r := Mouse(false, p["locator_type"], p["locator_value"]);
      case "execute" => r := Raised(Unmodelled(name));
      case "execute_actions_from_json" => r := Raised(Unmodelled(name));
      case _ => r := Forward(name, Engine.ForwardArg(p, name));
    }

    /** `execute(action)`: an unknown name is skipped; the method's value is
        dropped. */
    method Execute(action: Dict) returns (r: Outcome)
      modifies driver
      ensures Performed(Engine.Execute(driver.respond, |old(driver.log)|, action), r, old(driver.log), driver.log)
    {
      if "action" !in action {
        return Raised(KeyError("action"));
      }
      if !action["action"].VStr? {
        return Raised(TypeError);
      }
      var name := action["action"].s;
      if !Engine.IsAttribute(name) {
        return Returned(VNull);
      }
      var params := action - {"action"};
      if "locator_type" in params && params["locator_type"] == VStr("CSS") {
        params := params["locator_type" := VStr("CSS_SELECTOR")];
      }
      var i := Invoke(name, params);
      r := Discarded(i);
    }

    // -------------------------------------------------------------------------
    // The branches of the batch runner (driver_actions.py:188-269)
    // -------------------------------------------------------------------------

    /** A lookup followed by the text extraction of lines 223 and 227. */
    method FindText(many: bool, lt: Value, lv: Value) returns (r: Outcome)
      modifies driver
      ensures Performed(Engine.FindText(driver.respond, |old(driver.log)|, many, lt, lv), r, old(driver.log), driver.log)
    {
      var f := Find(many, lt, lv);
      if !f.Returned? {
        return f;
      }
      if many {
        r := GetListTexts(driver, f.v);
      } else {
        r := GetText(driver, f.v);
      }
    }

    /** `alert = self.switch_to_alert(); alert.text if alert else None`. */
    method AlertText() returns (r: Outcome)
      modifies driver
      ensures Performed(Engine.AlertText(driver.respond, |old(driver.log)|), r, old(driver.log), driver.log)
    {
      var alert := Forward("switch_to_alert", VNull);
      if !alert.Returned? {
        return alert;
      }
      r := GetText(driver, alert.v);
    }

    /** The located primitive called with the `By` value `strat`. */
    method LocatedCall(route: Engine.Route, strat: string, lv: Value) returns (out: Outcome, appended: seq<Value>)
      requires route.FindRoute? || route.MouseRoute?
      modifies driver
      ensures Stepped(Engine.LocatedCall(driver.respond, |old(driver.log)|, route, strat, lv), out, appended,
                      old(driver.log), driver.log)
    {
      if route.FindRoute? {
        out := FindText(route.many, VStr(strat), lv);
        appended := if out.Returned? then [out.v] else [];
      } else {
        var m := Mouse(route.hold, VStr(strat), lv);
        out, appended := Discarded(m), [];
      }
    }

    /** `getattr(By, action["locator_type"])`, `action["locator_value"]`, then
        the primitive. */
    method LocatedBranch(route: Engine.Route, a: Dict) returns (out: Outcome, appended: seq<Value>)
      requires route.FindRoute? || route.MouseRoute?
      modifies driver
      ensures Stepped(Engine.LocatedBranch(driver.respond, |old(driver.log)|, route, a), out, appended,
                      old(driver.log), driver.log)
    {
      if "locator_type" !in a {
        return Raised(KeyError("locator_type")), [];
      }
      var strat := ByAttr(a["locator_type"]);
      if strat.Err? {
        return Raised(strat.error), [];
      }
      if "locator_value" !in a {
        return Raised(KeyError("locator_value")), [];
      }
      out, appended := LocatedCall(route, strat.value, a["locator_value"]);
    }

    /** A forwarder's branch: its parameter is looked up first; its answer is
        appended when the method returns it. */
    method ForwardBranch(name: string, a: Dict) returns (out: Outcome, appended: seq<Value>)
      requires IsForwarder(name)
      modifies driver
      ensures Stepped(Engine.ForwardBranch(driver.respond, |old(driver.log)|, name, a), out, appended,
                      old(driver.log), driver.log)
    {
      var arg := VNull;
      var param := ForwardParam(name);
      if param.Some? {
        if param.value !in a {
          return Raised(KeyError(param.value)), [];
        }
        arg := a[param.value];
      }
      out := Forward(name, arg);
      appended := if IsYielding(name) && out.Returned? then [out.v] else [];
      if !IsYielding(name) {
        out := Discarded(out);
      }
    }

    method InputBranch(a: Dict) returns (out: Outcome, appended: seq<Value>)
      modifies driver
      ensures Stepped(Engine.InputBranch(driver.respond, |old(driver.log)|, a), out, appended,
                      old(driver.log), driver.log)
    {
      var args := Lookup(a, ["locator_type", "locator_value", "input_value"]);
      if args.Err? {
        return Raised(args.error), [];
      }
      var r := Input(args.value[0], args.value[1], args.value[2]);
      out, appended := Discarded(r), [];
    }

    method ClickBranch(a: Dict) returns (out: Outcome, appended: seq<Value>)
      modifies driver
      ensures Stepped(Engine.ClickBranch(driver.respond, |old(driver.log)|, a), out, appended,
                      old(driver.log), driver.log)
    {
      var args := Lookup(a, ["locator_type", "locator_value"]);
      if args.Err? {
        return Raised(args.error), [];
      }
      var r := Click(args.value[0], args.value[1]);
      out, appended := Discarded(r), [];
    }

    method ScriptBranch(a: Dict) returns (out: Outcome, appended: seq<Value>)
      modifies driver
      ensures Stepped(Engine.ScriptBranch(driver.respond, |old(driver.log)|, a), out, appended,
                      old(driver.log), driver.log)
    {
      if "script" !in a {
        return Raised(KeyError("script")), [];
      }
      out := Forward("execute_script", a["script"]);
      appended := if out.Returned? then [out.v] else [];
    }

    /** The branch a route selects. */
    method NamedBranch(route: Engine.Route, a: Dict) returns (out: Outcome, appended: seq<Value>)
      requires route != Engine.NoRoute
      requires route.ForwardRoute? ==> IsForwarder(route.name)
      modifies driver
      ensures Stepped(Engine.NamedBranch(driver.respond, |old(driver.log)|, route, a), out, appended,
                      old(driver.log), driver.log)
    {
      match route
      case InputRoute => out, appended := InputBranch(a);
      case ClickRoute => out, appended := ClickBranch(a);
      case FindRoute(_) => out, appended := LocatedBranch(route, a);
      case MouseRoute(_) => out, appended := LocatedBranch(route, a);
      case AlertRoute =>
        out := AlertText();
        appended := if out.Returned? then [out.v] else [];
      case ScriptRoute => out, appended := ScriptBranch(a);
      case ForwardRoute(name) => out, appended := ForwardBranch(name, a);
    }

    /** The body of the `try`. */
    method Branch(a: Dict) returns (out: Outcome, appended: seq<Value>)
      modifies driver
      ensures Stepped(Engine.Branch(driver.respond, |old(driver.log)|, a), out, appended, old(driver.log), driver.log)
    {
      if "action" !in a {
        return Raised(KeyError("action")), [];
      }
      var route := Engine.ActionRoute(a);
      if route == Engine.NoRoute {
        return Returned(VNull), [];
      }
      out, appended := NamedBranch(route, a);
    }

    /** One iteration of the loop of `execute_actions_from_json`. */
    method Step(action: Dict) returns (out: Outcome, appended: seq<Value>)
      modifies driver
      ensures Stepped(Engine.StepSpec(driver.respond, |old(driver.log)|, action), out, appended,
                      old(driver.log), driver.log)
    {
      if "locator_type" !in action {
        return Raised(KeyError("locator_type")), [];
      }
      var kind := ConvertLocator(action["locator_type"]);
      if kind.Err? {
        return Raised(kind.error), [];
      }
      var a := action["locator_type" := VStr(kind.value)];
      out, appended := Branch(a);
      if out.Raised? {
        appended := [];
        if "action" !in a {
          out := Raised(KeyError("action"));
        } else {
          var q := driver.Issue(Quit);
          out := QuitThenExit(q);
        }
      }
    }

    /** One iteration, seen through `step`. */
    method StepVia(action: Dict, ghost step: Stepper) returns (out: Outcome, appended: seq<Value>)
      requires Engine.IsSteps(step, driver.respond)
      modifies driver
      ensures Stepped(step(driver.respond, |old(driver.log)|, action), out, appended, old(driver.log), driver.log)
    {
      ghost var m := |driver.log|;
      assert step(driver.respond, m, action) == Engine.StepSpec(driver.respond, m, action);
      out, appended := Step(action);
    }

    /** The loop of `execute_actions_from_json`: the results list grows by
        what each step appends, and the first step that does not return ends
        the batch with its outcome. */
    method Batched(actions: seq<Dict>, ghost step: Stepper, ghost batch: (nat, nat, seq<Value>) -> Run)
      returns (r: Outcome)
      requires Engine.IsSteps(step, driver.respond) && IsBatches(batch, step, driver.respond, actions)
      modifies driver
      ensures Performed(batch(|old(driver.log)|, 0, []), r, old(driver.log), driver.log)
    {
      ghost var total := batch(|driver.log|, 0, []);
      ghost var log0 := driver.log;
      ghost var done: seq<Call> := [];
      var results: seq<Value> := [];
      for i := 0 to |actions|
        invariant driver.log == log0 + done
        invariant var t := batch(|driver.log|, i, results); total == Run(t.out, done + t.calls)
      {
        ghost var m := |driver.log|;
        BatchAdvance(batch, step, driver.respond, m, actions, i, results, done, total);
        var out, appended := StepVia(actions[i], step);
        AppendAssoc(log0, done, step(driver.respond, m, actions[i]).calls);
        if !out.Returned? {
          return out;
        }
        done := done + step(driver.respond, m, actions[i]).calls;
        results := results + appended;
      }
      BatchEnd(batch, step, driver.respond, |driver.log|, actions, results);
      r := Returned(VList(results));
    }

    /** `execute_actions_from_json` on the decoded list of actions. */
    method ExecuteActionsFromJson(actions: seq<Dict>) returns (r: Outcome)
      modifies driver
      ensures Performed(Engine.ExecuteActions(driver.respond, |old(driver.log)|, actions), r,
                        old(driver.log), driver.log)
    {
      Engine.StepsAre(driver.respond);
      BatchesAre(Engine.StepSpec, driver.respond, actions);
      BatchStart((m: nat, i: nat, acc: seq<Value>) =>
                   if i <= |actions| then Batch(Engine.StepSpec, driver.respond, m, actions[i..], acc) else Run(Returned(VNull), []),
                 Engine.StepSpec, driver.respond, |driver.log|, actions);
      r := Batched(actions, Engine.StepSpec, (m: nat, i: nat, acc: seq<Value>) =>
                     if i <= |actions| then Batch(Engine.StepSpec, driver.respond, m, actions[i..], acc) else Run(Returned(VNull), []));
    }
  }
}
