/** The `DriverActions` class of main2.py: the same shape as the lenient
    class, with its own primitives and batch loop. Each method is proved to
    do to the session exactly what the function of the same role in module
    Strict says. */
module StrictDriver {
  import opened Py
  import opened Browser
  import opened Locators
  import opened Batches
  import opened Texts
  import Engine
  import Strict

  class DriverActions {
    const driver: Session

    constructor (driver: Session)
      ensures this.driver == driver
    {
      this.driver := driver;
    }

    // -------------------------------------------------------------------------
    // Primitives (main2.py:45-51, 59-65, 67-140)
    // -------------------------------------------------------------------------

    /** `wait_for_element`. */
    method WaitForElement(lt: Value, lv: Value, timeout: Value) returns (r: Outcome)
      modifies driver
      ensures Performed(Strict.WaitPresent(driver.respond, |old(driver.log)|, lt, lv, timeout), r,
                        old(driver.log), driver.log)
    {
      var locatorType := lt;
      if locatorType == VStr("linkText") {
        locatorType := VStr("LINK_TEXT");
      } else if locatorType == VStr("CSS") {
        locatorType := VStr("CSS_SELECTOR");
      }
      var strat := ByAttr(locatorType);
      if strat.Err? {
        return Raised(strat.error);
      }
      var reply := driver.Issue(Wait(Present, strat.value, lv, timeout));
      r := Answer(reply);
    }

    /** `input` (Keys), `click` (Press), `mouse_down` (Hold) and `mouse_up`
        (Lift): the wait, then the gesture on the element it returned. */
    method Interact(g: Strict.Gesture, lt: Value, lv: Value) returns (r: Outcome)
      modifies driver
      ensures Performed(Strict.Interact(driver.respond, |old(driver.log)|, g, lt, lv), r, old(driver.log), driver.log)
    {
      var element := WaitForElement(lt, lv, Engine.DefaultTimeout);
      if !element.Returned? {
        return element;
      }
      var reply := driver.Issue(Strict.GestureCall(g, element.v));
      r := Discarded(Answer(reply));
    }

    /** `find_element` (many false) and `find_elements` (many true). */
    method Find(many: bool, lt: Value, lv: Value) returns (r: Outcome)
      modifies driver
      ensures Performed(Strict.Find(driver.respond, |old(driver.log)|, many, lt, lv), r, old(driver.log), driver.log)
    {
      var locatorType := if lt == VStr("CSS") then VStr("CSS_SELECTOR") else lt;
      var strat := ByAttr(locatorType);
      if strat.Err? {
        return Raised(strat.error);
      }
      var reply := driver.Issue(if many then FindElements(strat.value, lv) else FindElement(strat.value, lv));
      r := Answer(reply);
    }

    /** The nineteen methods that forward to one session call. */
    method Forward(name: string, arg: Value) returns (r: Outcome)
      requires IsForwarder(name)
      modifies driver
      ensures Performed(ForwardRun(driver.respond, |old(driver.log)|, name, arg), r, old(driver.log), driver.log)
    {
      var reply := driver.Issue(ForwardCall(name, arg));
      r := if IsYielding(name) then Answer(reply) else Discarded(Answer(reply));
    }

    // -------------------------------------------------------------------------
    // Dispatch by name (main2.py:53-57)
    // -------------------------------------------------------------------------

    /** `getattr(self, name)(**p)`. */
    method Invoke(name: string, p: Dict) returns (r: Outcome)
      requires Strict.IsAttribute(name)
      modifies driver
      ensures Performed(Strict.Invoke(driver.respond, |old(driver.log)|, name, p), r, old(driver.log), driver.log)
    {
      if name == "driver" || !Binds(p, Engine.Required(name), Engine.Optional(name)) {
        return Raised(TypeError);
      }
      match name
      case "wait_for_element" =>
        r := WaitForElement(p["locator_type"], p["locator_value"], Engine.TimeoutArg(p));
      case "input" => r := Interact(Strict.Keys(p["input_value"]), p["locator_type"], p["locator_value"]);
      case "click" => r := Interact(Strict.Press, p["locator_type"], p["locator_value"]);
      case "mouse_down" => r := Interact(Strict.Hold, p["locator_type"], p["locator_value"]);
      case "mouse_up" => r := Interact(Strict.Lift, p["locator_type"], p["locator_value"]);
      case "find_element" => r := Find(false, p["locator_type"], p["locator_value"]);
      case "find_elements" => r := Find(true, p["locator_type"], p["locator_value"]);
      case "execute" => r := Raised(Unmodelled(name));
      case "execute_actions_from_json" => r := Raised(Unmodelled(name));
      case _ => r := Forward(name, Engine.ForwardArg(p, name));
    }

    /** `execute(action)`. */
    method Execute(action: Dict) returns (r: Outcome)
      modifies driver
      ensures Performed(Strict.Execute(driver.respond, |old(driver.log)|, action), r, old(driver.log), driver.log)
    {
      if "action" !in action {
        return Raised(KeyError("action"));
      }
      if !action["action"].VStr? {
        return Raised(TypeError);
      }
      var name := action["action"].s;
      if !Strict.IsAttribute(name) {
        return Returned(VNull);
      }
      var params := action - {"action"};
      var i := Invoke(name, params);
      r := Discarded(i);
    }

    // -------------------------------------------------------------------------
    // The branches of the batch runner (main2.py:146-224)
    // -------------------------------------------------------------------------

    /** A lookup followed by the text read of lines 182 and 186. */
    method FindText(many: bool, lt: Value, lv: Value) returns (r: Outcome)
      modifies driver
      ensures Performed(Strict.FindText(driver.respond, |old(driver.log)|, many, lt, lv), r, old(driver.log), driver.log)
    {
      var f := Find(many, lt, lv);
      if !f.Returned? {
        return f;
      }
      if many {
        r := GetListTexts(driver, f.v);
      } else {
        r := GetText(driver, f.v);
      }
    }

    /** `alert = self.switch_to_alert(); alert.text if alert else None`. */
    method AlertText() returns (r: Outcome)
      modifies driver
      ensures Performed(Engine.AlertText(driver.respond, |old(driver.log)|), r, old(driver.log), driver.log)
    {
      var alert := Forward("switch_to_alert", VNull);
      if !alert.Returned? {
        return alert;
      }
      r := GetText(driver, alert.v);
    }

    /** The located primitive called with the `By` value `strat`. */
    method LocatedCall(route: Engine.Route, strat: string, lv: Value) returns (out: Outcome, appended: seq<Value>)
      requires route.FindRoute? || route.MouseRoute?
      modifies driver
      ensures Stepped(Strict.LocatedCall(driver.respond, |old(driver.log)|, route, strat, lv), out, appended,
                      old(driver.log), driver.log)
    {
      if route.FindRoute? {
        out := FindText(route.many, VStr(strat), lv);
        appended := if out.Returned? then [out.v] else [];
      } else {
        var m := Interact(if route.hold then Strict.Hold else Strict.Lift, VStr(strat), lv);
        out, appended := Discarded(m), [];
      }
    }

    /** `getattr(By, action["locator_type"])`, `action["locator_value"]`, then
        the primitive. */
    method LocatedBranch(route: Engine.Route, a: Dict) returns (out: Outcome, appended: seq<Value>)
      requires route.FindRoute? || route.MouseRoute?
      modifies driver
      ensures Stepped(Strict.LocatedBranch(driver.respond, |old(driver.log)|, route, a), out, appended,
                      old(driver.log), driver.log)
    {
      if "locator_type" !in a {
        return Raised(KeyError("locator_type")), [];
      }
      var strat := ByAttr(a["locator_type"]);
      if strat.Err? {
        return Raised(strat.error), [];
      }
      if "locator_value" !in a {
        return Raised(KeyError("locator_value")), [];
      }
      out, appended := LocatedCall(route, strat.value, a["locator_value"]);
    }

    /** A forwarder's branch: its parameter is looked up first; its answer is
        appended when the method returns it. */
    method ForwardBranch(name: string, a: Dict) returns (out: Outcome, appended: seq<Value>)
      requires IsForwarder(name)
      modifies driver
      ensures Stepped(Engine.ForwardBranch(driver.respond, |old(driver.log)|, name, a), out, appended,
                      old(driver.log), driver.log)
    {
      var arg := VNull;
      var param := ForwardParam(name);
      if param.Some? {
        if param.value !in a {
          return Raised(KeyError(param.value)), [];
        }
        arg := a[param.value];
      }
      out := Forward(name, arg);
      appended := if IsYielding(name) && out.Returned? then [out.v] else [];
      if !IsYielding(name) {
        out := Discarded(out);
      }
    }

    /** The branch a route selects; `wait_and_input` and `wait_and_click` are
        not attributes of the class. */
    method NamedBranch(route: Engine.Route, a: Dict) returns (out: Outcome, appended: seq<Value>)
      requires route != Engine.NoRoute && route != Engine.ScriptRoute
      requires route.ForwardRoute? ==> IsForwarder(route.name)
      modifies driver
      ensures Stepped(Strict.NamedBranch(driver.respond, |old(driver.log)|, route, a), out, appended,
                      old(driver.log), driver.log)
    {
      match route
      case InputRoute => out, appended := Raised(AttributeError("wait_and_input")), [];
      case ClickRoute => out, appended := Raised(AttributeError("wait_and_click")), [];
      case FindRoute(_) => out, appended := LocatedBranch(route, a);
      case MouseRoute(_) => out, appended := LocatedBranch(route, a);
      case AlertRoute =>
        out := AlertText();
        appended := if out.Returned? then [out.v] else [];
      case ForwardRoute(name) => out, appended := ForwardBranch(name, a);
    }

    /** One iteration of the loop of `execute_actions_from_json`. */
    method Step(action: Dict) returns (out: Outcome, appended: seq<Value>)
      modifies driver
      ensures Stepped(Strict.StepSpec(driver.respond, |old(driver.log)|, action), out, appended,
                      old(driver.log), driver.log)
    {
      if "action" !in action {
        return Raised(KeyError("action")), [];
      }
      var route := Strict.ActionRoute(action);
      if route == Engine.NoRoute {
        return Returned(VNull), [];
      }
      out, appended := NamedBranch(route, action);
    }

    /** One iteration, seen through `step`. */
    method StepVia(action: Dict, ghost step: Stepper) returns (out: Outcome, appended: seq<Value>)
      requires Strict.IsSteps(step, driver.respond)
      modifies driver
      ensures Stepped(step(driver.respond, |old(driver.log)|, action), out, appended, old(driver.log), driver.log)
    {
      ghost var m := |driver.log|;
      assert step(driver.respond, m, action) == Strict.StepSpec(driver.respond, m, action);
      out, appended := Step(action);
    }

    /** The loop of `execute_actions_from_json`: the results list grows by
        what each step appends, and the first step that does not return ends
        the batch with its outcome. */
    method Batched(actions: seq<Dict>, ghost step: Stepper, ghost batch: (nat, nat, seq<Value>) -> Run)
      returns (r: Outcome)
      requires Strict.IsSteps(step, driver.respond) && IsBatches(batch, step, driver.respond, actions)
      modifies driver
      ensures Performed(batch(|old(driver.log)|, 0, []), r, old(driver.log), driver.log)
    {
      ghost var total := batch(|driver.log|, 0, []);
      ghost var log0 := driver.log;
      ghost var done: seq<Call> := [];
      var results: seq<Value> := [];
      for i := 0 to |actions|
        invariant driver.log == log0 + done
        invariant var t := batch(|driver.log|, i, results); total == Run(t.out, done + t.calls)
      {
        ghost var m := |driver.log|;
        BatchAdvance(batch, step, driver.respond, m, actions, i, results, done, total);
        var out, appended := StepVia(actions[i], step);
        AppendAssoc(log0, done, step(driver.respond, m, actions[i]).calls);
        if !out.Returned? {
          return out;
        }
        done := done + step(driver.respond, m, actions[i]).calls;
        results := results + appended;
      }
      BatchEnd(batch, step, driver.respond, |driver.log|, actions, results);
      r := Returned(VList(results));
    }

    /** `execute_actions_from_json` on the decoded list of actions. */
    method ExecuteActionsFromJson(actions: seq<Dict>) returns (r: Outcome)
      modifies driver
      ensures Performed(Strict.ExecuteActions(driver.respond, |old(driver.log)|, actions), r,
                        old(driver.log), driver.log)
    {
      Strict.StepsAre(driver.respond);
      BatchesAre(Strict.StepSpec, driver.respond, actions);
      BatchStart((m: nat, i: nat, acc: seq<Value>) =>
                   if i <= |actions| then Batch(Strict.StepSpec, driver.respond, m, actions[i..], acc) else Run(Returned(VNull), []),
                 Strict.StepSpec, driver.respond, |driver.log|, actions);
      r := Batched(actions, Strict.StepSpec, (m: nat, i: nat, acc: seq<Value>) =>
                     if i <= |actions| then Batch(Strict.StepSpec, driver.respond, m, actions[i..], acc) else Run(Returned(VNull), []));
    }
  }
}
