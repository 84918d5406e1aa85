/** The strict duplicate of the engine in main2.py:41-226, as functions of
    the session's oracle `o` and the position `n` of the first call: its
    own alias rules, no locator validation, no delay, retry or fallback in
    the primitives, and a batch loop without exception handling. The
    forwarders, the alert read and the text extraction are the same code as
    in driver_actions.py and are shared with module Engine. */
module Strict {
  import opened Py
  import opened Browser
  import opened Locators
  import opened Batches
  import opened Texts
  import Engine

  // ---------------------------------------------------------------------------
  // Locator handling (main2.py:45-51, 94-102)
  // ---------------------------------------------------------------------------

  /** The rewrite of `wait_for_element`: "linkText" and "CSS" only. */
  function WaitAlias(lt: Value): Value {
    if lt == VStr("linkText") then VStr("LINK_TEXT")
    else if lt == VStr("CSS") then VStr("CSS_SELECTOR")
    else lt
  }

  /** The rewrite of `find_element` / `find_elements`: "CSS" only. */
  function FindAlias(lt: Value): Value {
    if lt == VStr("CSS") then VStr("CSS_SELECTOR") else lt
  }

  /** `wait_for_element`: `getattr(By, ...)` straight on the rewritten type,
      then a presence wait whose failure (a timeout included) propagates. */
  function WaitPresent(o: Oracle, n: nat, lt: Value, lv: Value, timeout: Value): (r: Run)
    ensures ByAttr(WaitAlias(lt)).Err? ==> r == Run(Raised(ByAttr(WaitAlias(lt)).error), [])
    ensures ByAttr(WaitAlias(lt)).Ok? ==>
      r == Run(Answer(o(n)), [Wait(Present, ByAttr(WaitAlias(lt)).value, lv, timeout)])
    ensures !r.out.Exited?
  {
    match ByAttr(WaitAlias(lt))
    case Err(e) => Run(Raised(e), [])
    case Ok(strat) => Run(Answer(o(n)), [Wait(Present, strat, lv, timeout)])
  }

  /** What `input`, `click`, `mouse_down` and `mouse_up` do to the element
      the wait returned. */
  datatype Gesture = Keys(text: Value) | Press | Hold | Lift

  function GestureCall(g: Gesture, el: Value): Call {
    match g
    case Keys(text) => SendKeys(el, text)
    case Press => ElementClick(el)
    case Hold => ClickAndHold(el)
    case Lift => Release(el)
  }

  /** `input`, `click`, `mouse_down`, `mouse_up` (main2.py:59-65, 134-140):
      the presence wait, then the gesture; every failure propagates. */
  function Interact(o: Oracle, n: nat, g: Gesture, lt: Value, lv: Value): (r: Run)
    ensures !r.out.Exited?
    ensures r.out.Returned? ==> r.out.v == VNull
  {
    var w := WaitPresent(o, n, lt, lv, Engine.DefaultTimeout);
    if w.out.Returned? then
      Run(Discarded(Answer(o(n + |w.calls|))), w.calls + [GestureCall(g, w.out.v)])
    else w
  }

  /** `find_element` (many false) and `find_elements` (many true). */
  function Find(o: Oracle, n: nat, many: bool, lt: Value, lv: Value): (r: Run)
    ensures ByAttr(FindAlias(lt)).Err? ==> r == Run(Raised(ByAttr(FindAlias(lt)).error), [])
    ensures ByAttr(FindAlias(lt)).Ok? ==>
      var strat := ByAttr(FindAlias(lt)).value;
      r == Run(Answer(o(n)), [if many then FindElements(strat, lv) else FindElement(strat, lv)])
    ensures !r.out.Exited?
  {
    match ByAttr(FindAlias(lt))
    case Err(e) => Run(Raised(e), [])
    case Ok(strat) => Run(Answer(o(n)), [if many then FindElements(strat, lv) else FindElement(strat, lv)])
  }

  // ---------------------------------------------------------------------------
  // Name-based dispatch (main2.py:53-57)
  // ---------------------------------------------------------------------------

  /** The attribute names of the strict DriverActions object the model
      knows: its methods and its `driver` field. */
  predicate IsAttribute(name: string) {
    IsForwarder(name) ||
    name in {
      "wait_for_element", "execute", "input", "click", "find_element", "find_elements",
      "mouse_down", "mouse_up", "execute_actions_from_json", "driver"
    }
  }

  /** `getattr(self, name)(**p)`; the parameter lists are those of the
      lenient class. */
  function Invoke(o: Oracle, n: nat, name: string, p: Dict): (r: Run)
    requires IsAttribute(name)
    ensures !Binds(p, Engine.Required(name), Engine.Optional(name)) ==> r == Run(Raised(TypeError), [])
    ensures name == "driver" ==> r == Run(Raised(TypeError), [])
    ensures !r.out.Exited?
  {
    if name == "driver" then Run(Raised(TypeError), [])
    else if !Binds(p, Engine.Required(name), Engine.Optional(name)) then Run(Raised(TypeError), [])
    else
      match name
      case "wait_for_element" => WaitPresent(o, n, p["locator_type"], p["locator_value"], Engine.TimeoutArg(p))
      case "input" => Interact(o, n, Keys(p["input_value"]), p["locator_type"], p["locator_value"])
      case "click" => Interact(o, n, Press, p["locator_type"], p["locator_value"])
      case "mouse_down" => Interact(o, n, Hold, p["locator_type"], p["locator_value"])
      case "mouse_up" => Interact(o, n, Lift, p["locator_type"], p["locator_value"])
      case "find_element" => Find(o, n, false, p["locator_type"], p["locator_value"])
      case "find_elements" => Find(o, n, true, p["locator_type"], p["locator_value"])
      case "execute" => Run(Raised(Unmodelled(name)), [])
      case "execute_actions_from_json" => Run(Raised(Unmodelled(name)), [])
      case _ => ForwardRun(o, n, name, Engine.ForwardArg(p, name))
  }

  /** `execute(action)`: an unknown name is skipped without a call or an
      error; a known one gets every key but "action", unchanged. */
  function Execute(o: Oracle, n: nat, action: Dict): (r: Run)
    ensures "action" !in action ==> r == Run(Raised(KeyError("action")), [])
    ensures "action" in action && !action["action"].VStr? ==> r == Run(Raised(TypeError), [])
    ensures "action" in action && action["action"].VStr? && !IsAttribute(action["action"].s) ==>
      r == Run(Returned(VNull), [])
    ensures "action" in action && action["action"].VStr? && IsAttribute(action["action"].s) ==>
      var i := Invoke(o, n, action["action"].s, action - {"action"});
      r == Run(Discarded(i.out), i.calls)
    ensures !r.out.Exited?
    ensures r.out.Returned? ==> r.out.v == VNull
  {
    if "action" !in action then Run(Raised(KeyError("action")), [])
    else
      match action["action"]
      case VStr(name) =>
        if IsAttribute(name) then
          var i := Invoke(o, n, name, action - {"action"});
          Run(Discarded(i.out), i.calls)
        else Run(Returned(VNull), [])
      case _ => Run(Raised(TypeError), [])
  }

  // ---------------------------------------------------------------------------
  // The batch runner (main2.py:142-226)
  // ---------------------------------------------------------------------------

  /** The if-chain of main2.py:147-224: the lenient chain without its
      runScript branch. */
  function RouteOf(name: string): (r: Engine.Route)
    ensures r != Engine.ScriptRoute
    ensures r.ForwardRoute? ==> r.name == name && IsForwarder(name) && name != "switch_to_alert"
  {
    if name == "runScript" then Engine.NoRoute else Engine.RouteOf(name)
  }

  function ActionRoute(a: Dict): Engine.Route {
    if "action" in a && a["action"].VStr? then RouteOf(a["action"].s) else Engine.NoRoute
  }

  /** A lookup followed by the text read of main2.py:182 and 186. */
  function FindText(o: Oracle, n: nat, many: bool, lt: Value, lv: Value): (r: Run)
    ensures ByAttr(FindAlias(lt)).Err? ==> r == Run(Raised(ByAttr(FindAlias(lt)).error), [])
    ensures !r.out.Exited?
  {
    var f := Find(o, n, many, lt, lv);
    if f.out.Returned? then
      var t := if many then ListTexts(o, n + |f.calls|, f.out.v) else TextOf(o, n + |f.calls|, f.out.v);
      Run(t.out, f.calls + t.calls)
    else f
  }

  /** The located primitive called with the `By` value `strat`. */
  function LocatedCall(o: Oracle, n: nat, r: Engine.Route, strat: string, lv: Value): (s: Step)
    requires r.FindRoute? || r.MouseRoute?
    ensures r.FindRoute? ==> s.out == FindText(o, n, r.many, VStr(strat), lv).out
    ensures s.out.Returned? ==> |s.appended| == Engine.RouteAppends(r)
    ensures s.out.Returned? ==> s.appended == if r.FindRoute? then [s.out.v] else []
    ensures !s.out.Returned? ==> s.appended == []
    ensures !s.out.Exited?
  {
    if r.FindRoute? then Appending(FindText(o, n, r.many, VStr(strat), lv))
    else Plain(Interact(o, n, if r.hold then Hold else Lift, VStr(strat), lv))
  }

  /** The branch of a located primitive: `getattr(By, action["locator_type"])`
      then `action["locator_value"]`, then the primitive on the `By` value. */
  function LocatedBranch(o: Oracle, n: nat, r: Engine.Route, a: Dict): (s: Step)
    requires r.FindRoute? || r.MouseRoute?
    ensures s.out.Returned? ==> |s.appended| == Engine.RouteAppends(r)
    ensures s.out.Returned? ==> s.appended == if r.FindRoute? then [s.out.v] else []
    ensures !s.out.Returned? ==> s.appended == []
    ensures !s.out.Exited?
  {
    match Lookup(a, ["locator_type"])
    case Err(e) => Step(Raised(e), [], [])
    case Ok(_) =>
      match ByAttr(a["locator_type"])
      case Err(e) => Step(Raised(e), [], [])
      case Ok(strat) =>
        match Lookup(a, ["locator_value"])
        case Err(e) => Step(Raised(e), [], [])
        case Ok(_) => LocatedCall(o, n, r, strat, a["locator_value"])
  }

  /** The branch a route selects. The input and click branches call
      `self.wait_and_input` / `self.wait_and_click`, which the class does
      not define: the attribute lookup fails before any argument is read. */
  function NamedBranch(o: Oracle, n: nat, r: Engine.Route, a: Dict): (s: Step)
    requires r != Engine.NoRoute && r != Engine.ScriptRoute
    requires r.ForwardRoute? ==> IsForwarder(r.name)
    ensures s.out.Returned? ==> |s.appended| == Engine.RouteAppends(r)
    ensures s.out.Returned? ==> s.appended == if Engine.RouteAppends(r) == 1 then [s.out.v] else []
    ensures !s.out.Returned? ==> s.appended == []
    ensures !s.out.Exited?
  {
    match r
    case InputRoute => Step(Raised(AttributeError("wait_and_input")), [], [])
    case ClickRoute => Step(Raised(AttributeError("wait_and_click")), [], [])
    case FindRoute(_) => LocatedBranch(o, n, r, a)
    case MouseRoute(_) => LocatedBranch(o, n, r, a)
    case AlertRoute => Appending(Engine.AlertText(o, n))
    case ForwardRoute(name) => Engine.ForwardBranch(o, n, name, a)
  }

  /** One iteration of the loop: no normalisation and no `try`, so every
      exception ends the batch as it is. */
  function StepSpec(o: Oracle, n: nat, a: Dict): (s: Step)
    ensures "action" !in a ==> s == Step(Raised(KeyError("action")), [], [])
    ensures "action" in a && ActionRoute(a) == Engine.NoRoute ==> s == Step(Returned(VNull), [], [])
    ensures s.out.Returned? ==> |s.appended| == Engine.RouteAppends(ActionRoute(a))
    ensures s.out.Returned? ==> s.appended == if IsProducing(a) then [s.out.v] else []
    ensures !s.out.Returned? ==> s.appended == []
    ensures !s.out.Exited?
  {
    AppendsProducing(a);
    if "action" !in a then Step(Raised(KeyError("action")), [], [])
    else
      var r := ActionRoute(a);
      if r == Engine.NoRoute then Step(Returned(VNull), [], []) else NamedBranch(o, n, r, a)
  }

  /** `step` is one iteration of the loop seen from every position of the
      session. */
  ghost predicate IsSteps(step: Stepper, o: Oracle) {
    forall m: nat, a: Dict {:trigger StepSpec(o, m, a)} :: step(o, m, a) == StepSpec(o, m, a)
  }

  lemma StepsAre(o: Oracle)
    ensures IsSteps(StepSpec, o)
  {
  }

  /** `execute_actions_from_json` on the decoded list of actions. */
  function ExecuteActions(o: Oracle, n: nat, actions: seq<Dict>): Run {
    Batch(StepSpec, o, n, actions, [])
  }

  // ---------------------------------------------------------------------------
  // Properties of the strict engine
  // ---------------------------------------------------------------------------

  /** The strict wait accepts the eight canonical names, "linkText" and
      "CSS", and then waits for the strategy the lenient resolver would give
      the same name; anything else fails in `getattr(By, ...)` before any
      call, with an AttributeError rather than the resolver's ValueError. */
  lemma WaitAccepts(o: Oracle, n: nat, lt: Value, lv: Value, t: Value)
    ensures var r := WaitPresent(o, n, lt, lv, t);
      r.calls != [] <==> lt.VStr? && (IsSupported(lt.s) || lt.s == "linkText" || lt.s == "CSS")
    ensures var r := WaitPresent(o, n, lt, lv, t);
      r.calls != [] ==> r.calls == [Wait(Present, ByValue(ConvertLocatorType(lt.s).value), lv, t)]
    ensures lt.VStr? && !IsSupported(lt.s) && lt.s != "linkText" && lt.s != "CSS" ==>
      WaitPresent(o, n, lt, lv, t) == Run(Raised(AttributeError(lt.s)), [])
    ensures !lt.VStr? ==> WaitPresent(o, n, lt, lv, t) == Run(Raised(TypeError), [])
  {
  }

  /** The two rule sets differ on "LINKTEXT": the lenient wait resolves it to
      the link-text strategy, the strict one fails on it before any call. */
  lemma UpperLinkTextOnlyLenient(o: Oracle, n: nat, lv: Value, t: Value)
    ensures WaitPresent(o, n, VStr("LINKTEXT"), lv, t) == Run(Raised(AttributeError("LINKTEXT")), [])
    ensures Engine.WaitPresent(o, n, VStr("LINKTEXT"), lv, t).calls[0] == Wait(Present, "link text", lv, t)
  {
  }

  /** `find_element` knows "CSS" only: "linkText", which the strict wait
      accepts, fails in the finders. */
  lemma FindAccepts(o: Oracle, n: nat, many: bool, lt: Value, lv: Value)
    ensures var r := Find(o, n, many, lt, lv);
      r.calls != [] <==> lt.VStr? && (IsSupported(lt.s) || lt.s == "CSS")
    ensures Find(o, n, many, VStr("linkText"), lv) == Run(Raised(AttributeError("linkText")), [])
    ensures WaitPresent(o, n, VStr("linkText"), lv, Engine.DefaultTimeout).calls != []
  {
  }

  /** The strict primitives neither retry nor fall back: with a supported
      locator type, a failing wait (a timeout included) raises its exception
      after the one wait, and a failing gesture raises its own after the
      wait and the gesture; the browser is never quit. */
  lemma InteractPropagates(o: Oracle, n: nat, g: Gesture, kind: string, lv: Value)
    requires IsSupported(kind)
    ensures var w := Wait(Present, ByValue(kind), lv, Engine.DefaultTimeout);
      var r := Interact(o, n, g, VStr(kind), lv);
      (o(n).Throws? ==> r == Run(Raised(o(n).e), [w])) &&
      (o(n).Gives? ==> r.calls == [w, GestureCall(g, o(n).v)] && r.out == Discarded(Answer(o(n + 1))))
  {
  }

  /** The lenient `execute` turns a "CSS" locator type into "CSS_SELECTOR";
      the strict one passes every parameter unchanged, so it is the strict
      primitive's own alias rule that resolves "CSS", and "LINKTEXT" is
      rejected before any call. */
  lemma ExecuteDoesNotRewrite(o: Oracle, n: nat, action: Dict)
    requires "action" in action && "locator_type" in action
    requires action["action"] == VStr("click")
    requires "locator_value" in action && action.Keys == {"action", "locator_type", "locator_value"}
    ensures action["locator_type"] == VStr("LINKTEXT") ==>
      Execute(o, n, action) == Run(Raised(AttributeError("LINKTEXT")), [])
    ensures action["locator_type"] == VStr("CSS") ==>
      Execute(o, n, action).calls[0] == Wait(Present, "css selector", action["locator_value"], Engine.DefaultTimeout)
    ensures action["locator_type"] == VStr("CSS") ==>
      Engine.ExecuteParams(action)["locator_type"] == VStr("CSS_SELECTOR") &&
      (action - {"action"})["locator_type"] == VStr("CSS")
  {
    var p := action - {"action"};
    assert p.Keys == {"locator_type", "locator_value"};
    assert Binds(p, Engine.Required("click"), Engine.Optional("click"));
  }

  /** The "input" and "click" branches of the batch raise AttributeError for
      the missing `wait_and_input` / `wait_and_click`, whatever the action's
      other keys, before any call. */
  lemma InputClickBranchesFail(o: Oracle, n: nat, a: Dict)
    requires "action" in a && a["action"] in {VStr("input"), VStr("click")}
    ensures a["action"] == VStr("input") ==>
      StepSpec(o, n, a) == Step(Raised(AttributeError("wait_and_input")), [], [])
    ensures a["action"] == VStr("click") ==>
      StepSpec(o, n, a) == Step(Raised(AttributeError("wait_and_click")), [], [])
  {
  }

  /** No `By` strategy string is itself an attribute name of `By`, nor the
      alias "CSS". */
  lemma StrategyNotAName(kind: string)
    requires IsSupported(kind)
    ensures !IsSupported(ByValue(kind)) && ByValue(kind) != "CSS"
  {
  }

  /** The find_element, find_elements, mouse_down and mouse_up branches hand
      the lower-case `By` value to a primitive that calls `getattr(By, ...)`
      on it again: they always raise before any call. */
  lemma LocatedBranchesRaise(o: Oracle, n: nat, a: Dict)
    requires "action" in a
    requires a["action"] in {VStr("find_element"), VStr("find_elements"), VStr("mouse_down"), VStr("mouse_up")}
    ensures StepSpec(o, n, a).out.Raised? && StepSpec(o, n, a).calls == []
  {
    var r := ActionRoute(a);
    assert r.FindRoute? || r.MouseRoute?;
    if "locator_type" in a && ByAttr(a["locator_type"]).Ok? && "locator_value" in a {
      StrategyNotAName(a["locator_type"].s);
    }
  }

  /** The strict chain has no runScript branch: such an action is skipped,
      while the lenient chain routes it to its script branch. */
  lemma RunScriptSkipped(o: Oracle, n: nat, a: Dict)
    requires "action" in a && a["action"] == VStr("runScript")
    ensures StepSpec(o, n, a) == Step(Returned(VNull), [], [])
    ensures Engine.ActionRoute(a) == Engine.ScriptRoute
  {
  }

  /** Without a `try` in the loop, the first action that raises ends the
      batch with that very exception: the actions after it are never run.
      `step` stands for one iteration of the loop (IsSteps). */
  lemma FirstFailureAborts(step: Stepper, o: Oracle, n: nat, xs: seq<Dict>, a: Dict, ys: seq<Dict>)
    requires IsSteps(step, o)
    requires Batch(step, o, n, xs, []).out.Returned?
    requires !step(o, n + |Batch(step, o, n, xs, []).calls|, a).out.Returned?
    ensures var r := Batch(step, o, n, xs, []);
      var s := step(o, n + |r.calls|, a);
      s.out.Raised? && Batch(step, o, n, xs + [a] + ys, []) == Run(s.out, r.calls + s.calls)
  {
    var r := Batch(step, o, n, xs, []);
    assert step(o, n + |r.calls|, a) == StepSpec(o, n + |r.calls|, a);
    FirstFailureEnds(step, o, n, xs, a, ys, []);
  }

  /** The strict batch never ends the process. */
  lemma BatchNeverExits(o: Oracle, n: nat, actions: seq<Dict>)
    ensures !ExecuteActions(o, n, actions).out.Exited?
  {
    NeverExits(StepSpec, o, n, actions, []);
  }

  /** Whether an action names a value-producing branch of the strict chain. */
  predicate IsProducing(a: Dict) {
    "action" in a && a["action"].VStr? && Engine.IsProducingName(a["action"].s) && a["action"].s != "runScript"
  }

  function ActionAppends(a: Dict): nat {
    Engine.RouteAppends(ActionRoute(a))
  }

  lemma AppendsProducing(a: Dict)
    ensures ActionAppends(a) == if IsProducing(a) then 1 else 0
  {
    if "action" in a && a["action"].VStr? && a["action"].s != "runScript" {
      Engine.RouteAppendsProducing(a["action"].s);
    }
  }

  function CountProducing(actions: seq<Dict>): nat {
    if actions == [] then 0 else (if IsProducing(actions[0]) then 1 else 0) + CountProducing(actions[1..])
  }

  lemma {:induction false} TotalAppends(actions: seq<Dict>)
    ensures Total(ActionAppends, actions) == CountProducing(actions)
  {
    if actions != [] {
      AppendsProducing(actions[0]);
      TotalAppends(actions[1..]);
    }
  }

  /** A strict batch that completes returns the entries its steps
      appended, one per value-producing action. */
  lemma ResultsPerProducingAction(o: Oracle, n: nat, actions: seq<Dict>)
    ensures var r := ExecuteActions(o, n, actions);
      r.out.Returned? ==>
        r.out == Returned(VList(Appended(StepSpec, o, n, actions))) &&
        |r.out.v.items| == CountProducing(actions)
  {
    ResultCount(StepSpec, ActionAppends, o, n, actions, []);
    TotalAppends(actions);
    BatchResults(StepSpec, o, n, actions, []);
    assert [] + Appended(StepSpec, o, n, actions) == Appended(StepSpec, o, n, actions);
  }

  /** When the actions `xs` before `a` all returned and `a` returned too,
      the entries are those of `xs`, then `a`'s value if `a` produces one,
      then those of `ys`. */
  lemma ActionEntry(step: Stepper, o: Oracle, n: nat, xs: seq<Dict>, a: Dict, ys: seq<Dict>)
    requires IsSteps(step, o)
    requires Batch(step, o, n, xs, []).out.Returned?
    requires step(o, n + |Batch(step, o, n, xs, []).calls|, a).out.Returned?
    ensures var m := n + |Batch(step, o, n, xs, []).calls|;
      var s := step(o, m, a);
      Appended(step, o, n, xs + [a] + ys) ==
        Appended(step, o, n, xs) + (if IsProducing(a) then [s.out.v] else []) +
        Appended(step, o, m + |s.calls|, ys)
  {
    var m := n + |Batch(step, o, n, xs, []).calls|;
    assert step(o, m, a) == StepSpec(o, m, a);
    AppendedAround(step, o, n, xs, a, ys);
  }

  /** A strict batch of one "get_title" action returns the list holding the
      title the browser answered; the strict loop needs no locator type. */
  lemma TitleEntry(o: Oracle, n: nat)
    requires o(n).Gives?
    ensures ExecuteActions(o, n, [map["action" := VStr("get_title")]]) ==
      Run(Returned(VList([o(n).v])), [ForwardCall("get_title", VNull)])
  {
    var a := map["action" := VStr("get_title")];
    assert ActionRoute(a) == Engine.ForwardRoute("get_title");
    var b := Engine.ForwardBranch(o, n, "get_title", a);
    assert b.out == Returned(o(n).v) && b.calls == [ForwardCall("get_title", VNull)];
    var s := StepSpec(o, n, a);
    assert s == b;
    assert IsProducing(a) && s.appended == [o(n).v];
    assert [a][1..] == [];
    assert [] + s.appended == [o(n).v];
    assert Batch(StepSpec, o, n + |s.calls|, [], [] + s.appended) == Run(Returned(VList([o(n).v])), []);
  }

  /** An action named "open", "setWindowSize" or "runScript" names no
      method, so `execute` skips it without a call. */
  lemma NoMethodSkipped(o: Oracle, n: nat, a: Dict)
    requires "action" in a && a["action"] in {VStr("open"), VStr("setWindowSize"), VStr("runScript")}
    ensures Execute(o, n, a) == Run(Returned(VNull), [])
  {
  }

  /** An "input" or "click" action whose keyword arguments do not fit the
      method's signature makes `execute` raise TypeError before any call:
      "input" needs `input_value`, "click" refuses it. */
  lemma MisfitArgumentsRaise(o: Oracle, n: nat, a: Dict)
    requires "action" in a && a["action"] in {VStr("input"), VStr("click")}
    requires ("input_value" in a) == (a["action"] == VStr("click"))
    ensures Execute(o, n, a) == Run(Raised(TypeError), [])
  {
    assert ("input_value" in a - {"action"}) == ("input_value" in a);
  }
}
