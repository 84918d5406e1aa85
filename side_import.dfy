/** The importer of Selenium IDE recordings (`load_actions_from_side`,
    utils.py:45-90): from the decoded `.side` document onward, every command
    of every test becomes one action dictionary of the engine. Python's
    subscripting, membership tests and unpacking are followed on arbitrary
    decoded values, so the errors a malformed recording raises are part of
    the model. */
module SideImport {
  import opened Py

  // ---------------------------------------------------------------------------
  // The Python operations the importer applies to decoded values
  // ---------------------------------------------------------------------------

  /** `v[key]`: a dict gives its entry or a KeyError; no other decoded value
      can be subscripted with a string. */
  function Index(v: Value, key: string): (r: Result<Value>)
    ensures r.Ok? <==> v.VObj? && key in v.fields
    ensures r.Ok? ==> r.value == v.fields[key]
    ensures v.VObj? && key !in v.fields ==> r == Err(KeyError(key))
  {
    match v
    case VObj(m) => if key in m then Ok(m[key]) else Err(KeyError(key))
    case _ => Err(TypeError)
  }

  /** `for x in v:` where the loop body starts with `x[key]`. A list gives
      its items; an empty string or dict gives nothing to visit; a
      non-empty string or dict yields strings, which the subscript that
      follows rejects with a TypeError; other values are not iterable. */
  function Elements(v: Value): (r: Result<seq<Value>>)
    ensures v.VList? ==> r == Ok(v.items)
  {
    match v
    case VList(xs) => Ok(xs)
    case VStr(s) => if s == [] then Ok([]) else Err(TypeError)
    case VObj(m) => if m == map[] then Ok([]) else Err(TypeError)
    case _ => Err(TypeError)
  }

  /** `command_mapping.get(name, name)`: only "type" is renamed ("input");
      a list or dict is not hashable. */
  function MapCommand(name: Value): (r: Result<Value>)
    ensures r.Ok? <==> !name.VList? && !name.VObj?
    ensures r.Ok? ==> r.value == if name == VStr("type") then VStr("input") else name
  {
    match name
    case VList(_) => Err(TypeError)
    case VObj(_) => Err(TypeError)
    case _ => Ok(if name == VStr("type") then VStr("input") else name)
  }

  /** `"=" in v` (and the like for another one-character string): a
      character test on a string, an element test on a list, a key test on
      a dict; the other values are not containers. */
  function Contains(v: Value, c: char): (r: Result<bool>)
    ensures v.VStr? ==> r == Ok(c in v.s)
  {
    match v
    case VStr(s) => Ok(c in s)
    case VList(xs) => Ok(VStr([c]) in xs)
    case VObj(m) => Ok([c] in m)
    case _ => Err(TypeError)
  }

  // ---------------------------------------------------------------------------
  // One command (utils.py:56-88)
  // ---------------------------------------------------------------------------

  /** The target stage: `kind=value` is split at its first "=", the prefix
      upper-cased; a target without "=" is the locator value as it is. */
  function WithTarget(c: Dict, a: Dict): Result<Dict> {
    if "target" !in c then Ok(a)
    else
      match Contains(c["target"], '=')
      case Err(e) => Err(e)
      case Ok(false) => Ok(a["locator_value" := c["target"]])
      case Ok(true) =>
        match c["target"]
        case VStr(s) =>
          var parts := SplitFirst(s, '=').value;
          Ok(a["locator_type" := VStr(Upper(parts.0))]["locator_value" := VStr(parts.1)])
        case _ => Err(AttributeError("split"))
  }

  /** The setWindowSize stage: `width, height = target.split("x")`. */
  function WithSize(c: Dict, a: Dict): Result<Dict>
    requires "command" in c
  {
    if c["command"] != VStr("setWindowSize") then Ok(a)
    else if "target" !in c then Err(KeyError("target"))
    else
      match c["target"]
      case VStr(s) =>
        var parts := Split(s, 'x');
        if |parts| != 2 then Err(UnpackMismatch(|parts|))
        else Ok(a["width" := VStr(parts[0])]["height" := VStr(parts[1])])
      case _ => Err(AttributeError("split"))
  }

  /** The value stage: a present and truthy value becomes the input value. */
  function WithValue(c: Dict, a: Dict): Dict {
    if "value" in c && Truthy(c["value"]) then a["input_value" := c["value"]] else a
  }

  /** The runScript stage: the target becomes the script, and the locator
      value set by the target stage is deleted. */
  function WithScript(c: Dict, a: Dict): Result<Dict>
    requires "action" in a
  {
    if a["action"] != VStr("runScript") then Ok(a)
    else if "target" !in c then Err(KeyError("target"))
    else
      var b := a["script" := c["target"]];
      if "locator_value" !in b then Err(KeyError("locator_value")) else Ok(b - {"locator_value"})
  }

  /** The action one command translates to, or the exception raised while
      translating it. */
  function Translate(command: Value): Result<Dict> {
    match Index(command, "command")
    case Err(e) => Err(e)
    case Ok(cmd) =>
      match MapCommand(cmd)
      case Err(e) => Err(e)
      case Ok(name) =>
        var c := command.fields;
        match WithTarget(c, map["action" := name])
        case Err(e) => Err(e)
        case Ok(a1) =>
          match WithSize(c, a1)
          case Err(e) => Err(e)
          case Ok(a2) => WithScript(c, WithValue(c, a2))
  }

  // ---------------------------------------------------------------------------
  // The whole document (utils.py:49-90)
  // ---------------------------------------------------------------------------

  /** `{"URL": ..., "ACTIONS": [...]}`. */
  datatype Loaded = Loaded(url: Value, actions: seq<Dict>)

  /** The commands of one test, as the inner loop visits them. */
  function CommandsOf(test: Value): Result<seq<Value>> {
    match Index(test, "commands")
    case Err(e) => Err(e)
    case Ok(v) => Elements(v)
  }

  /** The inner loop from `cs` onward, appending `f` of each command to
      `acc` (`f` is the translation; the loop is stated for any `f` so that
      its properties need nothing of the translation). */
  function Collect(f: Value -> Result<Dict>, cs: seq<Value>, acc: seq<Dict>): Result<seq<Dict>>
    decreases |cs|
  {
    if cs == [] then Ok(acc)
    else
      match f(cs[0])
      case Err(e) => Err(e)
      case Ok(a) => Collect(f, cs[1..], acc + [a])
  }

  /** The outer loop from `ts` onward, appending to `acc`. */
  function LoadTests(ts: seq<Value>, acc: seq<Dict>): Result<seq<Dict>>
    decreases |ts|
  {
    if ts == [] then Ok(acc)
    else
      match CommandsOf(ts[0])
      case Err(e) => Err(e)
      case Ok(cs) =>
        match Collect(Translate, cs, acc)
        case Err(e) => Err(e)
        case Ok(acc') => LoadTests(ts[1..], acc')
  }

  /** `load_actions_from_side` from the decoded document on. */
  function Load(side: Value): Result<Loaded> {
    match Index(side, "url")
    case Err(e) => Err(e)
    case Ok(url) =>
      match Index(side, "tests")
      case Err(e) => Err(e)
      case Ok(tv) =>
        match Elements(tv)
        case Err(e) => Err(e)
        case Ok(ts) =>
          match LoadTests(ts, [])
          case Err(e) => Err(e)
          case Ok(actions) => Ok(Loaded(url, actions))
  }

  // ---------------------------------------------------------------------------
  // The importer as the source writes it: successive assignments to one
  // dictionary, and two nested loops appending to the result list
  // ---------------------------------------------------------------------------

  /** The body of the inner loop: builds the action key by key. */
  method TranslateCommand(command: Value) returns (r: Result<Dict>)
    ensures r == Translate(command)
  {
    var cmd := Index(command, "command");
    if cmd.Err? {
      return Err(cmd.error);
    }
    var name := MapCommand(cmd.value);
    if name.Err? {
      return Err(name.error);
    }
    var c := command.fields;
    var action: Dict := map[];
    action := action["action" := name.value];
    if "target" in c {
      var has := Contains(c["target"], '=');
      if has.Err? {
        return Err(has.error);
      }
      if has.value {
        if !c["target"].VStr? {
          return Err(AttributeError("split"));
        }
        var parts := SplitFirst(c["target"].s, '=');
        action := action["locator_type" := VStr(Upper(parts.value.0))];
        action := action["locator_value" := VStr(parts.value.1)];
      } else {
        action := action["locator_value" := c["target"]];
      }
    }
    if c["command"] == VStr("setWindowSize") {
      if "target" !in c {
        return Err(KeyError("target"));
      }
      if !c["target"].VStr? {
        return Err(AttributeError("split"));
      }
      var parts := Split(c["target"].s, 'x');
      if |parts| != 2 {
        return Err(UnpackMismatch(|parts|));
      }
      action := action["width" := VStr(parts[0])];
      action := action["height" := VStr(parts[1])];
    }
    if "value" in c && Truthy(c["value"]) {
      action := action["input_value" := c["value"]];
    }
    if action["action"] == VStr("runScript") {
      if "target" !in c {
        return Err(KeyError("target"));
      }
      action := action["script" := c["target"]];
      if "locator_value" !in action {
        return Err(KeyError("locator_value"));
      }
      action := action - {"locator_value"};
    }
    r := Ok(action);
  }

  /** `load_actions_from_side` after `json.load`. */
  method LoadActionsFromSide(side: Value) returns (r: Result<Loaded>)
    ensures r == Load(side)
  {
    var url := Index(side, "url");
    if url.Err? {
      return Err(url.error);
    }
    var tv := Index(side, "tests");
    if tv.Err? {
      return Err(tv.error);
    }
    var tests := Elements(tv.value);
    if tests.Err? {
      return Err(tests.error);
    }
    var ts := tests.value;
    ghost var total := LoadTests(ts, []);
    var actions: seq<Dict> := [];
    for i := 0 to |ts|
      invariant total == LoadTests(ts[i..], actions)
    {
      assert ts[i..][0] == ts[i] && ts[i..][1..] == ts[i + 1..];
      var commands := CommandsOf(ts[i]);
      if commands.Err? {
        return Err(commands.error);
      }
      var cs := commands.value;
      for j := 0 to |cs|
        invariant var t := Collect(Translate, cs[j..], actions);
          total == if t.Err? then Err(t.error) else LoadTests(ts[i + 1..], t.value)
      {
        assert cs[j..][0] == cs[j] && cs[j..][1..] == cs[j + 1..];
        var action := TranslateCommand(cs[j]);
        if action.Err? {
          return Err(action.error);
        }
        actions := actions + [action.value];
      }
    }
    r := Ok(Loaded(url.value, actions));
  }

  // ---------------------------------------------------------------------------
  // Properties of the importer
  // ---------------------------------------------------------------------------

  /** The inner loop succeeds exactly when `f` succeeds on every command. */
  lemma {:induction false} CollectOk(f: Value -> Result<Dict>, cs: seq<Value>, acc: seq<Dict>)
    ensures Collect(f, cs, acc).Ok? <==> forall k :: 0 <= k < |cs| ==> f(cs[k]).Ok?
    decreases |cs|
  {
    if cs != [] && f(cs[0]).Ok? {
      CollectOk(f, cs[1..], acc + [f(cs[0]).value]);
      assert forall k :: 0 <= k < |cs[1..]| ==> cs[1..][k] == cs[k + 1];
      assert (forall k :: 0 <= k < |cs| ==> f(cs[k]).Ok?) <==>
             (forall k :: 0 <= k < |cs[1..]| ==> f(cs[1..][k]).Ok?) by {
        if forall k :: 0 <= k < |cs[1..]| ==> f(cs[1..][k]).Ok? {
          forall k | 0 <= k < |cs| ensures f(cs[k]).Ok? {
            if k > 0 {
              assert cs[k] == cs[1..][k - 1];
            }
          }
        }
      }
    }
  }

  /** The inner loop appends `f` of each command, in order. */
  lemma {:induction false} CollectValues(f: Value -> Result<Dict>, cs: seq<Value>, acc: seq<Dict>)
    requires Collect(f, cs, acc).Ok?
    ensures var v := Collect(f, cs, acc).value;
      |v| == |acc| + |cs| && v[..|acc|] == acc &&
      forall k :: 0 <= k < |cs| ==> f(cs[k]) == Ok(v[|acc| + k])
    decreases |cs|
  {
    if cs != [] {
      var t := f(cs[0]).value;
      CollectValues(f, cs[1..], acc + [t]);
      var v := Collect(f, cs, acc).value;
      assert v == Collect(f, cs[1..], acc + [t]).value;
      var w := v[..|acc| + 1];
      assert w == acc + [t];
      assert v[..|acc|] == w[..|acc|];
      assert v[|acc|] == w[|acc|] == (acc + [t])[|acc|];
      forall k | 1 <= k < |cs| ensures f(cs[k]) == Ok(v[|acc| + k]) {
        assert cs[k] == cs[1..][k - 1];
      }
    }
  }

  /** A failing inner loop fails with the exception of the first command
      `f` fails on. */
  lemma {:induction false} CollectError(f: Value -> Result<Dict>, cs: seq<Value>, acc: seq<Dict>)
    requires Collect(f, cs, acc).Err?
    ensures exists k :: 0 <= k < |cs| && f(cs[k]) == Err(Collect(f, cs, acc).error) &&
                        (forall j :: 0 <= j < k ==> f(cs[j]).Ok?)
    decreases |cs|
  {
    var e := Collect(f, cs, acc).error;
    if f(cs[0]).Err? {
      assert f(cs[0]) == Err(e);
    } else {
      CollectError(f, cs[1..], acc + [f(cs[0]).value]);
      var k :| 0 <= k < |cs[1..]| && f(cs[1..][k]) == Err(e) &&
        forall j :: 0 <= j < k ==> f(cs[1..][j]).Ok?;
      assert f(cs[k + 1]) == Err(e);
      forall j | 0 <= j < k + 1 ensures f(cs[j]).Ok? {
        if j > 0 {
          assert cs[j] == cs[1..][j - 1];
        }
      }
    }
  }

  /** The inner loop over two lists is the loop over the first continued by
      the loop over the second. */
  lemma {:induction false} CollectAppend(f: Value -> Result<Dict>, xs: seq<Value>, ys: seq<Value>, acc: seq<Dict>)
    ensures var r := Collect(f, xs, acc);
      Collect(f, xs + ys, acc) == if r.Err? then r else Collect(f, ys, r.value)
    decreases |xs|
  {
    if xs == [] {
      assert xs + ys == ys;
    } else {
      assert (xs + ys)[0] == xs[0] && (xs + ys)[1..] == xs[1..] + ys;
      var t := f(xs[0]);
      if t.Ok? {
        CollectAppend(f, xs[1..], ys, acc + [t.value]);
      }
    }
  }

  /** All the commands of all the tests, tests in order and commands in
      order within a test, or the exception of the first test whose
      commands cannot be visited. */
  function AllCommands(ts: seq<Value>): Result<seq<Value>>
    decreases |ts|
  {
    if ts == [] then Ok([])
    else
      match CommandsOf(ts[0])
      case Err(e) => Err(e)
      case Ok(cs) =>
        match AllCommands(ts[1..])
        case Err(e) => Err(e)
        case Ok(rest) => Ok(cs + rest)
  }

  /** The two loops are one loop over all the commands; when some test has
      no visitable commands, the import fails. */
  lemma {:induction false} LoopsFlatten(ts: seq<Value>, acc: seq<Dict>)
    ensures AllCommands(ts).Ok? ==> LoadTests(ts, acc) == Collect(Translate, AllCommands(ts).value, acc)
    ensures AllCommands(ts).Err? ==> LoadTests(ts, acc).Err?
    decreases |ts|
  {
    if ts != [] {
      var c := CommandsOf(ts[0]);
      if c.Ok? {
        var t := Collect(Translate, c.value, acc);
        if t.Ok? {
          LoopsFlatten(ts[1..], t.value);
        }
        if AllCommands(ts).Ok? {
          CollectAppend(Translate, c.value, AllCommands(ts[1..]).value, acc);
        }
      }
    }
  }

  /** The document's "url" is the result's URL, and its actions are one
      translated command per command, tests in order and commands in order
      within each test; the import succeeds exactly when the url, the tests
      and every test's commands are there and every command translates. */
  lemma OneActionPerCommand(side: Value)
    ensures Load(side).Ok? <==>
      side.VObj? && "url" in side.fields && "tests" in side.fields &&
      Elements(side.fields["tests"]).Ok? && AllCommands(Elements(side.fields["tests"]).value).Ok? &&
      var cs := AllCommands(Elements(side.fields["tests"]).value).value;
      forall k :: 0 <= k < |cs| ==> Translate(cs[k]).Ok?
    ensures Load(side).Ok? ==>
      var cs := AllCommands(Elements(side.fields["tests"]).value).value;
      var r := Load(side).value;
      r.url == side.fields["url"] && |r.actions| == |cs| &&
      forall k :: 0 <= k < |cs| ==> r.actions[k] == Translate(cs[k]).value
  {
    if side.VObj? && "url" in side.fields && "tests" in side.fields && Elements(side.fields["tests"]).Ok? {
      var ts := Elements(side.fields["tests"]).value;
      LoopsFlatten(ts, []);
      if AllCommands(ts).Ok? {
        CollectOk(Translate, AllCommands(ts).value, []);
        if LoadTests(ts, []).Ok? {
          CollectValues(Translate, AllCommands(ts).value, []);
        }
      }
    }
  }

  // What each stage leaves alone, and the stages of a successful translation

  lemma TargetKeeps(c: Dict, a: Dict)
    requires WithTarget(c, a).Ok?
    ensures var b := WithTarget(c, a).value;
      b.Keys <= a.Keys + {"locator_type", "locator_value"} &&
      forall k :: k in a && k != "locator_type" && k != "locator_value" ==> k in b && b[k] == a[k]
  {
  }

  lemma SizeKeeps(c: Dict, a: Dict)
    requires "command" in c && WithSize(c, a).Ok?
    ensures var b := WithSize(c, a).value;
      b.Keys <= a.Keys + {"width", "height"} &&
      forall k :: k in a && k != "width" && k != "height" ==> k in b && b[k] == a[k]
  {
  }

  lemma ValueKeeps(c: Dict, a: Dict)
    ensures var b := WithValue(c, a);
      b.Keys <= a.Keys + {"input_value"} &&
      forall k :: k in a && k != "input_value" ==> k in b && b[k] == a[k]
  {
  }

  lemma ScriptKeeps(c: Dict, a: Dict)
    requires "action" in a && WithScript(c, a).Ok?
    ensures var b := WithScript(c, a).value;
      b.Keys <= a.Keys + {"script"} &&
      forall k :: k in a && k != "script" && k != "locator_value" ==> k in b && b[k] == a[k]
  {
  }

  /** A successful translation, stage by stage: `a0` holds the action name,
      `a1` adds the target's keys and `a2` the window size. */
  lemma Stages(command: Value) returns (c: Dict, a0: Dict, a1: Dict, a2: Dict)
    requires Translate(command).Ok?
    ensures command.VObj? && c == command.fields && "command" in c && MapCommand(c["command"]).Ok?
    ensures a0 == map["action" := MapCommand(c["command"]).value]
    ensures WithTarget(c, a0) == Ok(a1) && WithSize(c, a1) == Ok(a2)
    ensures "action" in a2 && a2["action"] == a0["action"]
    ensures Translate(command) == WithScript(c, WithValue(c, a2))
  {
    c := command.fields;
    a0 := map["action" := MapCommand(c["command"]).value];
    a1 := WithTarget(c, a0).value;
    a2 := WithSize(c, a1).value;
    TargetKeeps(c, a0);
    SizeKeeps(c, a1);
  }

  /** The command name a translated action carries: "type" becomes
      "input", every other name is kept as it is. */
  lemma ActionName(command: Value)
    requires Translate(command).Ok?
    ensures var a := Translate(command).value;
      var name := command.fields["command"];
      "action" in a && a["action"] == if name == VStr("type") then VStr("input") else name
  {
    var c, a0, a1, a2 := Stages(command);
    ValueKeeps(c, a2);
    ScriptKeeps(c, WithValue(c, a2));
  }

  /** A string target with an "=" is split at its first "=": the locator
      type is the upper-cased text before it, and (for anything but
      runScript) the locator value is all the text after it, further "="
      included. */
  lemma TargetSplitAtFirstEquals(command: Value)
    requires Translate(command).Ok?
    requires "target" in command.fields && command.fields["target"].VStr? && '=' in command.fields["target"].s
    ensures var a := Translate(command).value;
      var s := command.fields["target"].s;
      exists prefix: string, rest: string ::
        s == prefix + "=" + rest && '=' !in prefix &&
        "locator_type" in a && a["locator_type"] == VStr(Upper(prefix)) &&
        (a["action"] != VStr("runScript") ==> "locator_value" in a && a["locator_value"] == VStr(rest))
  {
    var c, a0, a1, a2 := Stages(command);
    var s := c["target"].s;
    var parts := SplitFirst(s, '=').value;
    assert a1["locator_type"] == VStr(Upper(parts.0)) && a1["locator_value"] == VStr(parts.1);
    SizeKeeps(c, a1);
    ValueKeeps(c, a2);
    ScriptKeeps(c, WithValue(c, a2));
    assert s == parts.0 + "=" + parts.1;
  }

  /** A target without "=" is the locator value as it is and gives no
      locator type; a command without a target gives neither key. */
  lemma TargetWithoutEquals(command: Value)
    requires Translate(command).Ok?
    ensures var a := Translate(command).value;
      var c := command.fields;
      ("target" in c && Contains(c["target"], '=') == Ok(false) ==>
         "locator_type" !in a &&
         (a["action"] != VStr("runScript") ==> "locator_value" in a && a["locator_value"] == c["target"])) &&
      ("target" !in c ==> "locator_type" !in a && "locator_value" !in a)
  {
    var c, a0, a1, a2 := Stages(command);
    SizeKeeps(c, a1);
    ValueKeeps(c, a2);
    ScriptKeeps(c, WithValue(c, a2));
  }

  /** The input value is set exactly when the command has a truthy value,
      and it is that value. */
  lemma InputValueWhenTruthy(command: Value)
    requires Translate(command).Ok?
    ensures var a := Translate(command).value;
      var c := command.fields;
      ("input_value" in a <==> "value" in c && Truthy(c["value"])) &&
      ("input_value" in a ==> a["input_value"] == c["value"])
  {
    var c, a0, a1, a2 := Stages(command);
    TargetKeeps(c, a0);
    SizeKeeps(c, a1);
    ValueKeeps(c, a2);
    ScriptKeeps(c, WithValue(c, a2));
  }

  /** The setWindowSize stage needs a string target with exactly one "x";
      the width and height are the texts around it. */
  lemma WithSizeSplit(c: Dict, a: Dict)
    requires "command" in c && c["command"] == VStr("setWindowSize")
    ensures WithSize(c, a).Ok? <==> "target" in c && c["target"].VStr? && Count(c["target"].s, 'x') == 1
    ensures WithSize(c, a).Ok? ==>
      var b := WithSize(c, a).value;
      var s := c["target"].s;
      "width" in b && "height" in b && b["width"].VStr? && b["height"].VStr? &&
      s == b["width"].s + "x" + b["height"].s && 'x' !in b["width"].s && 'x' !in b["height"].s
    ensures "target" in c && c["target"].VStr? && Count(c["target"].s, 'x') != 1 ==>
      WithSize(c, a) == Err(UnpackMismatch(Count(c["target"].s, 'x') + 1))
  {
    if "target" in c && c["target"].VStr? {
      SplitInTwo(c["target"].s, 'x');
    }
  }

  /** For a setWindowSize command: the import needs a string target with
      exactly one "x", whose two sides become the width and the height;
      any other string target raises the unpacking ValueError. */
  lemma WindowSizeSplit(command: Value)
    requires Index(command, "command") == Ok(VStr("setWindowSize"))
    requires WithTarget(command.fields, map["action" := VStr("setWindowSize")]).Ok?
    ensures var c := command.fields;
      Translate(command).Ok? <==> "target" in c && c["target"].VStr? && Count(c["target"].s, 'x') == 1
    ensures var c := command.fields;
      "target" in c && c["target"].VStr? && Count(c["target"].s, 'x') != 1 ==>
        Translate(command) == Err(UnpackMismatch(Count(c["target"].s, 'x') + 1))
    ensures Translate(command).Ok? ==>
      var a := Translate(command).value;
      var s := command.fields["target"].s;
      "width" in a && "height" in a && a["width"].VStr? && a["height"].VStr? &&
      s == a["width"].s + "x" + a["height"].s && 'x' !in a["width"].s && 'x' !in a["height"].s
  {
    var c := command.fields;
    var a0 := map["action" := VStr("setWindowSize")];
    var a1 := WithTarget(c, a0).value;
    WithSizeSplit(c, a1);
    TargetKeeps(c, a0);
    assert Translate(command) == if WithSize(c, a1).Err? then Err(WithSize(c, a1).error)
                                 else WithScript(c, WithValue(c, WithSize(c, a1).value));
    if WithSize(c, a1).Ok? {
      var a2 := WithSize(c, a1).value;
      SizeKeeps(c, a1);
      ValueKeeps(c, a2);
      assert WithScript(c, WithValue(c, a2)) == Ok(WithValue(c, a2));
    }
  }

  /** runScript: the script is the target, the locator value is gone, and a
      locator type from an "=" in the target stays. */
  lemma RunScriptRenamesTarget(command: Value)
    requires Translate(command).Ok?
    requires Translate(command).value["action"] == VStr("runScript")
    ensures var a := Translate(command).value;
      var c := command.fields;
      "target" in c && "script" in a && a["script"] == c["target"] && "locator_value" !in a &&
      (c["target"].VStr? && '=' in c["target"].s ==> "locator_type" in a)
  {
    var c, a0, a1, a2 := Stages(command);
    SizeKeeps(c, a1);
    ValueKeeps(c, a2);
  }

  /** A runScript command without a target raises KeyError. */
  lemma RunScriptNeedsTarget(command: Value)
    requires Index(command, "command") == Ok(VStr("runScript"))
    requires "target" !in command.fields
    ensures Translate(command) == Err(KeyError("target"))
  {
  }

  /** The keys an imported action can have. */
  lemma ActionKeys(command: Value)
    requires Translate(command).Ok?
    ensures Translate(command).value.Keys <=
      {"action", "locator_type", "locator_value", "width", "height", "input_value", "script"}
  {
    var c, a0, a1, a2 := Stages(command);
    TargetKeeps(c, a0);
    SizeKeeps(c, a1);
    ValueKeeps(c, a2);
    ScriptKeeps(c, WithValue(c, a2));
  }
}
