/** The two `snapup` entry points: main2.py:244-272, which runs the actions
    with the strict class and stops at the first exception, and
    main.py:11-40, which runs them with the lenient class and reports each
    failing action before going on. Both open the browser in a `with`
    block, whose exit quits the browser, and report an exception that
    reaches the outer `try` by one notification. */
module Runners {
  import opened Py
  import opened Browser
  import opened Batches
  import Engine
  import Strict
  import Driver
  import StrictDriver
  import SideImport

  /** One error notification sent by `send_error_notify`. */
  datatype Note =
    | ActionFailed(action: Value, error: Error)   // main.py:30, for one action
    | Failed(error: Error)                        // the outer `except`

  /** What the action loop did: how it ended, the notifications it sent and
      the calls it issued. */
  datatype Tally = Tally(out: Outcome, notes: seq<Note>, calls: seq<Call>)

  /** What a whole run did: the notifications in the order they were sent,
      every call issued, and the exit status if the process ended. */
  datatype Report = Report(notes: seq<Note>, calls: seq<Call>, exit: Option<int>)

  /** `driver.set_window_size(1024, 768); driver.get(URL)`. */
  function Setup(url: Value): seq<Call> {
    [SetWindowSize(1024, 768), Navigate(url)]
  }

  /** The body of the `with` block: the set-up calls, then the action loop
      run from the position after them. */
  function Body(o: Oracle, n: nat, url: Value, loop: nat -> Tally): (t: Tally)
    ensures |t.calls| >= 1 && t.calls[0] == SetWindowSize(1024, 768)
  {
    if o(n).Throws? then Tally(Raised(o(n).e), [], [SetWindowSize(1024, 768)])
    else if o(n + 1).Throws? then Tally(Raised(o(n + 1).e), [], Setup(url))
    else
      var l := loop(n + 2);
      Tally(l.out, l.notes, Setup(url) + l.calls)
  }

  /** Leaving the `with` block quits the browser, whatever the body did; an
      exception of `quit` replaces the body's. An exception that reaches the
      outer `try` is notified; `exit(1)` passes through it and ends the
      process. */
  function Closed(body: Tally, quitReply: Reply): (r: Report)
    ensures r.calls == body.calls + [Quit]
    ensures quitReply.Throws? ==> r == Report(body.notes + [Failed(quitReply.e)], r.calls, None)
    ensures quitReply.Gives? && body.out.Raised? ==> r == Report(body.notes + [Failed(body.out.e)], r.calls, None)
    ensures quitReply.Gives? && body.out.Exited? ==> r == Report(body.notes, r.calls, Some(body.out.code))
    ensures quitReply.Gives? && body.out.Returned? ==> r == Report(body.notes, r.calls, None)
  {
    var calls := body.calls + [Quit];
    if quitReply.Throws? then Report(body.notes + [Failed(quitReply.e)], calls, None)
    else
      match body.out
      case Raised(e) => Report(body.notes + [Failed(e)], calls, None)
      case Exited(c) => Report(body.notes, calls, Some(c))
      case Returned(_) => Report(body.notes, calls, None)
  }

  /** A whole run whose action loop is `loop`. */
  function Snapup(o: Oracle, n: nat, url: Value, loop: nat -> Tally): Report {
    var body := Body(o, n, url, loop);
    Closed(body, o(n + |body.calls|))
  }

  /** What `driver_actions.execute(action)` does, from a given position of
      the session. */
  type Executor = (Oracle, nat, Dict) -> Run

  // ---------------------------------------------------------------------------
  // main2.py:261-262: `for action in ACTIONS: driver_actions.execute(action)`
  // ---------------------------------------------------------------------------

  /** One iteration of the loop, as a batch step appending nothing. */
  function Stepping(exec: Executor): Stepper {
    (o: Oracle, m: nat, a: Dict) => Plain(exec(o, m, a))
  }

  /** A loop without a `try`: it stops at the first exception and sends
      nothing itself. */
  function FailFast(exec: Executor, o: Oracle, m: nat, actions: seq<Dict>): (t: Tally)
    ensures t.notes == []
  {
    var b := Batch(Stepping(exec), o, m, actions, []);
    Tally(b.out, [], b.calls)
  }

  function FailFastSnapup(exec: Executor, o: Oracle, n: nat, url: Value, actions: seq<Dict>): Report {
    Snapup(o, n, url, (m: nat) => FailFast(exec, o, m, actions))
  }

  /** The `snapup` of main2.py on the decoded URL and actions. */
  function StrictSnapup(o: Oracle, n: nat, url: Value, actions: seq<Dict>): Report {
    FailFastSnapup(Strict.Execute, o, n, url, actions)
  }

  // ---------------------------------------------------------------------------
  // main.py:25-30: each action in its own `try`
  // ---------------------------------------------------------------------------

  /** The loop after its first action `a` ran as `r`, where `rest` is the
      loop over the remaining actions: a failing action is notified and the
      loop goes on; the notification formats `action['action']`, whose
      KeyError escapes the loop; `exit(1)` ends it. */
  function Then(a: Dict, r: Run, rest: Tally): Tally {
    match r.out
    case Exited(c) => Tally(Exited(c), [], r.calls)
    case Raised(e) =>
      if "action" in a then Tally(rest.out, [ActionFailed(a["action"], e)] + rest.notes, r.calls + rest.calls)
      else Tally(Raised(KeyError("action")), [], r.calls)
    case Returned(_) => Tally(rest.out, rest.notes, r.calls + rest.calls)
  }

  /** A loop with a `try` around each action. */
  function Forgive(exec: Executor, o: Oracle, m: nat, actions: seq<Dict>): Tally
    decreases |actions|
  {
    if actions == [] then Tally(Returned(VNull), [], [])
    else
      var r := exec(o, m, actions[0]);
      Then(actions[0], r, Forgive(exec, o, m + |r.calls|, actions[1..]))
  }

  /** `forgive(m, i)` is the loop over `actions[i..]` from position `m`; the
      trigger keeps the loop's definition out of proofs that only thread
      positions through it. */
  ghost predicate IsForgives(forgive: (nat, nat) -> Tally, exec: Executor, o: Oracle, actions: seq<Dict>) {
    forall m: nat, i: nat {:trigger Forgive(exec, o, m, actions[i..])} ::
      i <= |actions| ==> forgive(m, i) == Forgive(exec, o, m, actions[i..])
  }

  lemma ForgivesAre(exec: Executor, o: Oracle, actions: seq<Dict>)
    ensures IsForgives((m: nat, i: nat) =>
                         if i <= |actions| then Forgive(exec, o, m, actions[i..]) else Tally(Returned(VNull), [], []),
                       exec, o, actions)
  {
  }

  /** One iteration of the loop over `actions[i..]`, while `total` is the
      whole loop, `notes` the notifications sent and `done` the calls issued
      so far: an exit or a nameless failure ends the loop, anything else
      leaves the rest of it, after a notification if the action raised. */
  lemma ForgiveAdvance(forgive: (nat, nat) -> Tally, exec: Executor, o: Oracle, m: nat, actions: seq<Dict>,
                       i: nat, notes: seq<Note>, done: seq<Call>, total: Tally)
    requires IsForgives(forgive, exec, o, actions) && i < |actions|
    requires var t := forgive(m, i); total == Tally(t.out, notes + t.notes, done + t.calls)
    ensures var a := actions[i];
      var r := exec(o, m, a);
      var t := forgive(m + |r.calls|, i + 1);
      (r.out.Exited? ==> total == Tally(r.out, notes, done + r.calls)) &&
      (r.out.Raised? && "action" !in a ==> total == Tally(Raised(KeyError("action")), notes, done + r.calls)) &&
      (r.out.Raised? && "action" in a ==>
         total == Tally(t.out, (notes + [ActionFailed(a["action"], r.out.e)]) + t.notes, (done + r.calls) + t.calls)) &&
      (r.out.Returned? ==> total == Tally(t.out, notes + t.notes, (done + r.calls) + t.calls))
  {
    var a := actions[i];
    var r := exec(o, m, a);
    var t := forgive(m + |r.calls|, i + 1);
    assert actions[i..][0] == a && actions[i..][1..] == actions[i + 1..];
    assert forgive(m, i) == Forgive(exec, o, m, actions[i..]);
    assert t == Forgive(exec, o, m + |r.calls|, actions[i + 1..]);
    assert forgive(m, i) == Then(a, r, t);
    assert notes + [] == notes;
    AppendAssoc(done, r.calls, t.calls);
    if r.out.Raised? && "action" in a {
      var note := ActionFailed(a["action"], r.out.e);
      AppendAssoc(notes, [note], t.notes);
    }
  }

  /** The loop past the last action goes through without a note or a call. */
  lemma ForgiveEnd(forgive: (nat, nat) -> Tally, exec: Executor, o: Oracle, m: nat, actions: seq<Dict>)
    requires IsForgives(forgive, exec, o, actions)
    ensures forgive(m, |actions|) == Tally(Returned(VNull), [], [])
  {
    assert forgive(m, |actions|) == Forgive(exec, o, m, actions[|actions|..]);
    assert actions[|actions|..] == [];
  }

  /** The loop from the first action is the whole loop. */
  lemma ForgiveStart(forgive: (nat, nat) -> Tally, exec: Executor, o: Oracle, m: nat, actions: seq<Dict>)
    requires IsForgives(forgive, exec, o, actions)
    ensures forgive(m, 0) == Forgive(exec, o, m, actions)
  {
    assert forgive(m, 0) == Forgive(exec, o, m, actions[0..]);
    assert actions[0..] == actions;
  }

  /** `f` followed, if it went through, by `g`. */
  function Join(f: Tally, g: Tally): Tally {
    if f.out.Returned? then Tally(g.out, f.notes + g.notes, f.calls + g.calls) else f
  }

  function ForgivingSnapup(exec: Executor, o: Oracle, n: nat, url: Value, actions: seq<Dict>): Report {
    Snapup(o, n, url, (m: nat) => Forgive(exec, o, m, actions))
  }

  /** The `snapup` of main.py on the decoded URL and actions. */
  function LenientSnapup(o: Oracle, n: nat, url: Value, actions: seq<Dict>): Report {
    ForgivingSnapup(Engine.Execute, o, n, url, actions)
  }

  // ---------------------------------------------------------------------------
  // Properties of the runners
  // ---------------------------------------------------------------------------

  /** A loop without a `try` over an `execute` that never exits sends at
      most one notification, and the run never ends the process itself. */
  lemma FailFastNotifiesAtMostOnce(exec: Executor, o: Oracle, n: nat, url: Value, actions: seq<Dict>)
    requires forall o': Oracle, m: nat, a: Dict :: !exec(o', m, a).out.Exited?
    ensures |FailFastSnapup(exec, o, n, url, actions).notes| <= 1
    ensures FailFastSnapup(exec, o, n, url, actions).exit == None
  {
    assert forall o': Oracle, m: nat, a: Dict :: !Stepping(exec)(o', m, a).out.Exited?;
    NeverExits(Stepping(exec), o, n + 2, actions, []);
  }

  /** The strict run sends at most one notification and never ends the
      process itself, whatever the browser does. */
  lemma StrictNotifiesAtMostOnce(o: Oracle, n: nat, url: Value, actions: seq<Dict>)
    ensures |StrictSnapup(o, n, url, actions).notes| <= 1
    ensures StrictSnapup(o, n, url, actions).exit == None
  {
    FailFastNotifiesAtMostOnce(Strict.Execute, o, n, url, actions);
  }

  /** Without a `try` in the loop, the first action that raises stops it:
      that exception is notified once (or, if quitting the browser fails
      too, that failure instead), no later action is executed, and the
      browser is quit once. */
  lemma FirstFailureStops(exec: Executor, o: Oracle, n: nat, url: Value, xs: seq<Dict>, a: Dict, ys: seq<Dict>)
    requires o(n).Gives? && o(n + 1).Gives?
    requires Batch(Stepping(exec), o, n + 2, xs, []).out.Returned?
    requires exec(o, n + 2 + |Batch(Stepping(exec), o, n + 2, xs, []).calls|, a).out.Raised?
    ensures var b := Batch(Stepping(exec), o, n + 2, xs, []);
      var s := exec(o, n + 2 + |b.calls|, a);
      var calls := Setup(url) + b.calls + s.calls;
      var q := o(n + |calls|);
      FailFastSnapup(exec, o, n, url, xs + [a] + ys) ==
        Report([Failed(if q.Throws? then q.e else s.out.e)], calls + [Quit], None)
  {
    var b := Batch(Stepping(exec), o, n + 2, xs, []);
    var s := exec(o, n + 2 + |b.calls|, a);
    FirstFailureEnds(Stepping(exec), o, n + 2, xs, a, ys, []);
    AppendAssoc(Setup(url), b.calls, s.calls);
  }

  /** A run in which the browser never fails issues the set-up calls, the
      calls of the loop, then Quit, and sends nothing. */
  lemma FailFastCleanRun(exec: Executor, o: Oracle, n: nat, url: Value, actions: seq<Dict>)
    requires forall k: nat :: o(k).Gives?
    ensures var b := Batch(Stepping(exec), o, n + 2, actions, []);
      b.out.Returned? ==> FailFastSnapup(exec, o, n, url, actions) == Report([], Setup(url) + b.calls + [Quit], None)
  {
  }

  /** The loop either goes through, or ends the process, or lets the
      KeyError of a nameless action escape: no other exception leaves it. */
  lemma {:induction false} ForgiveOutcomes(exec: Executor, o: Oracle, m: nat, actions: seq<Dict>)
    ensures var t := Forgive(exec, o, m, actions);
      t.out.Returned? || t.out.Exited? || t.out == Raised(KeyError("action"))
    decreases |actions|
  {
    if actions != [] {
      ForgiveOutcomes(exec, o, m + |exec(o, m, actions[0]).calls|, actions[1..]);
    }
  }

  /** Running one action before a joined loop is running it before the
      first part. */
  lemma ThenJoin(a: Dict, r: Run, f: Tally, g: Tally)
    ensures Then(a, r, Join(f, g)) == Join(Then(a, r, f), g)
  {
    if r.out.Raised? && "action" in a && f.out.Returned? {
      var note := ActionFailed(a["action"], r.out.e);
      AppendAssoc([note], f.notes, g.notes);
      AppendAssoc(r.calls, f.calls, g.calls);
    } else if r.out.Returned? && f.out.Returned? {
      AppendAssoc(r.calls, f.calls, g.calls);
    }
  }

  /** The loop over `xs + ys` is the loop over `xs` followed, if it went
      through, by the loop over `ys`. */
  lemma {:induction false} ForgiveAppend(exec: Executor, o: Oracle, m: nat, xs: seq<Dict>, ys: seq<Dict>)
    ensures var f := Forgive(exec, o, m, xs);
      Forgive(exec, o, m, xs + ys) == Join(f, Forgive(exec, o, m + |f.calls|, ys))
    decreases |xs|
  {
    if xs == [] {
      assert xs + ys == ys;
      var g := Forgive(exec, o, m, ys);
      assert [] + g.notes == g.notes && [] + g.calls == g.calls;
      assert Join(Forgive(exec, o, m, xs), g) == g;
    } else {
      assert (xs + ys)[0] == xs[0];
      assert (xs + ys)[1..] == xs[1..] + ys;
      var r := exec(o, m, xs[0]);
      var k := m + |r.calls|;
      ForgiveAppend(exec, o, k, xs[1..], ys);
      var f := Forgive(exec, o, k, xs[1..]);
      var g := Forgive(exec, o, k + |f.calls|, ys);
      ThenJoin(xs[0], r, f, g);
      var t := Then(xs[0], r, f);
      assert Forgive(exec, o, m, xs) == t;
      assert Forgive(exec, o, m, xs + ys) == Then(xs[0], r, Forgive(exec, o, k, xs[1..] + ys));
      if t.out.Returned? {
        assert t.calls == r.calls + f.calls;
        assert m + |t.calls| == k + |f.calls|;
      } else {
        assert Join(t, Forgive(exec, o, m + |t.calls|, ys)) == t == Join(t, g);
      }
    }
  }

  /** With a `try` around each action, an action that raises is notified
      with its name and the loop goes on with the next action. */
  lemma FailureContinues(exec: Executor, o: Oracle, m: nat, xs: seq<Dict>, a: Dict, ys: seq<Dict>)
    requires Forgive(exec, o, m, xs).out.Returned?
    requires "action" in a && exec(o, m + |Forgive(exec, o, m, xs).calls|, a).out.Raised?
    ensures var f := Forgive(exec, o, m, xs);
      var r := exec(o, m + |f.calls|, a);
      var g := Forgive(exec, o, m + |f.calls| + |r.calls|, ys);
      Forgive(exec, o, m, xs + [a] + ys) ==
        Tally(g.out, f.notes + [ActionFailed(a["action"], r.out.e)] + g.notes, f.calls + r.calls + g.calls)
  {
    var f := Forgive(exec, o, m, xs);
    var r := exec(o, m + |f.calls|, a);
    ForgiveAppend(exec, o, m, xs, [a] + ys);
    AppendAssoc(xs, [a], ys);
    assert ([a] + ys)[0] == a && ([a] + ys)[1..] == ys;
    var g := Forgive(exec, o, m + |f.calls| + |r.calls|, ys);
    assert Forgive(exec, o, m + |f.calls|, [a] + ys) ==
      Tally(g.out, [ActionFailed(a["action"], r.out.e)] + g.notes, r.calls + g.calls);
    AppendAssoc(f.notes, [ActionFailed(a["action"], r.out.e)], g.notes);
    AppendAssoc(f.calls, r.calls, g.calls);
  }

  /** An action without a name escapes the handler, whose message needs the
      name: the loop ends there, and the outer `try` notifies the KeyError
      once the browser is quit. */
  lemma NamelessEscapes(exec: Executor, o: Oracle, m: nat, a: Dict, ys: seq<Dict>)
    requires "action" !in a && exec(o, m, a).out.Raised?
    ensures Forgive(exec, o, m, [a] + ys) == Tally(Raised(KeyError("action")), [], exec(o, m, a).calls)
  {
    assert ([a] + ys)[0] == a;
  }

  /** `exit(1)` inside an action ends the loop without a notification for
      it; the run then ends with that status unless the final `quit` fails. */
  lemma ExitNotNotified(exec: Executor, o: Oracle, m: nat, a: Dict, ys: seq<Dict>, q: Reply)
    requires exec(o, m, a).out.Exited?
    ensures var t := Forgive(exec, o, m, [a] + ys);
      t == Tally(exec(o, m, a).out, [], exec(o, m, a).calls) &&
      (q.Gives? ==> Closed(t, q).exit == Some(exec(o, m, a).out.code) && Closed(t, q).notes == [])
  {
    assert ([a] + ys)[0] == a;
  }

  /** In main.py a missing action name is the lenient `execute`'s KeyError,
      which then escapes its handler. */
  lemma LenientNamelessEscapes(o: Oracle, m: nat, a: Dict, ys: seq<Dict>)
    requires "action" !in a
    ensures Forgive(Engine.Execute, o, m, [a] + ys) == Tally(Raised(KeyError("action")), [], [])
  {
    NamelessEscapes(Engine.Execute, o, m, a, ys);
  }

  // ---------------------------------------------------------------------------
  // Imported actions as `execute` sees them
  // ---------------------------------------------------------------------------

  /** The recorded commands "open", "setWindowSize" and "runScript" become
      actions that neither class has a method for: both `execute`s skip
      them without a call. */
  lemma ImportedCommandsSkipped(o: Oracle, n: nat, command: Value)
    requires SideImport.Translate(command).Ok?
    requires command.fields["command"] in {VStr("open"), VStr("setWindowSize"), VStr("runScript")}
    ensures Strict.Execute(o, n, SideImport.Translate(command).value) == Run(Returned(VNull), [])
    ensures Engine.Execute(o, n, SideImport.Translate(command).value) == Run(Returned(VNull), [])
  {
    var a := SideImport.Translate(command).value;
    assert "action" in a && a["action"] == command.fields["command"] by {
      SideImport.ActionName(command);
    }
    Strict.NoMethodSkipped(o, n, a);
    Engine.NoMethodSkipped(o, n, a);
  }

  /** A recorded "type" command without a truthy value becomes an "input"
      action without `input_value`: both `execute`s raise TypeError before
      any call. */
  lemma ImportedTypeNeedsValue(o: Oracle, n: nat, command: Value)
    requires SideImport.Translate(command).Ok?
    requires command.fields["command"] == VStr("type")
    requires !("value" in command.fields && Truthy(command.fields["value"]))
    ensures Strict.Execute(o, n, SideImport.Translate(command).value) == Run(Raised(TypeError), [])
    ensures Engine.Execute(o, n, SideImport.Translate(command).value) == Run(Raised(TypeError), [])
  {
    var a := SideImport.Translate(command).value;
    assert "action" in a && a["action"] == VStr("input") && "input_value" !in a by {
      SideImport.ActionName(command);
      SideImport.InputValueWhenTruthy(command);
    }
    Strict.MisfitArgumentsRaise(o, n, a);
    Engine.MisfitArgumentsRaise(o, n, a);
  }

  /** A recorded "click" command with a truthy value becomes a "click" action
      with an `input_value`, which `click` does not take: TypeError. */
  lemma ImportedClickWithValue(o: Oracle, n: nat, command: Value)
    requires SideImport.Translate(command).Ok?
    requires command.fields["command"] == VStr("click")
    requires "value" in command.fields && Truthy(command.fields["value"])
    ensures Strict.Execute(o, n, SideImport.Translate(command).value) == Run(Raised(TypeError), [])
    ensures Engine.Execute(o, n, SideImport.Translate(command).value) == Run(Raised(TypeError), [])
  {
    var a := SideImport.Translate(command).value;
    assert "action" in a && a["action"] == VStr("click") && "input_value" in a by {
      SideImport.ActionName(command);
      SideImport.InputValueWhenTruthy(command);
    }
    Strict.MisfitArgumentsRaise(o, n, a);
    Engine.MisfitArgumentsRaise(o, n, a);
  }
}
