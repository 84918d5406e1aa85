/** The two `snapup` functions as code that drives a browser session:
    main2.py:244-272 with the strict class and main.py:11-40 with the
    lenient one. Each is proved to issue exactly the calls, and send exactly
    the notifications, that the runner functions of module Runners describe. */
module Snapups {
  import opened Py
  import opened Browser
  import opened Batches
  import opened Runners
  import Engine
  import Strict
  import Driver
  import StrictDriver

  /** `exec` is the strict `execute` as seen from session `o`; the trigger
      keeps that function's definition out of the loops, which only thread
      positions through it. */
  ghost predicate RunsStrict(exec: Executor, o: Oracle) {
    forall m: nat, a: Dict {:trigger Strict.Execute(o, m, a)} :: exec(o, m, a) == Strict.Execute(o, m, a)
  }

  /** `exec` is the lenient `execute` as seen from session `o`. */
  ghost predicate RunsLenient(exec: Executor, o: Oracle) {
    forall m: nat, a: Dict {:trigger Engine.Execute(o, m, a)} :: exec(o, m, a) == Engine.Execute(o, m, a)
  }

  /** `driver_actions.execute(action)` of the strict class, seen through `exec`. */
  method StrictStep(d: StrictDriver.DriverActions, action: Dict, ghost exec: Executor) returns (r: Outcome)
    requires RunsStrict(exec, d.driver.respond)
    modifies d.driver
    ensures Performed(exec(d.driver.respond, |old(d.driver.log)|, action), r, old(d.driver.log), d.driver.log)
  {
    r := d.Execute(action);
  }

  /** `driver_actions.execute(action)` of the lenient class, seen through `exec`. */
  method LenientStep(d: Driver.DriverActions, action: Dict, ghost exec: Executor) returns (r: Outcome)
    requires RunsLenient(exec, d.driver.respond)
    modifies d.driver
    ensures Performed(exec(d.driver.respond, |old(d.driver.log)|, action), r, old(d.driver.log), d.driver.log)
  {
    r := d.Execute(action);
  }

  /** `for action in ACTIONS: driver_actions.execute(action)` (main2.py:261-262):
      the first exception leaves the loop. `batch` stands for the loop
      over the remaining actions. */
  method FailFastLoop(d: StrictDriver.DriverActions, actions: seq<Dict>, ghost exec: Executor,
                      ghost batch: (nat, nat, seq<Value>) -> Run) returns (out: Outcome)
    requires RunsStrict(exec, d.driver.respond)
    requires IsBatches(batch, Stepping(exec), d.driver.respond, actions)
    modifies d.driver
    ensures Performed(batch(|old(d.driver.log)|, 0, []), out, old(d.driver.log), d.driver.log)
  {
    ghost var step := Stepping(exec);
    ghost var total := batch(|d.driver.log|, 0, []);
    ghost var log0 := d.driver.log;
    ghost var done: seq<Call> := [];
    for i := 0 to |actions|
      invariant d.driver.log == log0 + done
      invariant var t := batch(|d.driver.log|, i, []); total == Run(t.out, done + t.calls)
    {
      ghost var m := |d.driver.log|;
      BatchAdvance(batch, step, d.driver.respond, m, actions, i, [], done, total);
      var r := StrictStep(d, actions[i], exec);
      AppendAssoc(log0, done, exec(d.driver.respond, m, actions[i]).calls);
      assert step(d.driver.respond, m, actions[i]) == Plain(exec(d.driver.respond, m, actions[i]));
      if !r.Returned? {
        return r;
      }
      done := done + exec(d.driver.respond, m, actions[i]).calls;
      assert Plain(exec(d.driver.respond, m, actions[i])).appended == [];
    }
    BatchEnd(batch, step, d.driver.respond, |d.driver.log|, actions, []);
    out := Returned(VList([]));
  }

  /** The loop of main.py:25-30: each action in its own `try`, whose handler
      notifies the action's name and the exception and goes on. `forgive`
      stands for the loop over the remaining actions. */
  method ForgivingLoop(d: Driver.DriverActions, actions: seq<Dict>, ghost exec: Executor,
                       ghost forgive: (nat, nat) -> Tally) returns (out: Outcome, notes: seq<Note>)
    requires RunsLenient(exec, d.driver.respond)
    requires IsForgives(forgive, exec, d.driver.respond, actions)
    modifies d.driver
    ensures var t := forgive(|old(d.driver.log)|, 0);
      out == t.out && notes == t.notes && d.driver.log == old(d.driver.log) + t.calls
  {
    ghost var total := forgive(|d.driver.log|, 0);
    ghost var log0 := d.driver.log;
    ghost var done: seq<Call> := [];
    notes := [];
    for i := 0 to |actions|
      invariant d.driver.log == log0 + done
      invariant var t := forgive(|d.driver.log|, i); total == Tally(t.out, notes + t.notes, done + t.calls)
    {
      ghost var o, m := d.driver.respond, |d.driver.log|;
      ghost var s := exec(o, m, actions[i]);
      ghost var t := forgive(m + |s.calls|, i + 1);
      var r := LenientStep(d, actions[i], exec);
      AppendAssoc(log0, done, s.calls);
      if r.Exited? {
        assert total == Tally(s.out, notes, done + s.calls) by {
          ForgiveAdvance(forgive, exec, o, m, actions, i, notes, done, total);
        }
        return r, notes;
      } else if r.Raised? {
        if "action" !in actions[i] {
          assert total == Tally(Raised(KeyError("action")), notes, done + s.calls) by {
            ForgiveAdvance(forgive, exec, o, m, actions, i, notes, done, total);
          }
          return Raised(KeyError("action")), notes;
        }
        assert total == Tally(t.out, (notes + [ActionFailed(actions[i]["action"], r.e)]) + t.notes, (done + s.calls) + t.calls) by {
          ForgiveAdvance(forgive, exec, o, m, actions, i, notes, done, total);
        }
        notes := notes + [ActionFailed(actions[i]["action"], r.e)];
      } else {
        assert total == Tally(t.out, notes + t.notes, (done + s.calls) + t.calls) by {
          ForgiveAdvance(forgive, exec, o, m, actions, i, notes, done, total);
        }
      }
      done := done + s.calls;
    }
    ForgiveEnd(forgive, exec, d.driver.respond, |d.driver.log|, actions);
    assert notes + [] == notes && done + [] == done;
    out := Returned(VNull);
  }

  /** The body of the `with` block of the strict `snapup`: the set-up
      calls, then the action loop, as `Body` describes them. */
  method FailFastBody(session: Session, url: Value, actions: seq<Dict>, ghost exec: Executor)
    returns (body: Outcome, ghost calls: seq<Call>)
    requires RunsStrict(exec, session.respond)
    modifies session
    ensures Body(session.respond, |old(session.log)|, url, (m: nat) => FailFast(exec, session.respond, m, actions)) ==
      Tally(body, [], calls)
    ensures session.log == old(session.log) + calls
  {
    ghost var n := |session.log|;
    ghost var o := session.respond;
    ghost var log0 := session.log;
    var reply := session.Issue(SetWindowSize(1024, 768));
    if reply.Throws? {
      body := Raised(reply.e);
      calls := [SetWindowSize(1024, 768)];
    } else {
      reply := session.Issue(Navigate(url));
      AppendAssoc(log0, [SetWindowSize(1024, 768)], [Navigate(url)]);
      assert [SetWindowSize(1024, 768)] + [Navigate(url)] == Setup(url);
      if reply.Throws? {
        body := Raised(reply.e);
        calls := Setup(url);
      } else {
        var d := new StrictDriver.DriverActions(session);
        ghost var step := Stepping(exec);
        ghost var batch := (m: nat, i: nat, acc: seq<Value>) =>
          if i <= |actions| then Batch(step, o, m, actions[i..], acc) else Run(Returned(VNull), []);
        BatchesAre(step, o, actions);
        BatchStart(batch, step, o, n + 2, actions);
        body := FailFastLoop(d, actions, exec, batch);
        calls := Setup(url) + Batch(step, o, n + 2, actions, []).calls;
        AppendAssoc(log0, Setup(url), Batch(step, o, n + 2, actions, []).calls);
      }
    }
    ghost var loop := (m: nat) => FailFast(exec, o, m, actions);
    assert Body(o, n, url, loop) == Tally(body, [], calls);
  }

  /** The `snapup` of main2.py, with `execute` seen through `exec`: set the
      window size and open the URL, run the actions with the strict class
      until one raises, quit the browser on leaving the `with` block, and
      notify what reached the outer `except`. */
  method FailFastRun(session: Session, url: Value, actions: seq<Dict>, ghost exec: Executor)
    returns (notes: seq<Note>, exit: Option<int>)
    requires RunsStrict(exec, session.respond)
    modifies session
    ensures var r := FailFastSnapup(exec, session.respond, |old(session.log)|, url, actions);
      notes == r.notes && exit == r.exit && session.log == old(session.log) + r.calls
  {
    ghost var n, o, log0 := |session.log|, session.respond, session.log;
    var body, calls := FailFastBody(session, url, actions, exec);
    var reply := session.Issue(Quit);
    AppendAssoc(log0, calls, [Quit]);
    assert reply == o(n + |calls|);
    assert FailFastSnapup(exec, o, n, url, actions) == Closed(Tally(body, [], calls), reply);
    notes, exit := [], None;
    if reply.Throws? {
      notes := notes + [Failed(reply.e)];
    } else if body.Raised? {
      notes := notes + [Failed(body.e)];
    } else if body.Exited? {
      exit := Some(body.code);
    }
  }

  /** The `snapup` of main2.py on a session that starts at a fresh browser. */
  method StrictRun(session: Session, url: Value, actions: seq<Dict>) returns (notes: seq<Note>, exit: Option<int>)
    modifies session
    ensures var r := StrictSnapup(session.respond, |old(session.log)|, url, actions);
      notes == r.notes && exit == r.exit && session.log == old(session.log) + r.calls
  {
    notes, exit := FailFastRun(session, url, actions, Strict.Execute);
  }

  /** The body of the `with` block of the lenient `snapup`: the set-up
      calls, then the action loop, as `Body` describes them. */
  method ForgivingBody(session: Session, url: Value, actions: seq<Dict>, ghost exec: Executor)
    returns (body: Outcome, sent: seq<Note>, ghost calls: seq<Call>)
    requires RunsLenient(exec, session.respond)
    modifies session
    ensures Body(session.respond, |old(session.log)|, url, (m: nat) => Forgive(exec, session.respond, m, actions)) ==
      Tally(body, sent, calls)
    ensures session.log == old(session.log) + calls
  {
    ghost var n := |session.log|;
    ghost var o := session.respond;
    ghost var log0 := session.log;
    sent := [];
    var reply := session.Issue(SetWindowSize(1024, 768));
    if reply.Throws? {
      body := Raised(reply.e);
      calls := [SetWindowSize(1024, 768)];
    } else {
      reply := session.Issue(Navigate(url));
      AppendAssoc(log0, [SetWindowSize(1024, 768)], [Navigate(url)]);
      assert [SetWindowSize(1024, 768)] + [Navigate(url)] == Setup(url);
      if reply.Throws? {
        body := Raised(reply.e);
        calls := Setup(url);
      } else {
        var d := new Driver.DriverActions(session);
        ghost var forgive := (m: nat, i: nat) =>
          if i <= |actions| then Forgive(exec, o, m, actions[i..]) else Tally(Returned(VNull), [], []);
        ForgivesAre(exec, o, actions);
        ForgiveStart(forgive, exec, o, n + 2, actions);
        body, sent := ForgivingLoop(d, actions, exec, forgive);
        calls := Setup(url) + Forgive(exec, o, n + 2, actions).calls;
        AppendAssoc(log0, Setup(url), Forgive(exec, o, n + 2, actions).calls);
      }
    }
    ghost var loop := (m: nat) => Forgive(exec, o, m, actions);
    assert Body(o, n, url, loop) == Tally(body, sent, calls);
  }

  /** The `snapup` of main.py, with `execute` seen through `exec`: the same
      set-up and exit as the strict one, with the forgiving loop over the
      lenient class in between. */
  method ForgivingRun(session: Session, url: Value, actions: seq<Dict>, ghost exec: Executor)
    returns (notes: seq<Note>, exit: Option<int>)
    requires RunsLenient(exec, session.respond)
    modifies session
    ensures var r := ForgivingSnapup(exec, session.respond, |old(session.log)|, url, actions);
      notes == r.notes && exit == r.exit && session.log == old(session.log) + r.calls
  {
    ghost var n, o, log0 := |session.log|, session.respond, session.log;
    var body, sent, calls := ForgivingBody(session, url, actions, exec);
    var reply := session.Issue(Quit);
    AppendAssoc(log0, calls, [Quit]);
    assert reply == o(n + |calls|);
    assert ForgivingSnapup(exec, o, n, url, actions) == Closed(Tally(body, sent, calls), reply);
    notes, exit := sent, None;
    if reply.Throws? {
      notes := notes + [Failed(reply.e)];
    } else if body.Raised? {
      notes := notes + [Failed(body.e)];
    } else if body.Exited? {
      exit := Some(body.code);
    }
  }

  /** The `snapup` of main.py on a session that starts at a fresh browser. */
  method LenientRun(session: Session, url: Value, actions: seq<Dict>) returns (notes: seq<Note>, exit: Option<int>)
    modifies session
    ensures var r := LenientSnapup(session.respond, |old(session.log)|, url, actions);
      notes == r.notes && exit == r.exit && session.log == old(session.log) + r.calls
  {
    notes, exit := ForgivingRun(session, url, actions, Engine.Execute);
  }
}
