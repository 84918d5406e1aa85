/** The loop shared by the batch runners of both drivers
    (driver_actions.py:186-272, main2.py:146-226): each action is one step
    that ends, appends some entries to the result list and issues some calls;
    the loop goes on while steps return and stops at the first one that does
    not, whose outcome becomes the batch's. */
module Batches {
  import opened Py
  import opened Browser

  /** One action of the batch: how it ends, the result entries it appends and
      the calls it issues. */
  datatype Step = Step(out: Outcome, appended: seq<Value>, calls: seq<Call>)

  /** What one iteration of a runner does with an action, starting at a given
      position of the oracle. */
  type Stepper = (Oracle, nat, Dict) -> Step

  /** Drop the value of a primitive that returns nothing to the batch. */
  function Plain(r: Run): (s: Step)
    ensures s.out == Discarded(r.out) && s.appended == [] && s.calls == r.calls
  {
    Step(Discarded(r.out), [], r.calls)
  }

  /** Append the value of a value-producing primitive. */
  function Appending(r: Run): (s: Step)
    ensures s.out == r.out && s.calls == r.calls
    ensures s.appended == if r.out.Returned? then [r.out.v] else []
  {
    Step(r.out, if r.out.Returned? then [r.out.v] else [], r.calls)
  }

  /** `out` and `appended` and the log after the call are what `s` says,
      starting from the log `before`. */
  ghost predicate Stepped(s: Step, out: Outcome, appended: seq<Value>, before: seq<Call>, after: seq<Call>) {
    out == s.out && appended == s.appended && after == before + s.calls
  }

  /** The loop from `actions` onward, with the result list holding `acc`; it
      returns the list when every step returned. */
  function Batch(step: Stepper, o: Oracle, n: nat, actions: seq<Dict>, acc: seq<Value>): Run
    decreases |actions|
  {
    if actions == [] then Run(Returned(VList(acc)), [])
    else
      var s := step(o, n, actions[0]);
      if s.out.Returned? then
        var rest := Batch(step, o, n + |s.calls|, actions[1..], acc + s.appended);
        Run(rest.out, s.calls + rest.calls)
      else Run(s.out, s.calls)
  }

  /** One iteration of a runner over `actions[i..]`, while `total` is the
      whole batch and `done` the calls already issued: a step that does not
      return ends the batch, one that returns leaves the rest of it. */
  lemma BatchStep(step: Stepper, o: Oracle, m: nat, actions: seq<Dict>, i: nat, acc: seq<Value>,
                  done: seq<Call>, total: Run)
    requires i < |actions|
    requires var t := Batch(step, o, m, actions[i..], acc); total == Run(t.out, done + t.calls)
    ensures var s := step(o, m, actions[i]);
      (!s.out.Returned? ==> total == Run(s.out, done + s.calls)) &&
      (s.out.Returned? ==>
         var t := Batch(step, o, m + |s.calls|, actions[i + 1..], acc + s.appended);
         total == Run(t.out, (done + s.calls) + t.calls))
  {
    assert actions[i..][0] == actions[i] && actions[i..][1..] == actions[i + 1..];
  }

  /** `batch(m, i, acc)` is the loop over `actions[i..]` from position `m`
      with the list holding `acc`; the trigger keeps the loop's definition
      out of proofs that only thread positions through it. */
  ghost predicate IsBatches(batch: (nat, nat, seq<Value>) -> Run, step: Stepper, o: Oracle, actions: seq<Dict>) {
    forall m: nat, i: nat, acc: seq<Value> {:trigger Batch(step, o, m, actions[i..], acc)} ::
      i <= |actions| ==> batch(m, i, acc) == Batch(step, o, m, actions[i..], acc)
  }

  lemma BatchesAre(step: Stepper, o: Oracle, actions: seq<Dict>)
    ensures IsBatches((m: nat, i: nat, acc: seq<Value>) =>
                        if i <= |actions| then Batch(step, o, m, actions[i..], acc) else Run(Returned(VNull), []),
                      step, o, actions)
  {
  }

  /** BatchStep, seen through `batch`. */
  lemma BatchAdvance(batch: (nat, nat, seq<Value>) -> Run, step: Stepper, o: Oracle, m: nat, actions: seq<Dict>,
                     i: nat, acc: seq<Value>, done: seq<Call>, total: Run)
    requires IsBatches(batch, step, o, actions) && i < |actions|
    requires var t := batch(m, i, acc); total == Run(t.out, done + t.calls)
    ensures var s := step(o, m, actions[i]);
      (!s.out.Returned? ==> total == Run(s.out, done + s.calls)) &&
      (s.out.Returned? ==>
         var t := batch(m + |s.calls|, i + 1, acc + s.appended);
         total == Run(t.out, (done + s.calls) + t.calls))
  {
    var s := step(o, m, actions[i]);
    assert batch(m, i, acc) == Batch(step, o, m, actions[i..], acc);
    assert batch(m + |s.calls|, i + 1, acc + s.appended) == Batch(step, o, m + |s.calls|, actions[i + 1..], acc + s.appended);
    BatchStep(step, o, m, actions, i, acc, done, total);
  }

  /** The loop past the last action returns the list. */
  lemma BatchEnd(batch: (nat, nat, seq<Value>) -> Run, step: Stepper, o: Oracle, m: nat, actions: seq<Dict>,
                 acc: seq<Value>)
    requires IsBatches(batch, step, o, actions)
    ensures batch(m, |actions|, acc) == Run(Returned(VList(acc)), [])
  {
    assert batch(m, |actions|, acc) == Batch(step, o, m, actions[|actions|..], acc);
    assert actions[|actions|..] == [];
  }

  /** The loop from the first action is the whole batch. */
  lemma BatchStart(batch: (nat, nat, seq<Value>) -> Run, step: Stepper, o: Oracle, m: nat, actions: seq<Dict>)
    requires IsBatches(batch, step, o, actions)
    ensures batch(m, 0, []) == Batch(step, o, m, actions, [])
  {
    assert batch(m, 0, []) == Batch(step, o, m, actions[0..], []);
    assert actions[0..] == actions;
  }

  /** The sum of `count` over the actions. */
  function Total(count: Dict -> nat, actions: seq<Dict>): nat {
    if actions == [] then 0 else count(actions[0]) + Total(count, actions[1..])
  }

  /** When every step that returns appends `count` entries, a batch that
      returns holds its initial entries followed by `Total(count)` more. */
  lemma {:induction false} ResultCount(step: Stepper, count: Dict -> nat, o: Oracle, n: nat,
                                       actions: seq<Dict>, acc: seq<Value>)
    requires forall o': Oracle, m: nat, a: Dict :: step(o', m, a).out.Returned? ==>
      |step(o', m, a).appended| == count(a)
    ensures Batch(step, o, n, actions, acc).out.Returned? ==>
      var v := Batch(step, o, n, actions, acc).out.v;
      v.VList? && |v.items| == |acc| + Total(count, actions) && v.items[..|acc|] == acc
    decreases |actions|
  {
    if actions != [] {
      var s := step(o, n, actions[0]);
      if s.out.Returned? {
        ResultCount(step, count, o, n + |s.calls|, actions[1..], acc + s.appended);
        var r := Batch(step, o, n + |s.calls|, actions[1..], acc + s.appended);
        if r.out.Returned? && r.out.v.VList? {
          assert r.out.v.items[..|acc|] == (r.out.v.items[..|acc + s.appended|])[..|acc|];
        }
      }
    }
  }

  /** The entries the steps of a batch append, in the order of the actions;
      no step runs after the first one that does not return. */
  function Appended(step: Stepper, o: Oracle, n: nat, actions: seq<Dict>): seq<Value>
    decreases |actions|
  {
    if actions == [] then []
    else
      var s := step(o, n, actions[0]);
      if s.out.Returned? then s.appended + Appended(step, o, n + |s.calls|, actions[1..])
      else s.appended
  }

  /** A batch that returns gives back its initial list followed by what its
      steps appended, action by action. */
  lemma {:induction false} BatchResults(step: Stepper, o: Oracle, n: nat, actions: seq<Dict>, acc: seq<Value>)
    ensures Batch(step, o, n, actions, acc).out.Returned? ==>
      Batch(step, o, n, actions, acc).out == Returned(VList(acc + Appended(step, o, n, actions)))
    decreases |actions|
  {
    if actions == [] {
      assert acc + [] == acc;
    } else {
      var s := step(o, n, actions[0]);
      if s.out.Returned? {
        BatchResults(step, o, n + |s.calls|, actions[1..], acc + s.appended);
        var rest := Appended(step, o, n + |s.calls|, actions[1..]);
        assert Appended(step, o, n, actions) == s.appended + rest;
        assert Batch(step, o, n, actions, acc).out == Batch(step, o, n + |s.calls|, actions[1..], acc + s.appended).out;
        AppendAssoc(acc, s.appended, rest);
      }
    }
  }

  /** The entries of a batch over `xs + ys`: those of the steps of `xs`,
      then, when all of those returned, those of the steps of `ys`. */
  lemma {:induction false} AppendedInOrder(step: Stepper, o: Oracle, n: nat, xs: seq<Dict>, ys: seq<Dict>,
                                           acc: seq<Value>)
    ensures var r := Batch(step, o, n, xs, acc);
      r.out.Returned? ==>
        Appended(step, o, n, xs + ys) == Appended(step, o, n, xs) + Appended(step, o, n + |r.calls|, ys)
    decreases |xs|
  {
    if xs == [] {
      assert xs + ys == ys;
    } else {
      assert (xs + ys)[0] == xs[0];
      assert (xs + ys)[1..] == xs[1..] + ys;
      var s := step(o, n, xs[0]);
      if s.out.Returned? {
        AppendedInOrder(step, o, n + |s.calls|, xs[1..], ys, acc + s.appended);
        var r := Batch(step, o, n + |s.calls|, xs[1..], acc + s.appended);
        assert n + |s.calls| + |r.calls| == n + |s.calls + r.calls|;
        AppendAssoc(s.appended, Appended(step, o, n + |s.calls|, xs[1..]),
                    Appended(step, o, n + |s.calls| + |r.calls|, ys));
      }
    }
  }

  /** The entries of one action in the middle of a batch: those of the
      actions before it, then its own, then those of the actions after it. */
  lemma AppendedAround(step: Stepper, o: Oracle, n: nat, xs: seq<Dict>, a: Dict, ys: seq<Dict>)
    requires Batch(step, o, n, xs, []).out.Returned?
    requires step(o, n + |Batch(step, o, n, xs, []).calls|, a).out.Returned?
    ensures var m := n + |Batch(step, o, n, xs, []).calls|;
      var s := step(o, m, a);
      Appended(step, o, n, xs + [a] + ys) ==
        Appended(step, o, n, xs) + s.appended + Appended(step, o, m + |s.calls|, ys)
  {
    var m := n + |Batch(step, o, n, xs, []).calls|;
    var s := step(o, m, a);
    AppendedInOrder(step, o, n, xs, [a] + ys, []);
    AppendAssoc(xs, [a], ys);
    assert ([a] + ys)[0] == a && ([a] + ys)[1..] == ys;
    assert Appended(step, o, m, [a] + ys) == s.appended + Appended(step, o, m + |s.calls|, ys);
    AppendAssoc(Appended(step, o, n, xs), s.appended, Appended(step, o, m + |s.calls|, ys));
  }

  /** When a step can only exit with status 1 right after quitting the
      browser, so can the batch. */
  lemma {:induction false} ExitQuits(step: Stepper, o: Oracle, n: nat, actions: seq<Dict>, acc: seq<Value>)
    requires forall o': Oracle, m: nat, a: Dict :: step(o', m, a).out.Exited? ==>
      var s := step(o', m, a);
      s.out.code == 1 && s.calls != [] && s.calls[|s.calls| - 1] == Quit
    ensures var r := Batch(step, o, n, actions, acc);
      r.out.Exited? ==> r.out.code == 1 && r.calls != [] && r.calls[|r.calls| - 1] == Quit
    decreases |actions|
  {
    if actions != [] {
      var s := step(o, n, actions[0]);
      if s.out.Returned? {
        ExitQuits(step, o, n + |s.calls|, actions[1..], acc + s.appended);
      }
    }
  }

  /** When no step exits, neither does the batch. */
  lemma {:induction false} NeverExits(step: Stepper, o: Oracle, n: nat, actions: seq<Dict>, acc: seq<Value>)
    requires forall o': Oracle, m: nat, a: Dict :: !step(o', m, a).out.Exited?
    ensures !Batch(step, o, n, actions, acc).out.Exited?
    decreases |actions|
  {
    if actions != [] {
      var s := step(o, n, actions[0]);
      if s.out.Returned? {
        NeverExits(step, o, n + |s.calls|, actions[1..], acc + s.appended);
      }
    }
  }

  /** A batch over `xs + ys` is the batch over `xs` followed, if that one
      returned its list, by the batch over `ys` continuing that list. */
  lemma {:induction false} Sequential(step: Stepper, o: Oracle, n: nat, xs: seq<Dict>, ys: seq<Dict>,
                                      acc: seq<Value>)
    ensures var r := Batch(step, o, n, xs, acc);
      (!r.out.Returned? ==> Batch(step, o, n, xs + ys, acc) == r) &&
      (r.out.Returned? ==>
         r.out.v.VList? &&
         var t := Batch(step, o, n + |r.calls|, ys, r.out.v.items);
         Batch(step, o, n, xs + ys, acc) == Run(t.out, r.calls + t.calls))
    decreases |xs|
  {
    if xs == [] {
      assert xs + ys == ys;
    } else {
      assert (xs + ys)[0] == xs[0];
      assert (xs + ys)[1..] == xs[1..] + ys;
      var s := step(o, n, xs[0]);
      if s.out.Returned? {
        Sequential(step, o, n + |s.calls|, xs[1..], ys, acc + s.appended);
        var r := Batch(step, o, n + |s.calls|, xs[1..], acc + s.appended);
        if r.out.Returned? {
          assert n + |s.calls| + |r.calls| == n + |s.calls + r.calls|;
          AppendAssoc(s.calls, r.calls, Batch(step, o, n + |s.calls| + |r.calls|, ys, r.out.v.items).calls);
        }
      }
    }
  }

  /** A step that does not return, after a prefix whose steps all returned,
      is where the batch ends: its outcome is the batch's and no later
      action is run. */
  lemma FirstFailureEnds(step: Stepper, o: Oracle, n: nat, xs: seq<Dict>, a: Dict, ys: seq<Dict>,
                         acc: seq<Value>)
    requires Batch(step, o, n, xs, acc).out.Returned?
    requires !step(o, n + |Batch(step, o, n, xs, acc).calls|, a).out.Returned?
    ensures var r := Batch(step, o, n, xs, acc);
      var s := step(o, n + |r.calls|, a);
      Batch(step, o, n, xs + [a] + ys, acc) == Run(s.out, r.calls + s.calls)
  {
    Sequential(step, o, n, xs, [a] + ys, acc);
    AppendAssoc(xs, [a], ys);
    assert ([a] + ys)[0] == a;
  }
}
