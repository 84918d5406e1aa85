/** The stale-element retry decorator (`retry_on_stale_element`,
    driver_actions.py:21-32). The wrapped function is seen through the session:
    `att(m)` is what one call of it does when the session is at position m.
    The wrapper makes up to `retries` guarded calls, swallowing only
    StaleElement, and then one unguarded call. */
module StaleRetry {
  import opened Py
  import opened Browser

  /** `@retry_on_stale_element()` uses the default of three guarded calls. */
  const DefaultRetries: nat := 3

  /** The wrapper with `left` guarded calls still to make, starting at `n`. */
  function Wrapped(att: nat -> Run, n: nat, left: nat): Run
    decreases left
  {
    var a := att(n);
    if left > 0 && a.out == Raised(StaleElement) then
      var rest := Wrapped(att, n + |a.calls|, left - 1);
      Run(rest.out, a.calls + rest.calls)
    else a
  }

  // ---------------------------------------------------------------------------
  // The calls of the wrapped function, numbered from 0
  // ---------------------------------------------------------------------------

  /** The session calls the first `j` calls of the wrapped function issue,
      each starting where the previous one stopped. */
  function CallsBefore(att: nat -> Run, n: nat, j: nat): seq<Call> {
    if j == 0 then []
    else
      var before := CallsBefore(att, n, j - 1);
      before + att(n + |before|).calls
  }

  /** How the j-th call of the wrapped function ends. */
  function OutcomeAt(att: nat -> Run, n: nat, j: nat): Outcome {
    att(n + |CallsBefore(att, n, j)|).out
  }

  predicate StaleAt(att: nat -> Run, n: nat, j: nat) {
    OutcomeAt(att, n, j) == Raised(StaleElement)
  }

  /** The number of the call whose outcome leaves the wrapper, counting from `j`. */
  function EscapingFrom(att: nat -> Run, n: nat, retries: nat, j: nat): (e: nat)
    requires j <= retries
    ensures j <= e <= retries
    decreases retries - j
  {
    if j < retries && StaleAt(att, n, j) then EscapingFrom(att, n, retries, j + 1) else j
  }

  /** The number of the call whose outcome leaves the wrapper. */
  function Escaping(att: nat -> Run, n: nat, retries: nat): nat {
    EscapingFrom(att, n, retries, 0)
  }

  lemma {:induction false} EscapingFromFacts(att: nat -> Run, n: nat, retries: nat, j: nat)
    requires j <= retries
    requires forall i :: 0 <= i < j ==> StaleAt(att, n, i)
    ensures var e := EscapingFrom(att, n, retries, j);
      (forall i :: 0 <= i < e ==> StaleAt(att, n, i)) &&
      (e < retries ==> !StaleAt(att, n, e))
    decreases retries - j
  {
    if j < retries && StaleAt(att, n, j) {
      EscapingFromFacts(att, n, retries, j + 1);
    }
  }

  /** The escaping call comes after only stale calls, and it is either the
      first non-stale one or the unguarded last call. */
  lemma EscapingCharacterised(att: nat -> Run, n: nat, retries: nat)
    ensures var e := Escaping(att, n, retries);
      e <= retries &&
      (forall i :: 0 <= i < e ==> StaleAt(att, n, i)) &&
      (e < retries ==> !StaleAt(att, n, e))
  {
    EscapingFromFacts(att, n, retries, 0);
  }

  lemma {:induction false} EscapingFromUnique(att: nat -> Run, n: nat, retries: nat, j: nat, e: nat)
    requires j <= e <= retries
    requires forall i :: j <= i < e ==> StaleAt(att, n, i)
    requires e < retries ==> !StaleAt(att, n, e)
    ensures EscapingFrom(att, n, retries, j) == e
    decreases e - j
  {
    if j < e {
      EscapingFromUnique(att, n, retries, j + 1, e);
    }
  }

  /** Those two facts determine the escaping call. */
  lemma EscapingUnique(att: nat -> Run, n: nat, retries: nat, e: nat)
    requires e <= retries
    requires forall i :: 0 <= i < e ==> StaleAt(att, n, i)
    requires e < retries ==> !StaleAt(att, n, e)
    ensures Escaping(att, n, retries) == e
  {
    EscapingFromUnique(att, n, retries, 0, e);
  }

  // ---------------------------------------------------------------------------
  // The wrapper is the calls up to the escaping one
  // ---------------------------------------------------------------------------

  lemma CallsBeforeNext(att: nat -> Run, n: nat, j: nat)
    ensures var before := CallsBefore(att, n, j);
      CallsBefore(att, n, j + 1) == before + att(n + |before|).calls &&
      OutcomeAt(att, n, j) == att(n + |before|).out
  {
  }

  lemma {:induction false} CallsBeforePrefix(att: nat -> Run, n: nat, i: nat, k: nat)
    requires i <= k
    ensures |CallsBefore(att, n, i)| <= |CallsBefore(att, n, k)|
    ensures CallsBefore(att, n, k)[..|CallsBefore(att, n, i)|] == CallsBefore(att, n, i)
    decreases k - i
  {
    if i < k {
      CallsBeforePrefix(att, n, i, k - 1);
      var p := CallsBefore(att, n, k - 1);
      assert CallsBefore(att, n, k) == p + att(n + |p|).calls;
      assert (p + att(n + |p|).calls)[..|CallsBefore(att, n, i)|] == p[..|CallsBefore(att, n, i)|];
    }
  }

  lemma WrappedStale(att: nat -> Run, n: nat, left: nat)
    requires left > 0 && att(n).out == Raised(StaleElement)
    ensures var rest := Wrapped(att, n + |att(n).calls|, left - 1);
      Wrapped(att, n, left) == Run(rest.out, att(n).calls + rest.calls)
  {
  }

  lemma WrappedStops(att: nat -> Run, n: nat, left: nat)
    requires !(left > 0 && att(n).out == Raised(StaleElement))
    ensures Wrapped(att, n, left) == att(n)
  {
  }

  /** A guarded call that raised StaleElement, as a step of a loop that has
      issued `done` so far towards the whole wrapper `total`. */
  lemma StaleStep(att: nat -> Run, m: nat, left: nat, done: seq<Call>, total: Run)
    requires left > 0 && att(m).out == Raised(StaleElement)
    requires var t := Wrapped(att, m, left); total == Run(t.out, done + t.calls)
    ensures var t := Wrapped(att, m + |att(m).calls|, left - 1);
      total == Run(t.out, (done + att(m).calls) + t.calls)
  {
    WrappedStale(att, m, left);
    var rest := Wrapped(att, m + |att(m).calls|, left - 1);
    AppendAssoc(done, att(m).calls, rest.calls);
  }

  /** A call that leaves the wrapper, as the last step of that loop. */
  lemma LastStep(att: nat -> Run, m: nat, left: nat, done: seq<Call>, total: Run)
    requires !(left > 0 && att(m).out == Raised(StaleElement))
    requires var t := Wrapped(att, m, left); total == Run(t.out, done + t.calls)
    ensures total == Run(att(m).out, done + att(m).calls)
  {
    WrappedStops(att, m, left);
  }

  lemma SuffixSplit(all: seq<Call>, before: seq<Call>, calls: seq<Call>)
    requires |before + calls| <= |all| && all[..|before + calls|] == before + calls
    ensures all[|before|..] == calls + all[|before + calls|..]
  {
    assert all == (before + calls) + all[|before + calls|..];
  }

  /** What `WrappedFrom` states about the calls from the j-th on. */
  ghost predicate WrappedFromHolds(att: nat -> Run, n: nat, retries: nat, j: nat)
    requires j <= retries
  {
    var e := EscapingFrom(att, n, retries, j);
    var before := CallsBefore(att, n, j);
    |before| <= |CallsBefore(att, n, e + 1)| &&
    Wrapped(att, n + |before|, retries - j) == Run(OutcomeAt(att, n, e), CallsBefore(att, n, e + 1)[|before|..])
  }

  lemma WrappedFromStops(att: nat -> Run, n: nat, retries: nat, j: nat)
    requires j <= retries
    requires !(j < retries && StaleAt(att, n, j))
    ensures WrappedFromHolds(att, n, retries, j)
  {
    var before := CallsBefore(att, n, j);
    var a := att(n + |before|);
    CallsBeforeNext(att, n, j);
    assert EscapingFrom(att, n, retries, j) == j;
    assert Wrapped(att, n + |before|, retries - j) == a;
    assert (before + a.calls)[|before|..] == a.calls;
  }

  lemma WrappedFromContinues(att: nat -> Run, n: nat, retries: nat, j: nat)
    requires j < retries && StaleAt(att, n, j)
    requires WrappedFromHolds(att, n, retries, j + 1)
    ensures WrappedFromHolds(att, n, retries, j)
  {
    var before := CallsBefore(att, n, j);
    var a := att(n + |before|);
    CallsBeforeNext(att, n, j);
    var mid := CallsBefore(att, n, j + 1);
    var e := EscapingFrom(att, n, retries, j + 1);
    assert EscapingFrom(att, n, retries, j) == e;
    var all := CallsBefore(att, n, e + 1);
    var rest := Wrapped(att, n + |mid|, retries - (j + 1));
    assert rest == Run(OutcomeAt(att, n, e), all[|mid|..]);
    CallsBeforePrefix(att, n, j + 1, e + 1);
    WrappedStale(att, n + |before|, retries - j);
    assert Wrapped(att, n + |before|, retries - j) == Run(rest.out, a.calls + rest.calls);
    SuffixSplit(all, before, a.calls);
  }

  lemma {:induction false} WrappedFrom(att: nat -> Run, n: nat, retries: nat, j: nat)
    requires j <= retries
    ensures WrappedFromHolds(att, n, retries, j)
    decreases retries - j
  {
    if j < retries && StaleAt(att, n, j) {
      WrappedFrom(att, n, retries, j + 1);
      WrappedFromContinues(att, n, retries, j);
    } else {
      WrappedFromStops(att, n, retries, j);
    }
  }

  /** The wrapper issues the calls of the wrapped function's calls up to and
      including the escaping one, and ends as that one did. */
  lemma WrappedEscapes(att: nat -> Run, n: nat, retries: nat)
    ensures var e := Escaping(att, n, retries);
      Wrapped(att, n, retries) == Run(OutcomeAt(att, n, e), CallsBefore(att, n, e + 1))
  {
    WrappedFrom(att, n, retries, 0);
  }

  // ---------------------------------------------------------------------------
  // The behaviour of the default wrapper
  // ---------------------------------------------------------------------------

  /** A first call that does not raise StaleElement is the whole wrapper. */
  lemma FirstNotStale(att: nat -> Run, n: nat)
    requires !StaleAt(att, n, 0)
    ensures Wrapped(att, n, DefaultRetries) == att(n)
  {
    WrappedEscapes(att, n, DefaultRetries);
    EscapingUnique(att, n, DefaultRetries, 0);
    CallsBeforeNext(att, n, 0);
  }

  /** Every call before the escaping one raised StaleElement, StaleElement
      escapes only from the fourth call, and at most four calls are made. */
  lemma DefaultWrapper(att: nat -> Run, n: nat)
    ensures var e := Escaping(att, n, DefaultRetries);
      var w := Wrapped(att, n, DefaultRetries);
      e <= 3 && w.out == OutcomeAt(att, n, e) && w.calls == CallsBefore(att, n, e + 1) &&
      (forall i :: 0 <= i < e ==> StaleAt(att, n, i)) &&
      (w.out == Raised(StaleElement) ==> e == 3)
  {
    WrappedEscapes(att, n, DefaultRetries);
    EscapingCharacterised(att, n, DefaultRetries);
  }

  /** The wrapper ends as one of the wrapped function's calls ended: when none
      of them exits, or returns anything but None, neither does the wrapper. */
  lemma {:induction false} WrappedEndsAsACall(att: nat -> Run, n: nat, left: nat)
    requires forall m: nat :: !att(m).out.Exited? && (att(m).out.Returned? ==> att(m).out.v == VNull)
    ensures var w := Wrapped(att, n, left);
      !w.out.Exited? && (w.out.Returned? ==> w.out.v == VNull)
    decreases left
  {
    var a := att(n);
    if left > 0 && a.out == Raised(StaleElement) {
      WrappedEndsAsACall(att, n + |a.calls|, left - 1);
    }
  }

  /** Four stale calls: the fourth one's StaleElement propagates. */
  lemma FourthStalePropagates(att: nat -> Run, n: nat)
    requires forall j :: 0 <= j < 4 ==> StaleAt(att, n, j)
    ensures Escaping(att, n, DefaultRetries) == 3
    ensures Wrapped(att, n, DefaultRetries).out == Raised(StaleElement)
  {
    assert StaleAt(att, n, 3);
    EscapingUnique(att, n, DefaultRetries, 3);
    WrappedEscapes(att, n, DefaultRetries);
  }

  /** Any other exception propagates from the call that raised it, which is
      then the last call made. */
  lemma OtherErrorPropagatesAtOnce(att: nat -> Run, n: nat, j: nat, e: Error)
    requires j < DefaultRetries
    requires forall i :: 0 <= i < j ==> StaleAt(att, n, i)
    requires OutcomeAt(att, n, j) == Raised(e) && e != StaleElement
    ensures Escaping(att, n, DefaultRetries) == j
    ensures Wrapped(att, n, DefaultRetries) == Run(Raised(e), CallsBefore(att, n, j + 1))
  {
    EscapingUnique(att, n, DefaultRetries, j);
    WrappedEscapes(att, n, DefaultRetries);
  }

  /** Two stale calls and then a success: the success is returned, after
      the calls of all three. */
  lemma StaleTwiceThenSuccess(att: nat -> Run, n: nat, v: Value)
    requires StaleAt(att, n, 0) && StaleAt(att, n, 1)
    requires OutcomeAt(att, n, 2) == Returned(v)
    ensures Wrapped(att, n, DefaultRetries) == Run(Returned(v), CallsBefore(att, n, 3))
  {
    EscapingUnique(att, n, DefaultRetries, 2);
    WrappedEscapes(att, n, DefaultRetries);
  }
}
