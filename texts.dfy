/** The text reads of both batch runners (driver_actions.py:223, 227, 231
    and main2.py:182, 186, 190): `x.text if x else None` on what a lookup or
    `switch_to_alert` returned, and `[element.text for element in elements]`
    on what `find_elements` returned. Each `.text` is one call against the
    session. */
module Texts {
  import opened Py
  import opened Browser

  /** `x.text if x else None`. */
  function TextOf(o: Oracle, n: nat, x: Value): (r: Run)
    ensures Truthy(x) ==> r == Run(Answer(o(n)), [ReadText(x)])
    ensures !Truthy(x) ==> r == Run(Returned(VNull), [])
    ensures !r.out.Exited?
  {
    if Truthy(x) then Run(Answer(o(n)), [ReadText(x)]) else Run(Returned(VNull), [])
  }

  /** `[e.text for e in xs]` from the element at index `i` on, continuing a
      list already holding `acc`. */
  function TextsFrom(o: Oracle, n: nat, xs: seq<Value>, i: nat, acc: seq<Value>): Run
    decreases |xs| - i
  {
    if i >= |xs| then Run(Returned(VList(acc)), [])
    else
      match o(n)
      case Throws(e) => Run(Raised(e), [ReadText(xs[i])])
      case Gives(t) =>
        var rest := TextsFrom(o, n + 1, xs, i + 1, acc + [t]);
        Run(rest.out, [ReadText(xs[i])] + rest.calls)
  }

  /** The comprehension reads one text per element, in order, stopping at
      the first read that raises; when none raises, the list holds one text
      per element after the `acc` it started with. */
  lemma {:induction false} TextsFromShape(o: Oracle, n: nat, xs: seq<Value>, i: nat, acc: seq<Value>)
    requires i <= |xs|
    ensures var r := TextsFrom(o, n, xs, i, acc);
      (r.out.Raised? || r.out.Returned?) &&
      |r.calls| <= |xs| - i &&
      (forall k :: 0 <= k < |r.calls| ==> r.calls[k] == ReadText(xs[i + k])) &&
      (r.out.Returned? <==> forall m :: n <= m < n + |xs| - i ==> o(m).Gives?) &&
      (r.out.Returned? ==>
         |r.calls| == |xs| - i && r.out.v.VList? && |r.out.v.items| == |acc| + |xs| - i &&
         r.out.v.items[..|acc|] == acc &&
         forall m :: n <= m < n + |xs| - i ==> r.out.v.items[|acc| + m - n] == o(m).v)
    decreases |xs| - i
  {
    if i < |xs| && o(n).Gives? {
      var v0 := o(n).v;
      TextsFromShape(o, n + 1, xs, i + 1, acc + [v0]);
      var rest := TextsFrom(o, n + 1, xs, i + 1, acc + [v0]);
      var r := TextsFrom(o, n, xs, i, acc);
      assert r == Run(rest.out, [ReadText(xs[i])] + rest.calls);
      forall k | 0 <= k < |r.calls| ensures r.calls[k] == ReadText(xs[i + k]) {
        if k > 0 {
          assert r.calls[k] == rest.calls[k - 1];
        }
      }
      if rest.out.Returned? {
        var items := rest.out.v.items;
        assert items[..|acc|] == items[..|acc| + 1][..|acc|];
        assert items[|acc|] == items[..|acc| + 1][|acc|];
      }
    }
  }

  /** `texts` is the comprehension over `xs` seen from every position of the
      session and of `xs`; the trigger keeps the comprehension's body out
      of the proof of the loop that reads the texts. */
  ghost predicate IsTexts(texts: (nat, nat, seq<Value>) -> Run, o: Oracle, xs: seq<Value>) {
    forall m: nat, i: nat, acc: seq<Value> {:trigger TextsFrom(o, m, xs, i, acc)} ::
      texts(m, i, acc) == TextsFrom(o, m, xs, i, acc)
  }

  lemma TextsAre(o: Oracle, xs: seq<Value>)
    ensures IsTexts((m: nat, i: nat, acc: seq<Value>) => TextsFrom(o, m, xs, i, acc), o, xs)
  {
  }

  /** One element of the comprehension read while `total` is the whole run
      and `done` the calls already issued. */
  lemma TextsStep(texts: (nat, nat, seq<Value>) -> Run, o: Oracle, m: nat, xs: seq<Value>, i: nat,
                  acc: seq<Value>, done: seq<Call>, total: Run)
    requires IsTexts(texts, o, xs) && i < |xs|
    requires var t := texts(m, i, acc); total == Run(t.out, done + t.calls)
    ensures o(m).Throws? ==> total == Run(Raised(o(m).e), done + [ReadText(xs[i])])
    ensures o(m).Gives? ==>
      var t := texts(m + 1, i + 1, acc + [o(m).v]);
      total == Run(t.out, (done + [ReadText(xs[i])]) + t.calls)
  {
    assert texts(m, i, acc) == TextsFrom(o, m, xs, i, acc);
    if o(m).Gives? {
      assert texts(m + 1, i + 1, acc + [o(m).v]) == TextsFrom(o, m + 1, xs, i + 1, acc + [o(m).v]);
    }
  }

  /** Past the last element the comprehension returns its list. */
  lemma TextsEnd(texts: (nat, nat, seq<Value>) -> Run, o: Oracle, m: nat, xs: seq<Value>, acc: seq<Value>)
    requires IsTexts(texts, o, xs)
    ensures texts(m, |xs|, acc) == Run(Returned(VList(acc)), [])
  {
    assert texts(m, |xs|, acc) == TextsFrom(o, m, xs, |xs|, acc);
  }

  /** `[element.text for element in v]` on what `find_elements` returned. A
      list has its elements read in turn. An empty string or dict gives an
      empty list. A non-empty string or dict yields strings, which have no
      `text` attribute. Any other value is not iterable. */
  function ListTexts(o: Oracle, n: nat, v: Value): (r: Run)
    ensures v.VList? ==> r == TextsFrom(o, n, v.items, 0, [])
    ensures v.VList? && r.out.Returned? ==>
      r.out.v.VList? && |r.out.v.items| == |v.items| && |r.calls| == |v.items|
    ensures v == VStr([]) || v == VObj(map[]) ==> r == Run(Returned(VList([])), [])
    ensures (v.VStr? && v.s != []) || (v.VObj? && v.fields != map[]) ==>
      r == Run(Raised(AttributeError("text")), [])
    ensures v.VNull? || v.VBool? || v.VInt? || v.VRef? ==> r == Run(Raised(TypeError), [])
    ensures !r.out.Exited?
  {
    match v
    case VList(xs) =>
      TextsFromShape(o, n, xs, 0, []);
      TextsFrom(o, n, xs, 0, [])
    case VStr(s) => if s == [] then Run(Returned(VList([])), []) else Run(Raised(AttributeError("text")), [])
    case VObj(m) => if m == map[] then Run(Returned(VList([])), []) else Run(Raised(AttributeError("text")), [])
    case _ => Run(Raised(TypeError), [])
  }

  // ---------------------------------------------------------------------------
  // The reads issued against a session
  // ---------------------------------------------------------------------------

  /** `x.text if x else None`. */
  method GetText(s: Session, x: Value) returns (r: Outcome)
    modifies s
    ensures Performed(TextOf(s.respond, |old(s.log)|, x), r, old(s.log), s.log)
  {
    if Truthy(x) {
      var t := s.Issue(ReadText(x));
      r := Answer(t);
    } else {
      r := Returned(VNull);
    }
  }

  /** `[element.text for element in xs]`. */
  method GetTexts(s: Session, xs: seq<Value>) returns (r: Outcome)
    modifies s
    ensures Performed(TextsFrom(s.respond, |old(s.log)|, xs, 0, []), r, old(s.log), s.log)
  {
    TextsAre(s.respond, xs);
    r := ReadTexts(s, xs, (m: nat, i: nat, acc: seq<Value>) => TextsFrom(s.respond, m, xs, i, acc));
  }

  /** The loop of the comprehension, seen through `texts`. */
  method ReadTexts(s: Session, xs: seq<Value>, ghost texts: (nat, nat, seq<Value>) -> Run) returns (r: Outcome)
    requires IsTexts(texts, s.respond, xs)
    modifies s
    ensures Performed(texts(|old(s.log)|, 0, []), r, old(s.log), s.log)
  {
    ghost var total := texts(|s.log|, 0, []);
    ghost var log0 := s.log;
    ghost var done: seq<Call> := [];
    var read: seq<Value> := [];
    for i := 0 to |xs|
      invariant s.log == log0 + done
      invariant var t := texts(|s.log|, i, read); total == Run(t.out, done + t.calls)
    {
      TextsStep(texts, s.respond, |s.log|, xs, i, read, done, total);
      AppendAssoc(log0, done, [ReadText(xs[i])]);
      var t := s.Issue(ReadText(xs[i]));
      if t.Throws? {
        return Raised(t.e);
      }
      done := done + [ReadText(xs[i])];
      read := read + [t.v];
    }
    TextsEnd(texts, s.respond, |s.log|, xs, read);
    r := Returned(VList(read));
  }

  /** The texts of what `find_elements` returned. */
  method GetListTexts(s: Session, v: Value) returns (r: Outcome)
    modifies s
    ensures Performed(ListTexts(s.respond, |old(s.log)|, v), r, old(s.log), s.log)
  {
    match v {
      case VList(xs) =>
        r := GetTexts(s, xs);
      case VStr(str) =>
        r := if str == [] then Returned(VList([])) else Raised(AttributeError("text"));
      case VObj(m) =>
        r := if m == map[] then Returned(VList([])) else Raised(AttributeError("text"));
      case _ =>
        r := Raised(TypeError);
    }
  }
}
