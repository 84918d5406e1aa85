/** The Python-level vocabulary the engine works in: decoded JSON values, the
    dictionaries that describe actions, the exceptions that flow through the
    engine, and the few `str` operations the recording importer relies on. */
module Py {

  datatype Option<T> = None | Some(value: T)

  datatype Result<T> = Ok(value: T) | Err(error: Error)

  /** A decoded JSON value, plus `VRef` for an opaque object handed out by the
      browser (a web element or an alert). */
  datatype Value =
    | VNull
    | VBool(b: bool)
    | VInt(i: int)
    | VStr(s: string)
    | VList(items: seq<Value>)
    | VObj(fields: map<string, Value>)
    | VRef(id: nat)

  /** An action record, or the keyword arguments built from one. */
  type Dict = map<string, Value>

  /** The exceptions that matter to the engine. Everything that Selenium raises
      and the engine does not single out is `WebDriverError`. */
  datatype Error =
    | UnsupportedLocatorType(given: Value)  // ValueError raised by the locator resolver
    | UnpackMismatch(parts: nat)            // ValueError of `a, b = s.split(..)` with parts != 2
    | KeyError(key: string)
    | TypeError                             // bad call signature, value not callable, bad attribute name
    | AttributeError(name: string)
    | UnboundLocal(name: string)            // UnboundLocalError
    | StaleElement                          // StaleElementReferenceException
    | NotInteractable                       // ElementNotInteractableException
    | Timeout                               // TimeoutException
    | WebDriverError(code: nat)
    | Unmodelled(name: string)              // a call this model does not follow

  /** How a Python call ends: it returns a value, raises an exception, or ends
      the process through `exit(code)` (SystemExit, which no `except Exception`
      handler catches). */
  datatype Outcome = Returned(v: Value) | Raised(e: Error) | Exited(code: int)

  /** Python truthiness, as used by `x if x else None` and `if command["value"]`. */
  predicate Truthy(v: Value) {
    match v
    case VNull => false
    case VBool(b) => b
    case VInt(i) => i != 0
    case VStr(s) => s != ""
    case VList(xs) => xs != []
    case VObj(m) => m != map[]
    case VRef(_) => true
  }

  /** A call whose value the caller throws away: success becomes `None`. */
  function Discarded(r: Outcome): (d: Outcome)
    ensures d.Returned? <==> r.Returned?
    ensures d.Returned? ==> d.v == VNull
    ensures !r.Returned? ==> d == r
  {
    if r.Returned? then Returned(VNull) else r
  }

  /** Keyword-argument binding: Python raises TypeError unless every required
      parameter is given and no unknown keyword is passed. */
  predicate Binds(p: Dict, required: set<string>, optional: set<string>) {
    required <= p.Keys && p.Keys <= required + optional
  }

  /** `action[k1], action[k2], ...` evaluated left to right. */
  function Lookup(a: Dict, keys: seq<string>): (r: Result<seq<Value>>)
    ensures r.Ok? <==> forall i :: 0 <= i < |keys| ==> keys[i] in a
    ensures r.Ok? ==> |r.value| == |keys| && forall i :: 0 <= i < |keys| ==> r.value[i] == a[keys[i]]
    ensures r.Err? ==> exists i :: 0 <= i < |keys| && keys[i] !in a && r.error == KeyError(keys[i]) &&
                                   (forall j :: 0 <= j < i ==> keys[j] in a)
  {
    if keys == [] then Ok([])
    else if keys[0] !in a then Err(KeyError(keys[0]))
    else
      match Lookup(a, keys[1..])
      case Ok(vs) => Ok([a[keys[0]]] + vs)
      case Err(e) => Err(e)
  }

  // ---------------------------------------------------------------------------
  // String operations (ASCII model of `str.upper`, single-character `split`)
  // ---------------------------------------------------------------------------

  function UpperChar(c: char): (u: char)
    ensures 'a' <= c <= 'z' ==> 'A' <= u <= 'Z' && u as int == c as int - 32
    ensures !('a' <= c <= 'z') ==> u == c
  {
    if 'a' <= c <= 'z' then (c as int - 32) as char else c
  }

  /** `s.upper()` restricted to ASCII letters. */
  function Upper(s: string): (u: string)
    ensures |u| == |s|
    ensures forall i :: 0 <= i < |s| ==> u[i] == UpperChar(s[i])
  {
    if s == [] then [] else [UpperChar(s[0])] + Upper(s[1..])
  }

  /** Index of the first occurrence of `c` in `s`, or `|s|` if there is none. */
  function IndexOf(s: string, c: char): (i: nat)
    ensures i <= |s|
    ensures i < |s| ==> s[i] == c
    ensures c !in s[..i]
    ensures i == |s| <==> c !in s
  {
    if s == [] then 0
    else if s[0] == c then 0
    else
      var j := IndexOf(s[1..], c);
      assert s[..j + 1] == [s[0]] + s[1..][..j];
      j + 1
  }

  /** `s.split(c, 1)` unpacked into two parts: present exactly when `c` occurs. */
  function SplitFirst(s: string, c: char): (r: Option<(string, string)>)
    ensures r.Some? <==> c in s
    ensures r.Some? ==> s == r.value.0 + [c] + r.value.1 && c !in r.value.0
  {
    var i := IndexOf(s, c);
    if i < |s| then
      assert s == s[..i] + [c] + s[i + 1..];
      Some((s[..i], s[i + 1..]))
    else None
  }

  /** Number of occurrences of `c` in `s`. */
  function Count(s: string, c: char): nat {
    if s == [] then 0 else (if s[0] == c then 1 else 0) + Count(s[1..], c)
  }

  /** The pieces joined back with the separator. */
  function Join(parts: seq<string>, c: char): string {
    if parts == [] then []
    else if |parts| == 1 then parts[0]
    else parts[0] + [c] + Join(parts[1..], c)
  }

  /** `s.split(c)` for a one-character separator: the maximal pieces between
      occurrences of `c`, empty pieces included. */
  function Split(s: string, c: char): (parts: seq<string>)
    ensures |parts| == Count(s, c) + 1
    ensures forall k :: 0 <= k < |parts| ==> c !in parts[k]
    ensures Join(parts, c) == s
  {
    if s == [] then [[]]
    else
      var rest := Split(s[1..], c);
      if s[0] == c then
        assert Join([[]] + rest, c) == [c] + Join(rest, c);
        [[]] + rest
      else
        var parts := [[s[0]] + rest[0]] + rest[1..];
        assert Join(parts, c) == s by {
          if |rest| == 1 {
            assert parts == [[s[0]] + rest[0]];
          } else {
            assert rest == [rest[0]] + rest[1..];
            assert Join(rest, c) == rest[0] + [c] + Join(rest[1..], c);
            assert parts[1..] == rest[1..];
          }
        }
        assert forall k :: 1 <= k < |parts| ==> parts[k] == rest[k];
        parts
  }

  /** `a, b = s.split(c)` succeeds exactly when `c` occurs once; the two parts
      are then the text before and after that occurrence. */
  lemma {:induction false} SplitInTwo(s: string, c: char)
    ensures |Split(s, c)| == 2 <==> Count(s, c) == 1
    ensures |Split(s, c)| == 2 ==> s == Split(s, c)[0] + [c] + Split(s, c)[1]
  {
    var parts := Split(s, c);
    if |parts| == 2 {
      assert parts[1..] == [parts[1]];
      assert Join(parts, c) == parts[0] + [c] + parts[1];
    }
  }

  /** Concatenation regroups freely. Loops that thread a call log through
      their steps use it instead of proving the regrouping element by
      element. */
  lemma AppendAssoc<T>(a: seq<T>, b: seq<T>, c: seq<T>)
    ensures (a + b) + c == a + (b + c)
  {
  }
}
