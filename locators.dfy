/** The locator resolver (`DriverActions._convert_locator_type`,
    driver_actions.py:38-49) and the `By` strategy table it feeds. */
module Locators {
  import opened Py

  /** The eight canonical kinds: the attribute names of Selenium's `By`. */
  predicate IsSupported(kind: string) {
    kind in {
      "ID", "NAME", "XPATH", "TAG_NAME", "CLASS_NAME", "LINK_TEXT",
      "PARTIAL_LINK_TEXT", "CSS_SELECTOR"
    }
  }

  /** The two alias rules, applied before the membership test. */
  function Alias(s: string): string {
    if s == "linkText" || s == "LINKTEXT" then "LINK_TEXT"
    else if s == "CSS" then "CSS_SELECTOR"
    else s
  }

  /** Normalise a locator kind: the aliases "linkText"/"LINKTEXT" and "CSS",
      the eight canonical names unchanged, a ValueError for anything else.
      Matching is case-sensitive. */
  function ConvertLocatorType(s: string): (r: Result<string>)
    ensures r.Ok? <==> IsSupported(s) || s == "linkText" || s == "LINKTEXT" || s == "CSS"
    ensures r.Ok? ==> IsSupported(r.value)
    ensures IsSupported(s) ==> r == Ok(s)
    ensures s == "linkText" || s == "LINKTEXT" ==> r == Ok("LINK_TEXT")
    ensures s == "CSS" ==> r == Ok("CSS_SELECTOR")
    ensures r.Err? ==> r.error == UnsupportedLocatorType(VStr(s))
  {
    var t := Alias(s);
    if IsSupported(t) then Ok(t) else Err(UnsupportedLocatorType(VStr(s)))
  }

  /** The resolver applied to an arbitrary decoded value: a non-string is
      never equal to an alias or a canonical name, so it is rejected. */
  function ConvertLocator(v: Value): (r: Result<string>)
    ensures r.Ok? ==> v.VStr? && r == ConvertLocatorType(v.s)
    ensures !v.VStr? ==> r == Err(UnsupportedLocatorType(v))
  {
    if v.VStr? then ConvertLocatorType(v.s) else Err(UnsupportedLocatorType(v))
  }

  /** The value of each `By` attribute: the lower-case strategy string the
      browser protocol uses. */
  function ByValue(kind: string): string
    requires IsSupported(kind)
  {
    match kind
    case "ID" => "id"
    case "NAME" => "name"
    case "XPATH" => "xpath"
    case "TAG_NAME" => "tag name"
    case "CLASS_NAME" => "class name"
    case "LINK_TEXT" => "link text"
    case "PARTIAL_LINK_TEXT" => "partial link text"
    case "CSS_SELECTOR" => "css selector"
  }

  /** `getattr(By, v)`: a canonical name gives its strategy string, any other
      string is an AttributeError, a non-string a TypeError. `By`'s dunder
      attributes are not modelled. */
  function ByAttr(v: Value): (r: Result<string>)
    ensures r.Ok? <==> v.VStr? && IsSupported(v.s)
    ensures r.Ok? ==> r.value == ByValue(v.s)
  {
    match v
    case VStr(s) => if IsSupported(s) then Ok(ByValue(s)) else Err(AttributeError(s))
    case _ => Err(TypeError)
  }

  // ---------------------------------------------------------------------------
  // Properties of the resolver
  // ---------------------------------------------------------------------------

  /** Normalising an already normalised kind changes nothing. */
  lemma ConvertIdempotent(s: string)
    ensures ConvertLocatorType(s).Ok? ==>
      ConvertLocatorType(ConvertLocatorType(s).value) == ConvertLocatorType(s)
  {
  }

  /** The accepted inputs are exactly the eight names and the three aliases,
      and the results exactly the eight names. */
  lemma AcceptedInputs(s: string)
    ensures ConvertLocatorType(s).Ok? <==>
      s in {"ID", "NAME", "XPATH", "TAG_NAME", "CLASS_NAME", "LINK_TEXT", "PARTIAL_LINK_TEXT",
            "CSS_SELECTOR", "linkText", "LINKTEXT", "CSS"}
    ensures IsSupported(s) <==> ConvertLocatorType(s) == Ok(s)
  {
  }

  /** The lower-case and spaced forms that the browser protocol itself uses
      are rejected, as is a change of case of a canonical name. */
  lemma RejectsProtocolSpellings()
    ensures ConvertLocatorType("id").Err?
    ensures ConvertLocatorType("css selector").Err?
    ensures ConvertLocatorType("Id").Err?
    ensures ConvertLocatorType("css").Err?
    ensures ConvertLocatorType("linktext").Err?
  {
  }

  /** Every `By` strategy string is rejected when fed back into the resolver:
      none of them is a canonical name or an alias. */
  lemma ByValuesRejected(kind: string)
    requires IsSupported(kind)
    ensures ConvertLocatorType(ByValue(kind)).Err?
  {
  }
}
