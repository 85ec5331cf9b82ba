/**
 * The server's data-type classifier `determineType`. Five independent type
 * rules each may assign a tag; a date rule runs last and, when it fires,
 * overwrites whatever the type rules chose. The date rule asks the `moment`
 * library to parse the value's string form, free-form and as Unix seconds
 * (format "X"); the two parses, and the string coercion of arrays and objects,
 * are supplied by a `Host` and every property holds whatever they are.
 */
module DetermineType {
  import opened JsValue

  datatype Option<T> = None | Some(value: T)

  /** The classification tags; `None` in the result stands for `undefined`. */
  datatype Tag = Array | Object | Boolean | Number | String | Date

  /** The string `determineType` returns for each tag. */
  function TagName(t: Tag): string {
    match t
    case Array => "array"
    case Object => "object"
    case Boolean => "boolean"
    case Number => "number"
    case String => "string"
    case Date => "date"
  }

  /** Distinct tags are returned as distinct strings, so a tag is recovered from its name. */
  lemma TagNamesDistinct(t1: Tag, t2: Tag)
    ensures TagName(t1) == TagName(t2) <==> t1 == t2
  {
  }

  /**
   * What the classifier depends on but does not define: `moment(s).isValid()`,
   * `moment(s, "X").isValid()`, and the `toString` of arrays and objects used
   * by `${data}`.
   */
  datatype Host = Host(
    parsesFreeForm: string -> bool,
    parsesUnixSeconds: string -> bool,
    objectString: Value -> string)

  // ---------------------------------------------------------------------------
  // The rules, with the guards of determineType.js as written
  // ---------------------------------------------------------------------------

  /** The guard of the rule at determineType.js:5; it holds exactly for an array. */
  predicate ArrayRule(data: Value): (fires: bool)
    ensures fires <==> data.Arr?
  {
    data != Null && TypeOf(data) == "object" && InstanceOfArray(data)
  }

  /** The guard of the rule at determineType.js:8; it holds exactly for a non-array object. */
  predicate ObjectRule(data: Value): (fires: bool)
    ensures fires <==> data.Obj?
  {
    data != Null && TypeOf(data) == "object" && !InstanceOfArray(data)
  }

  /** The guard of the rule at determineType.js:11; it holds exactly for a boolean. */
  predicate BooleanRule(data: Value): (fires: bool)
    ensures fires <==> data.Bool?
  {
    TypeOf(data) != "object" && !InstanceOfArray(data) && TypeOf(data) == "boolean"
  }

  /** The guard of the rule at determineType.js:14; it holds exactly for a number. */
  predicate NumberRule(data: Value): (fires: bool)
    ensures fires <==> data.Num?
  {
    TypeOf(data) != "object" && !InstanceOfArray(data) && TypeOf(data) == "number"
  }

  /** The guard of the rule at determineType.js:17; it holds exactly for a string. */
  predicate StringRule(data: Value): (fires: bool)
    ensures fires <==> data.Str?
  {
    TypeOf(data) != "object" && !InstanceOfArray(data) && TypeOf(data) == "string"
  }

  /** Either `moment` parse of `${data}` gives a valid date. */
  predicate ParsesAsDate(host: Host, data: Value) {
    var text := TemplateString(data, host.objectString);
    host.parsesFreeForm(text) || host.parsesUnixSeconds(text)
  }

  /** The date rule's guard: a parse succeeds, and a number must print as ten characters. */
  predicate DateRule(host: Host, data: Value) {
    ParsesAsDate(host, data)
    && ((TypeOf(data) == "number" && |NumberToString(data.n)| == 10) || TypeOf(data) != "number")
  }

  /** The tags of the type rules that fire, in statement order. */
  function TypeRulesFired(data: Value): seq<Tag> {
    (if ArrayRule(data) then [Array] else [])
    + (if ObjectRule(data) then [Object] else [])
    + (if BooleanRule(data) then [Boolean] else [])
    + (if NumberRule(data) then [Number] else [])
    + (if StringRule(data) then [String] else [])
  }

  // ---------------------------------------------------------------------------
  // Specification: a case analysis on the value's kind
  // ---------------------------------------------------------------------------

  /** The tag a value's runtime kind calls for; null and undefined have none. */
  function KindTag(data: Value): Option<Tag> {
    match data
    case Undefined => None
    case Null => None
    case Bool(_) => Some(Boolean)
    case Num(_) => Some(Number)
    case Str(_) => Some(String)
    case Arr(_) => Some(Array)
    case Obj(_) => Some(Object)
  }

  /** The date rule restated: a parse succeeds, and a number prints as ten characters. */
  predicate LooksLikeDate(host: Host, data: Value) {
    ParsesAsDate(host, data) && (data.Num? ==> |NumberToString(data.n)| == 10)
  }

  function Classify(host: Host, data: Value): Option<Tag> {
    if LooksLikeDate(host, data) then Some(Date) else KindTag(data)
  }

  // ---------------------------------------------------------------------------
  // The classifier, statement by statement
  // ---------------------------------------------------------------------------

  method Determine(host: Host, data: Value) returns (dataType: Option<Tag>)
    ensures dataType == Classify(host, data)
  {
    dataType := None;
    if ArrayRule(data) {
      dataType := Some(Array);
    }
    if ObjectRule(data) {
      dataType := Some(Object);
    }
    if BooleanRule(data) {
      dataType := Some(Boolean);
    }
    if NumberRule(data) {
      dataType := Some(Number);
    }
    if StringRule(data) {
      dataType := Some(String);
    }
    if DateRule(host, data) {
      dataType := Some(Date);
    }
  }

  // ---------------------------------------------------------------------------
  // Properties
  // ---------------------------------------------------------------------------

  /**
   * At most one type rule fires, exactly one unless the value is null or
   * undefined, and it is the one the value's kind calls for.
   */
  lemma TypeRulesDisjoint(data: Value)
    ensures |TypeRulesFired(data)| <= 1
    ensures |TypeRulesFired(data)| == 1 <==> !(data.Null? || data.Undefined?)
    ensures KindTag(data) == if TypeRulesFired(data) == [] then None else Some(TypeRulesFired(data)[0])
  {
  }

  /** The date guard of determineType.js:20-21 is exactly "a parse succeeds, and a number prints as ten characters". */
  lemma DateRuleExactly(host: Host, data: Value)
    ensures DateRule(host, data) <==> LooksLikeDate(host, data)
  {
  }

  /**
   * The date rule overrides: when it fires the result is "date", otherwise it
   * is the tag of the single type rule that fired, or unset if none did.
   */
  lemma DateOverridesTypeRules(host: Host, data: Value)
    ensures DateRule(host, data) ==> Classify(host, data) == Some(Date)
    ensures !DateRule(host, data) ==>
              (Classify(host, data) == None <==> TypeRulesFired(data) == [])
    ensures !DateRule(host, data) ==>
              forall t :: Classify(host, data) == Some(t) <==> TypeRulesFired(data) == [t]
  {
    DateRuleExactly(host, data);
    TypeRulesDisjoint(data);
  }

  /**
   * An integer is "date" exactly when a parse of its digits succeeds and it
   * has ten digits (non-negative) or nine digits and a `-` (negative);
   * otherwise it is "number".
   */
  lemma {:induction false} NumberClassification(host: Host, n: SafeInteger)
    ensures Classify(host, Num(n)) == Some(Date) <==>
              && (host.parsesFreeForm(NumberToString(n)) || host.parsesUnixSeconds(NumberToString(n)))
              && (1_000_000_000 <= n <= 9_999_999_999 || -999_999_999 <= n <= -100_000_000)
    ensures Classify(host, Num(n)) != Some(Date) ==> Classify(host, Num(n)) == Some(Number)
  {
    NumberToStringLengthTen(n);
  }

  /** A number whose string form is not ten characters long is never "date". */
  lemma ShortOrLongNumberIsNumber(host: Host, n: SafeInteger)
    requires |NumberToString(n)| != 10
    ensures Classify(host, Num(n)) == Some(Number)
  {
  }

  /** 42 (two characters) and the 13-digit millisecond timestamp 1609459200123 are never "date". */
  lemma {:induction false} MillisecondTimestampIsNumber(host: Host)
    ensures Classify(host, Num(42)) == Some(Number)
    ensures Classify(host, Num(1609459200123)) == Some(Number)
  {
    NumberClassification(host, 42);
    NumberClassification(host, 1609459200123);
  }

  /** A ten-digit second-precision timestamp is "date" once a parse of it succeeds. */
  lemma {:induction false} SecondTimestampIsDate(host: Host)
    requires host.parsesUnixSeconds("1609459200")
    ensures Classify(host, Num(1609459200)) == Some(Date)
  {
    assert DigitsOf(1) == "1";
    assert DigitsOf(16) == "16";
    assert DigitsOf(160) == "160";
    assert DigitsOf(1609) == "1609";
    assert DigitsOf(16094) == "16094";
    assert DigitsOf(160945) == "160945";
    assert DigitsOf(1609459) == "1609459";
    assert DigitsOf(16094592) == "16094592";
    assert DigitsOf(160945920) == "160945920";
    assert NumberToString(1609459200) == "1609459200";
    NumberClassification(host, 1609459200);
  }

  /** A string is "date" when either parse of it succeeds and "string" otherwise; no length guard. */
  lemma StringClassification(host: Host, s: string)
    ensures Classify(host, Str(s)) ==
              if host.parsesFreeForm(s) || host.parsesUnixSeconds(s) then Some(Date) else Some(String)
  {
  }

  /** A boolean is "date" when a parse of "true"/"false" succeeds, and "boolean" otherwise. */
  lemma BooleanClassification(host: Host, b: bool)
    ensures var text := if b then "true" else "false";
            Classify(host, Bool(b)) ==
              if host.parsesFreeForm(text) || host.parsesUnixSeconds(text) then Some(Date) else Some(Boolean)
  {
  }

  /**
   * Arrays and objects are "array" and "object" unless a parse of their string
   * form succeeds; the ten-character guard does not protect them.
   */
  lemma StructuredClassification(host: Host, data: Value)
    requires data.Arr? || data.Obj?
    ensures var text := host.objectString(data);
            Classify(host, data) ==
              if host.parsesFreeForm(text) || host.parsesUnixSeconds(text) then Some(Date)
              else if data.Arr? then Some(Array) else Some(Object)
  {
  }

  /** Null and undefined: unset, unless a parse of "null" / "undefined" succeeds. */
  lemma NullAndUndefinedClassification(host: Host, data: Value)
    requires data.Null? || data.Undefined?
    ensures var text := if data.Null? then "null" else "undefined";
            Classify(host, data) ==
              if host.parsesFreeForm(text) || host.parsesUnixSeconds(text) then Some(Date) else None
  {
  }

  /**
   * The classification depends on the value and on the two parses only
   * through `${data}`: hosts that agree on that string classify alike.
   */
  lemma ClassifyDependsOnParsesOfTemplateString(h1: Host, h2: Host, data: Value)
    requires TemplateString(data, h1.objectString) == TemplateString(data, h2.objectString)
    requires var text := TemplateString(data, h1.objectString);
             h1.parsesFreeForm(text) == h2.parsesFreeForm(text)
             && h1.parsesUnixSeconds(text) == h2.parsesUnixSeconds(text)
    ensures Classify(h1, data) == Classify(h2, data)
  {
  }
}
