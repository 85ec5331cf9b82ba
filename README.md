# determineType — a verified model of Chartbrew's server-side value classifier

Chartbrew's server infers the type of a decoded, schema-less data value with
`determineType(data)` in `server/modules/determineType.js`. It returns one tag,
`"array"`, `"object"`, `"boolean"`, `"number"`, `"string"` or `"date"`, or
`undefined` when nothing matched.

The function works in two stages:

- **Five type rules.** Each is an independent `if` guarded by `typeof` and
  `instanceof Array` tests. They are not an else-chain.
- **The date rule.** It runs last and overwrites whatever the type rules chose.
  It fires when `moment` parses `${data}` either free-form or with format `"X"`
  (Unix seconds), provided that a number's `toString()` has exactly ten
  characters. Values that are not numbers have no such guard.

The project has two modules:

- `JsValue` (`JsValue.dfy`) models JavaScript values: `undefined`, `null`,
  booleans, integer-valued numbers, strings, arrays and objects. It also gives
  `typeof`, `instanceof Array`, `Number.prototype.toString` for integers (with
  its read-back partner `IntegerValue`) and the template-literal coercion
  `${v}`.
- `DetermineType` (`DetermineType.dfy`) holds three things. The first is the
  method `Determine`, which follows the source statement by statement with a
  local `dataType` that each rule may overwrite. The second is the pure
  specification `Classify`: the date rule if it fires, otherwise the tag that
  the value's runtime kind calls for. The third is the lemmas about `Classify`.

The foreign pieces are fields of a `Host` value that every member takes as a
parameter:

- `moment(s).isValid()`, as `parsesFreeForm`;
- `moment(s, "X").isValid()`, as `parsesUnixSeconds`;
- the string coercion of arrays and objects, as `objectString`.

Every property holds for every choice of these three. The result is
`Option<Tag>`, where `None` stands for `undefined`. Being a datatype, it can
only be one of the six tags or unset. `Determine`'s postcondition makes it a
function of the input and the `Host`.

The number guard is `data.toString().length === 10`, which is not a digit
count: the length counts a leading `-`. So a nine-digit negative integer such
as `-123456789` passes the guard, and a ten-digit negative one does not. See
`NumberToStringLengthTen` and `NumberClassification`.

## Model

| member | source | states |
|---|---|---|
| `DetermineType.Determine` | server/modules/determineType.js:3-27 | The statement-by-statement classifier (five independent rules, then the overriding date rule) returns exactly `Classify(host, data)`, the kind-based specification. |
| `DetermineType.TypeRulesDisjoint` | server/modules/determineType.js:5-19 | At most one of the five type rules fires. Exactly one fires unless the value is `null` or `undefined`, and it carries the tag the value's kind calls for. `typeof null === "object"` keeps null out of the boolean/number/string rules. |
| `DetermineType.DateRuleExactly` | server/modules/determineType.js:20-21 | The source's date guard holds iff some parse of `${data}` succeeds and, when the value is a number, its `toString()` has length 10. |
| `DetermineType.DateOverridesTypeRules` | server/modules/determineType.js:20-26 | When the date rule fires the result is "date", whatever the type rules assigned. Otherwise the result is `Some(t)` iff `t` is the tag of the single rule that fired, and it is unset iff no rule fired. |
| `DetermineType.NumberClassification` | server/modules/determineType.js:14-24 | An integer is "date" iff a parse of its decimal form succeeds and it lies in [10^9, 10^10) or in [-(10^9-1), -10^8]. Otherwise it is "number". |
| `DetermineType.ShortOrLongNumberIsNumber` | server/modules/determineType.js:14-24 | A number whose `toString()` is not 10 characters long is "number", whatever either parse says. |
| `DetermineType.MillisecondTimestampIsNumber` | server/modules/determineType.js:14-24 | `42` and the 13-digit millisecond timestamp `1609459200123` are classified "number" for every host. |
| `DetermineType.SecondTimestampIsDate` | server/modules/determineType.js:14-24 | The 10-digit second timestamp `1609459200` is "date" whenever the `"X"` parse of `"1609459200"` succeeds. |
| `DetermineType.StringClassification` | server/modules/determineType.js:17-24 | A string is "date" iff either parse of the string itself succeeds, and "string" otherwise. No length guard applies. |
| `DetermineType.BooleanClassification` | server/modules/determineType.js:11-24 | A boolean is "date" iff a parse of `"true"`/`"false"` succeeds, and "boolean" otherwise. |
| `DetermineType.StructuredClassification` | server/modules/determineType.js:5-24 | An array is "array" and a non-array object is "object", unless a parse of its string form succeeds. Then it is "date": the length guard does not protect them. |
| `DetermineType.NullAndUndefinedClassification` | server/modules/determineType.js:4-26 | For `null`/`undefined` no type rule fires. The result is unset unless a parse of `"null"`/`"undefined"` succeeds, in which case it is "date". |
| `DetermineType.ClassifyDependsOnParsesOfTemplateString` | server/modules/determineType.js:20-26 | The result depends on the host only through `${data}` and the two parse outcomes on it. Hosts that agree there classify alike. |
| `DetermineType.Classify` | server/modules/determineType.js:4-26 | The specification `Determine` is proved against; its definition is its contract: "date" when the value looks like a date (a parse of `${data}` succeeds and a number prints as ten characters), otherwise the tag of the value's runtime kind, unset for null and undefined. |
| `DetermineType.ArrayRule` | server/modules/determineType.js:5 | The guard `data !== null && typeof data === "object" && data instanceof Array`, written as in the source; it holds exactly for arrays. |
| `DetermineType.ObjectRule` | server/modules/determineType.js:8 | The guard `data !== null && typeof data === "object" && !(data instanceof Array)`; it holds exactly for non-array objects, never for null. |
| `DetermineType.BooleanRule` | server/modules/determineType.js:11 | The guard `typeof data !== "object" && !(data instanceof Array) && typeof data === "boolean"`; it holds exactly for booleans. |
| `DetermineType.NumberRule` | server/modules/determineType.js:14 | The guard `typeof data !== "object" && !(data instanceof Array) && typeof data === "number"`; it holds exactly for numbers. |
| `DetermineType.StringRule` | server/modules/determineType.js:17 | The guard `typeof data !== "object" && !(data instanceof Array) && typeof data === "string"`; it holds exactly for strings. |
| `DetermineType.DateRule` | server/modules/determineType.js:20-21 | The date guard written as in the source; its definition is its contract: one of the two parses of `${data}` succeeds, and either `typeof data === "number"` with `data.toString().length === 10`, or the value is not a number. `DateRuleExactly` restates it. |
| `DetermineType.TagName` | server/modules/determineType.js:6-23 | The string `determineType` returns for each tag: "array", "object", "boolean", "number", "string", "date" (lines 6, 9, 12, 15, 18, 23); its definition is its contract. |
| `DetermineType.TagNamesDistinct` | server/modules/determineType.js:6-23 | Two tags have the same returned string iff they are the same tag, so `Option<Tag>` determines the returned value and back. |
| `JsValue.InstanceOfArray` | server/modules/determineType.js:5-17 | `data instanceof Array`; its definition is its contract: true exactly for arrays, the only modelled values with Array.prototype on their prototype chain. |
| `JsValue.NumberToString` | server/modules/determineType.js:20 | `data.toString()` for an integer-valued number; its definition is its contract: `-` for a negative value, then the decimal digits of the magnitude. `NumberToStringRoundTrip` and `NumberToStringLengthTen` state its properties. |
| `JsValue.TemplateString` | server/modules/determineType.js:20 | The coercion `${data}`; its definition is its contract: `"undefined"`, `"null"`, `"true"`/`"false"`, a number's `toString()`, a string itself, and for arrays and objects the host's `objectString`. |
| `JsValue.TypeOf` | server/modules/determineType.js:5-19 | `typeof` is "object" exactly for null, arrays and objects, and "boolean"/"number"/"string"/"undefined" exactly for the matching kind. |
| `JsValue.DigitsOfRoundTrip` | server/modules/determineType.js:20 | The decimal digits of `n` are at least one digit character, have no leading zero unless `n = 0`, and read back as `n`. |
| `JsValue.NumberToStringRoundTrip` | server/modules/determineType.js:20 | An integer's `toString()` reads back as the integer, and it starts with `-` iff the integer is negative. |
| `JsValue.DigitsOfLength` | server/modules/determineType.js:20 | A natural number has at most `k` digits iff it is below 10^k. |
| `JsValue.NumberToStringLengthTen` | server/modules/determineType.js:20 | `n.toString().length === 10` iff `n` is a ten-digit non-negative integer or a nine-digit negative one. |

## Left out

- Floating-point numbers, `NaN`, the infinities and `-0` are not modelled. `Num` holds integers of magnitude at most 2^53 - 1, where JavaScript's `toString()` is plain decimal. `-0` prints as `"0"` and would classify like `0`.
- Strings are modelled as Dafny strings, which are sequences of Unicode scalar values, while JavaScript strings are sequences of UTF-16 code units. A decoded string holding an unpaired surrogate (JSON `"\ud800"`) therefore has no `Str` counterpart. Classification does not depend on this, because a string only reaches the abstract parses and no length is ever taken of one.
- `symbol`, `bigint` and `function` values are not modelled. Decoded JSON does not produce them.
- The date-string grammar of `moment` and its Unix-timestamp parsing stay abstract, as the `Host` fields `parsesFreeForm` and `parsesUnixSeconds`. The library itself is not part of this model.
- The string coercion of arrays and objects (comma-joining, `"[object Object]"`) stays abstract, as `Host.objectString`. It is assumed to return a string. An object whose coercion throws, such as a decoded object with a non-function `toString` key, is not modelled.
- The rest of the repository is not part of this model. The dashboard screens and the chart wrapper are UI code without an algorithmic contract.
