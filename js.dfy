/** JavaScript values and the few language operations every logger variant relies on:
    truthiness, template-literal conversion, `Array.prototype.join`, and plain objects
    that are mutated in place and shared by reference. */
module Js {

  datatype Option<+T> = None | Some(value: T)

  /** The errors the loggers throw, identified by their message text. */
  datatype LogError =
    | InvalidLogInput
    | InvalidMetadataKey
    | InvalidLoggerType

  function ErrorMessage(e: LogError): string
  {
    match e
    case InvalidLogInput => "Invalid log input. Must be a string or an object."
    case InvalidMetadataKey => "Invalid metadata key."
    case InvalidLoggerType => "Invalid logger type for createWinstonLogger. Expected \"winston\"."
  }

  /** The outcome of a call that may throw one of the errors above. */
  datatype Result<+T> = Ok(value: T) | Err(error: LogError)

  /** A JavaScript value as it travels through the loggers. Numbers are integers; an
      `ErrorInstance` is an `Error` object: its `message` and `stack` are not enumerable,
      and `fields` holds the own enumerable properties assigned to it (a system error's
      `code`, `errno` and `syscall`, or any `err.x = ...`). */
  datatype Value =
    | Str(s: string)
    | Num(n: int)
    | Bool(b: bool)
    | Null
    | Undefined
    | Obj(fields: map<string, Value>)
    | ErrorInstance(message: string, fields: map<string, Value>)

  /** The own enumerable properties of a plain object. */
  type Fields = map<string, Value>

  /** `v && typeof v === 'object'`: a non-null object. */
  predicate IsObject(v: Value)
  {
    v.Obj? || v.ErrorInstance?
  }

  /** What `{ ...v }` copies out of an object: its own enumerable properties. For an
      `Error` these are the properties assigned to it, never its message. */
  function OwnFields(v: Value): Fields
  {
    if v.Obj? || v.ErrorInstance? then v.fields else map[]
  }

  /** JavaScript truthiness (`NaN` is not modelled). */
  predicate Truthy(v: Value)
  {
    match v
    case Str(s) => s != ""
    case Num(n) => n != 0
    case Bool(b) => b
    case Null => false
    case Undefined => false
    case Obj(_) => true
    case ErrorInstance(_, _) => true
  }

  function DigitChar(d: nat): char
    requires d < 10
  {
    (48 + d) as char
  }

  /** Decimal rendering of a natural number, as `String(n)` gives it. */
  function NatToString(n: nat): (r: string)
    ensures |r| > 0
    ensures forall i :: 0 <= i < |r| ==> '0' <= r[i] <= '9'
  {
    if n < 10 then [DigitChar(n)] else NatToString(n / 10) + [DigitChar(n % 10)]
  }

  /** The string a value becomes inside a template literal `${v}`. */
  function Display(v: Value): string
  {
    match v
    case Str(s) => s
    case Num(n) => if n < 0 then "-" + NatToString(-n) else NatToString(n)
    case Bool(b) => if b then "true" else "false"
    case Null => "null"
    case Undefined => "undefined"
    case Obj(_) => "[object Object]"
    case ErrorInstance(m, _) => if m == "" then "Error" else "Error: " + m
  }

  /** `${x}` for a string that may be `undefined`. */
  function OptText(x: Option<string>): (r: string)
    ensures x.Some? ==> r == x.value
    ensures x.None? ==> r == "undefined"
  {
    Display(if x.Some? then Str(x.value) else Undefined)
  }

  /** A string that may be `undefined`, as a property value. */
  function OptValue(x: Option<string>): Value
  {
    if x.Some? then Str(x.value) else Undefined
  }

  /** `parts.join(sep)`. */
  function Join(parts: seq<string>, sep: string): string
  {
    if |parts| == 0 then ""
    else if |parts| == 1 then parts[0]
    else parts[0] + sep + Join(parts[1..], sep)
  }

  /** Appending one part to a non-empty list appends the separator and that part to the
      joined string: the scope header of a branch extends its parent's. */
  lemma {:induction false} JoinSnoc(parts: seq<string>, x: string, sep: string)
    requires |parts| > 0
    ensures Join(parts + [x], sep) == Join(parts, sep) + sep + x
  {
    if |parts| == 1 {
      assert parts + [x] == [parts[0], x];
      assert [parts[0], x][1..] == [x];
    } else {
      assert (parts + [x])[1..] == parts[1..] + [x];
      JoinSnoc(parts[1..], x, sep);
    }
  }

  /** The characters `String.prototype.trim` removes: white space and line terminators. */
  predicate IsJsWhitespace(c: char)
  {
    || c == '\t' || c == '\n' || c == '\U{B}' || c == '\U{C}' || c == '\r' || c == ' '
    || c == '\U{A0}' || c == '\U{1680}' || ('\U{2000}' <= c <= '\U{200A}')
    || c == '\U{2028}' || c == '\U{2029}' || c == '\U{202F}' || c == '\U{205F}'
    || c == '\U{3000}' || c == '\U{FEFF}'
  }

  /** `s.trimStart()`: the suffix left after the leading white space. */
  function TrimStart(s: string): (r: string)
    ensures |r| <= |s| && r == s[|s| - |r|..]
    ensures |r| > 0 ==> !IsJsWhitespace(r[0])
    ensures forall i :: 0 <= i < |s| - |r| ==> IsJsWhitespace(s[i])
  {
    if |s| > 0 && IsJsWhitespace(s[0]) then TrimStart(s[1..]) else s
  }

  /** `s.trimEnd()`: the prefix left before the trailing white space. */
  function TrimEnd(s: string): (r: string)
    ensures |r| <= |s| && r == s[..|r|]
    ensures |r| > 0 ==> !IsJsWhitespace(r[|r| - 1])
    ensures forall i :: |r| <= i < |s| ==> IsJsWhitespace(s[i])
  {
    if |s| > 0 && IsJsWhitespace(s[|s| - 1]) then TrimEnd(s[..|s| - 1]) else s
  }

  /** `s.trim()`: empty exactly when every character of `s` is white space. */
  function Trim(s: string): (r: string)
    ensures r == "" <==> forall i :: 0 <= i < |s| ==> IsJsWhitespace(s[i])
  {
    var t := TrimEnd(s);
    assert t != "" ==> !IsJsWhitespace(s[|t| - 1]);
    TrimStart(t)
  }

  /** A plain JavaScript object that the loggers mutate in place (`obj[key] = value`,
      `delete obj[key]`) and that a shallow copy shares by reference. */
  class Dict {
    var entries: Fields

    constructor (init: Fields)
      ensures entries == init
    {
      entries := init;
    }
  }
}
