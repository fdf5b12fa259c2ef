/** The message normaliser shared by the pino and winston loggers (src/utils/utils.ts):
    level classification and the routing of a string, an object or anything else into
    the record's own fields. */
module Utils {
  import opened Js

  /** ASCII lower-casing. Under the `i` flag of a non-unicode regular expression the only
      characters that fold onto the letters of "error" and "fatal" are their ASCII
      upper- and lower-case forms, so this fold is exact for the pattern below. */
  function Lower(c: char): char
  {
    if 'A' <= c <= 'Z' then (c as int + 32) as char else c
  }

  /** `pat` (lower-case) occurs in `s` at position `i`, ignoring case. */
  predicate MatchesAt(s: string, i: nat, pat: string)
  {
    i + |pat| <= |s| && forall j :: 0 <= j < |pat| ==> Lower(s[i + j]) == pat[j]
  }

  /** `s` contains `pat` somewhere, ignoring case. */
  ghost predicate ContainsIgnoringCase(s: string, pat: string)
  {
    exists i: nat :: MatchesAt(s, i, pat)
  }

  /** `/(error|fatal)/i.test(s)` scanning from start position `i`: the regular expression
      is unanchored, so each start position is tried in turn, and at each one the two
      alternatives are tried in order. */
  predicate ErrorRegexFrom(s: string, i: nat)
    decreases |s| - i
  {
    i < |s| && (MatchesAt(s, i, "error") || MatchesAt(s, i, "fatal") || ErrorRegexFrom(s, i + 1))
  }

  /** `/(error|fatal)/i.test(level)` (src/utils/utils.ts:6-8). */
  predicate IsErrorLevel(level: string)
  {
    ErrorRegexFrom(level, 0)
  }

  lemma {:induction false} ErrorRegexFromFinds(s: string, i: nat)
    ensures ErrorRegexFrom(s, i) <==>
            exists k: nat :: i <= k && (MatchesAt(s, k, "error") || MatchesAt(s, k, "fatal"))
    decreases |s| - i
  {
    if i < |s| {
      ErrorRegexFromFinds(s, i + 1);
      if exists k: nat :: i <= k && (MatchesAt(s, k, "error") || MatchesAt(s, k, "fatal")) {
        var k: nat :| i <= k && (MatchesAt(s, k, "error") || MatchesAt(s, k, "fatal"));
        if k != i {
          assert i + 1 <= k;
        }
      }
    }
  }

  /** A level is error-class exactly when it contains "error" or "fatal" anywhere,
      ignoring case. */
  lemma ErrorLevelIff(level: string)
    ensures IsErrorLevel(level) <==>
            ContainsIgnoringCase(level, "error") || ContainsIgnoringCase(level, "fatal")
  {
    ErrorRegexFromFinds(level, 0);
  }

  /** "error" and "fatal" are error-class in any case and inside longer level names. */
  lemma ErrorNamesAreErrorClass()
    ensures IsErrorLevel("error") && IsErrorLevel("fatal") && IsErrorLevel("ERROR")
    ensures IsErrorLevel("DbError") && IsErrorLevel("xFaTaLx")
  {
    assert MatchesAt("error", 0, "error");
    assert MatchesAt("fatal", 0, "fatal");
    assert MatchesAt("ERROR", 0, "error");
    assert MatchesAt("DbError", 2, "error");
    assert MatchesAt("xFaTaLx", 1, "fatal");
    ErrorLevelIff("DbError");
    ErrorLevelIff("xFaTaLx");
  }

  /** A level name none of whose five-letter windows starts with `e` or `f` (in either
      case) is not error-class. */
  lemma NotErrorClass(s: string)
    requires forall i :: 0 <= i && i + 5 <= |s| ==> Lower(s[i]) != 'e' && Lower(s[i]) != 'f'
    ensures !IsErrorLevel(s)
  {
    ErrorLevelIff(s);
    forall i: nat
      ensures !MatchesAt(s, i, "error") && !MatchesAt(s, i, "fatal")
    {
      if i + 5 <= |s| {
        assert Lower(s[i + 0]) != "error"[0] && Lower(s[i + 0]) != "fatal"[0];
      }
    }
  }

  /** The other level names the loggers pass are not error-class. */
  lemma OtherNamesAreNotErrorClass()
    ensures !IsErrorLevel("info") && !IsErrorLevel("warn") && !IsErrorLevel("trace")
    ensures !IsErrorLevel("silly") && !IsErrorLevel("log") && !IsErrorLevel("debug")
  {
    NotErrorClass("debug");
    NotErrorClass("info");
    NotErrorClass("warn");
    NotErrorClass("trace");
    NotErrorClass("silly");
    NotErrorClass("log");
  }

  /** The `data` argument as the record's `logInfo`. */
  function DataValue(data: Option<Fields>): Value
  {
    if data.Some? then Obj(data.value) else Undefined
  }

  /** `createLogMessage(level, msgOrData, data)` (src/utils/utils.ts:1-37).
      Error-class levels spread `data` (or the object) into the top level, where a key
      named `message` overrides the message; other levels nest it under `logInfo`.
      An object or `data` with no own keys contributes nothing. Anything that is neither
      a string nor a non-null object is rejected at every level. */
  function CreateLogMessage(level: string, msgOrData: Value, data: Option<Fields>): (r: Result<Fields>)
    ensures r.Err? <==> !(msgOrData.Str? || IsObject(msgOrData))
    ensures r.Err? ==> r.error == InvalidLogInput
    ensures r.Ok? ==> "message" in r.value
  {
    if IsErrorLevel(level) then
      if msgOrData.Str? then
        Ok(map["message" := msgOrData]
           + (if data.Some? && |data.value| > 0 then data.value else map[]))
      else if IsObject(msgOrData) then
        Ok(map["message" := Str("Logging error directly")]
           + (if |OwnFields(msgOrData)| > 0 then OwnFields(msgOrData) else map[]))
      else
        Err(InvalidLogInput)
    else
      if msgOrData.Str? then
        Ok(map["message" := msgOrData]
           + (if data.Some? && |data.value| > 0 then map["logInfo" := Obj(data.value)] else map[]))
      else if IsObject(msgOrData) then
        Ok(map["message" := Str("Logging object directly")]
           + (if |OwnFields(msgOrData)| > 0 then map["logInfo" := msgOrData] else map[]))
      else
        Err(InvalidLogInput)
  }

  /** The input the test suite rejects (`logger.info(123)`), and the other primitive
      kinds, are rejected at every level with the same message. */
  lemma PrimitivesRejected(level: string, n: int, b: bool, data: Option<Fields>)
    ensures CreateLogMessage(level, Num(n), data) == Err(InvalidLogInput)
    ensures CreateLogMessage(level, Bool(b), data) == Err(InvalidLogInput)
    ensures CreateLogMessage(level, Null, data) == Err(InvalidLogInput)
    ensures CreateLogMessage(level, Undefined, data) == Err(InvalidLogInput)
    ensures ErrorMessage(CreateLogMessage(level, Num(n), data).error)
            == "Invalid log input. Must be a string or an object."
  {
  }

  /** Non-error level, string input: the message is the input verbatim, and `logInfo`
      is present exactly when `data` has an own key, and then is `data`. */
  lemma StringAtPlainLevel(level: string, msg: string, data: Option<Fields>)
    requires !IsErrorLevel(level)
    ensures var r := CreateLogMessage(level, Str(msg), data);
            && r.Ok?
            && r.value.Keys <= {"message", "logInfo"}
            && r.value["message"] == Str(msg)
            && ("logInfo" in r.value <==> data.Some? && data.value != map[])
            && ("logInfo" in r.value ==> r.value["logInfo"] == Obj(data.value))
  {
    if data.Some? && data.value != map[] {
      var k :| k in data.value;
      assert |data.value| > 0;
    }
  }

  /** Error-class level, string input: `data`'s keys are copied to the top level (a key
      named `message` overriding the message) and no `logInfo` key is made. */
  lemma StringAtErrorLevel(level: string, msg: string, data: Option<Fields>)
    requires IsErrorLevel(level)
    ensures var r := CreateLogMessage(level, Str(msg), data);
            var extra := if data.Some? then data.value else map[];
            && r.Ok?
            && r.value.Keys == {"message"} + extra.Keys
            && (forall k :: k in extra ==> r.value[k] == extra[k])
            && ("message" !in extra ==> r.value["message"] == Str(msg))
            && ("logInfo" in r.value ==> "logInfo" in extra)
  {
  }

  /** Non-error level, object input: the fixed text "Logging object directly", and the
      object itself under `logInfo` when it has an own key. */
  lemma ObjectAtPlainLevel(level: string, obj: Value)
    requires !IsErrorLevel(level) && IsObject(obj)
    ensures forall data: Option<Fields> ::
            var r := CreateLogMessage(level, obj, data);
            && r.Ok?
            && r.value.Keys <= {"message", "logInfo"}
            && r.value["message"] == Str("Logging object directly")
            && ("logInfo" in r.value <==> OwnFields(obj) != map[])
            && ("logInfo" in r.value ==> r.value["logInfo"] == obj)
  {
    if OwnFields(obj) != map[] {
      var k :| k in OwnFields(obj);
      assert |OwnFields(obj)| > 0;
    }
  }

  /** Error-class level, object input: the fixed text "Logging error directly", with the
      object's fields spread at the top level. */
  lemma ObjectAtErrorLevel(level: string, obj: Value)
    requires IsErrorLevel(level) && IsObject(obj)
    ensures forall data: Option<Fields> ::
            var r := CreateLogMessage(level, obj, data);
            && r.Ok?
            && r.value.Keys == {"message"} + OwnFields(obj).Keys
            && (forall k :: k in OwnFields(obj) ==> r.value[k] == OwnFields(obj)[k])
            && ("message" !in OwnFields(obj) ==> r.value["message"] == Str("Logging error directly"))
  {
  }

  /** An object or `data` without own keys contributes nothing: the result is the
      message alone. */
  lemma NothingToAdd(level: string, input: Value, data: Option<Fields>)
    requires input.Str? || IsObject(input)
    requires input.Str? ==> data.None? || data.value == map[]
    requires IsObject(input) ==> OwnFields(input) == map[]
    ensures CreateLogMessage(level, input, data).Ok?
    ensures CreateLogMessage(level, input, data).value.Keys == {"message"}
  {
  }

  /** An `Error` with an own enumerable property (a system error's `code`) is not empty:
      at an error-class level the property is spread next to the message, and at any
      other level the error itself becomes `logInfo`. A bare `new Error(m)` adds
      nothing at either level. */
  lemma ErrorPropertiesReachTheRecord(level: string, m: string, code: string)
    ensures var err := ErrorInstance(m, map["code" := Str(code)]);
            var r := CreateLogMessage(level, err, None);
            && r.Ok?
            && (IsErrorLevel(level) ==>
                  r.value == map["message" := Str("Logging error directly"), "code" := Str(code)])
            && (!IsErrorLevel(level) ==>
                  r.value == map["message" := Str("Logging object directly"), "logInfo" := err])
    ensures var r := CreateLogMessage(level, ErrorInstance(m, map[]), None);
            && r.Ok? && r.value.Keys == {"message"}
  {
    var f := map["code" := Str(code)];
    assert "code" in f;
    assert |f| > 0;
    if IsErrorLevel(level) {
      assert "message"[0] != "code"[0];
      assert map["message" := Str("Logging error directly")] + f
          == map["message" := Str("Logging error directly"), "code" := Str(code)];
    }
  }
}
