/** The Datadog tag grammar `^[a-zA-Z0-9_.-]+:.+$` and the two `addDdtags` policies:
    pino resets to the base pair and skips the call when nothing is valid
    (src/loggers/pinoLogger.ts:97-113); winston always appends
    (src/loggers/winstonLogger.ts:145-154). */
module Tags {
  import opened Js

  predicate IsKeyChar(c: char)
  {
    ('a' <= c <= 'z') || ('A' <= c <= 'Z') || ('0' <= c <= '9') || c == '_' || c == '.' || c == '-'
  }

  /** The characters a JavaScript `.` does not match. */
  predicate IsLineTerminator(c: char)
  {
    c == '\n' || c == '\r' || c == '\U{2028}' || c == '\U{2029}'
  }

  /** Length of the longest run of key characters at the start of `t`: where the greedy
      `[a-zA-Z0-9_.-]+` stops. */
  function KeyRun(t: string): (k: nat)
    ensures k <= |t|
  {
    if |t| > 0 && IsKeyChar(t[0]) then 1 + KeyRun(t[1..]) else 0
  }

  /** The regular expression as its matcher runs it: the key run, then `:`, then one or
      more characters up to the end, none a line terminator. Backtracking into a shorter
      key run cannot help, since the next character would then be a key character and
      not `:`. */
  predicate IsValidTag(t: string)
  {
    var k := KeyRun(t);
    1 <= k && k + 1 < |t| && t[k] == ':'
    && forall j :: k < j < |t| ==> !IsLineTerminator(t[j])
  }

  /** The grammar read declaratively: `t` splits at position `i` into a non-empty key of
      key characters, a colon and a non-empty value without line terminators. */
  ghost predicate SplitsAt(t: string, i: nat)
  {
    && 1 <= i && i + 1 < |t| && t[i] == ':'
    && (forall j :: 0 <= j < i ==> IsKeyChar(t[j]))
    && (forall j :: i < j < |t| ==> !IsLineTerminator(t[j]))
  }

  lemma {:induction false} KeyRunFacts(t: string)
    ensures forall j :: 0 <= j < KeyRun(t) ==> IsKeyChar(t[j])
    ensures KeyRun(t) < |t| ==> !IsKeyChar(t[KeyRun(t)])
  {
    if |t| > 0 && IsKeyChar(t[0]) {
      KeyRunFacts(t[1..]);
      forall j | 0 <= j < KeyRun(t)
        ensures IsKeyChar(t[j])
      {
        if j > 0 {
          assert t[j] == t[1..][j - 1];
        }
      }
    }
  }

  /** The matcher accepts a tag exactly when the grammar splits it, and the split is
      unique: it is at the first colon, since `:` is not a key character. */
  lemma ValidTagIff(t: string)
    ensures IsValidTag(t) <==> exists i: nat :: SplitsAt(t, i)
    ensures forall i: nat, i': nat :: SplitsAt(t, i) && SplitsAt(t, i') ==> i == i'
    ensures IsValidTag(t) ==> SplitsAt(t, KeyRun(t))
  {
    KeyRunFacts(t);
    var k := KeyRun(t);
    forall i: nat | SplitsAt(t, i)
      ensures i == k
    {
      assert !IsKeyChar(t[i]);
    }
    if IsValidTag(t) {
      assert SplitsAt(t, k);
    }
  }

  /** Tags the grammar accepts: the value may itself hold colons. */
  lemma ValidTagExamples()
    ensures IsValidTag("env:prod")
    ensures IsValidTag("url:a:b")
  {
    assert KeyRun("env:prod") == 3 by {
      assert "env:prod"[1..] == "nv:prod";
      assert "nv:prod"[1..] == "v:prod";
      assert "v:prod"[1..] == ":prod";
    }
    assert KeyRun("url:a:b") == 3 by {
      assert "url:a:b"[1..] == "rl:a:b";
      assert "rl:a:b"[1..] == "l:a:b";
      assert "l:a:b"[1..] == ":a:b";
    }
  }

  /** Tags the grammar rejects: no colon, an empty key, an empty value, a space in the
      key, a line break in the value. */
  lemma InvalidTagExamples()
    ensures !IsValidTag("bad")
    ensures !IsValidTag(":value")
    ensures !IsValidTag("key:")
    ensures !IsValidTag("a b:c")
    ensures !IsValidTag("k:a\nb")
  {
    assert KeyRun("bad") == 3 by {
      assert "bad"[1..] == "ad";
      assert "ad"[1..] == "d";
      assert "d"[1..] == "";
    }
    assert KeyRun("key:") == 3 by {
      assert "key:"[1..] == "ey:";
      assert "ey:"[1..] == "y:";
      assert "y:"[1..] == ":";
    }
    assert KeyRun("a b:c") == 1 by {
      assert "a b:c"[1..] == " b:c";
    }
    assert KeyRun("k:a\nb") == 1 by {
      assert "k:a\nb"[1..] == ":a\nb";
    }
    assert "k:a\nb"[3] == '\n';
  }

  /** `tags: string | string[]`. */
  datatype TagsArg = One(tag: string) | Many(tags: seq<string>)

  /** `Array.isArray(tags) ? tags : [tags]`. */
  function AsList(arg: TagsArg): seq<string>
  {
    match arg
    case One(t) => [t]
    case Many(ts) => ts
  }

  /** `tags.filter(tag => pattern.test(tag))`. */
  function FilterValid(tags: seq<string>): (r: seq<string>)
    ensures |r| <= |tags|
    ensures forall t :: t in r ==> IsValidTag(t) && t in tags
    ensures forall t :: t in tags && IsValidTag(t) ==> t in r
  {
    if |tags| == 0 then []
    else if IsValidTag(tags[0]) then [tags[0]] + FilterValid(tags[1..])
    else FilterValid(tags[1..])
  }

  /** Filtering keeps the input order: it distributes over concatenation. */
  lemma {:induction false} FilterValidAppend(a: seq<string>, b: seq<string>)
    ensures FilterValid(a + b) == FilterValid(a) + FilterValid(b)
  {
    if |a| > 0 {
      assert (a + b)[0] == a[0];
      assert (a + b)[1..] == a[1..] + b;
      FilterValidAppend(a[1..], b);
    } else {
      assert a + b == b;
    }
  }

  /** Filtering a list that is already all valid returns it unchanged, and filtering is
      idempotent. */
  lemma {:induction false} FilterValidKeepsValid(tags: seq<string>)
    requires forall t :: t in tags ==> IsValidTag(t)
    ensures FilterValid(tags) == tags
  {
    if |tags| > 0 {
      FilterValidKeepsValid(tags[1..]);
    }
  }

  /** `service:<serviceName>,env:<env>`. */
  function BaseTags(serviceName: string, env: string): string
  {
    "service:" + serviceName + ",env:" + env
  }

  /** The `ddtags` value after pino's `addDdtags` (src/loggers/pinoLogger.ts:97-113). */
  function PinoDdtags(current: string, base: string, arg: TagsArg): string
  {
    var valid := FilterValid(AsList(arg));
    if |valid| == 0 then current else base + "," + Join(valid, ",")
  }

  /** Pino: no valid tag leaves `ddtags` as it was; otherwise the result is the base pair
      followed by exactly the valid tags, earlier custom tags being discarded. */
  lemma PinoDdtagsSpec(current: string, base: string, arg: TagsArg)
    ensures var valid := FilterValid(AsList(arg));
            && (valid == [] ==> PinoDdtags(current, base, arg) == current)
            && (valid != [] ==> PinoDdtags(current, base, arg) == base + "," + Join(valid, ","))
            && (valid != [] ==> PinoDdtags(current, base, arg)[..|base| + 1] == base + ",")
  {
    var valid := FilterValid(AsList(arg));
    if valid != [] {
      var r := base + "," + Join(valid, ",");
      assert r == (base + ",") + Join(valid, ",");
    }
  }

  /** Pino: repeating a call changes nothing more, whatever the tags were before. */
  lemma PinoDdtagsIdempotent(current: string, base: string, arg: TagsArg)
    ensures PinoDdtags(PinoDdtags(current, base, arg), base, arg) == PinoDdtags(current, base, arg)
    ensures forall other: string :: FilterValid(AsList(arg)) != [] ==>
              PinoDdtags(other, base, arg) == PinoDdtags(current, base, arg)
  {
  }

  /** The `ddtags` value after winston's `addDdtags` (src/loggers/winstonLogger.ts:145-154). */
  function WinstonDdtags(current: string, arg: TagsArg): string
  {
    current + "," + Join(FilterValid(AsList(arg)), ",")
  }

  /** A lone tag string is handled exactly as the one-element array holding it, by both
      loggers' `addDdtags`. */
  lemma SingleTagAsList(current: string, base: string, t: string)
    ensures PinoDdtags(current, base, One(t)) == PinoDdtags(current, base, Many([t]))
    ensures WinstonDdtags(current, One(t)) == WinstonDdtags(current, Many([t]))
  {
  }

  /** Winston never resets: the old value is always a prefix, followed by a comma and
      the valid tags; with no valid tag a lone trailing comma is appended. */
  lemma WinstonDdtagsSpec(current: string, arg: TagsArg)
    ensures var r := WinstonDdtags(current, arg);
            && |r| > |current|
            && r[..|current| + 1] == current + ","
            && (FilterValid(AsList(arg)) == [] ==> r == current + ",")
  {
    var r := WinstonDdtags(current, arg);
    assert r == (current + ",") + Join(FilterValid(AsList(arg)), ",");
  }

  /** Winston accumulates: two calls append both calls' valid tags in order. */
  lemma WinstonDdtagsAccumulate(current: string, a: seq<string>, b: seq<string>)
    requires FilterValid(a) != [] && FilterValid(b) != []
    ensures WinstonDdtags(WinstonDdtags(current, Many(a)), Many(b))
            == current + "," + Join(FilterValid(a + b), ",")
  {
    FilterValidAppend(a, b);
    JoinAppend(FilterValid(a), FilterValid(b), ",");
  }

  lemma {:induction false} JoinAppend(a: seq<string>, b: seq<string>, sep: string)
    requires |a| > 0 && |b| > 0
    ensures Join(a + b, sep) == Join(a, sep) + sep + Join(b, sep)
  {
    if |a| == 1 {
      assert (a + b)[1..] == b;
    } else {
      assert (a + b)[1..] == a[1..] + b;
      JoinAppend(a[1..], b, sep);
    }
  }
}
