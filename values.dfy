/**
 * Values shared by every part of the model: an optional value, the parsed
 * JSON values that travel over the wire, JavaScript truthiness of those
 * values, and the few string operations the library performs on tokens,
 * event names and HTTP verbs.
 */
module Values {

  /** A value that may be absent (`undefined` in the library). */
  datatype Option<+T> = None | Some(value: T) {

    /** The value, or `default` when absent: the library's `x ?? default`. */
    function GetOr(default: T): T {
      match this
      case Some(v) => v
      case None => default
    }
  }

  /** A failure carrying a message, or a success carrying a value. */
  datatype Result<+T> = Ok(value: T) | Err(message: string)

  /**
   * A value produced by `JSON.parse`. Numbers are integral: the library only
   * exchanges integral numbers (opcodes, sequence numbers, intervals, ids).
   * An object keeps its members in textual order, duplicates included.
   */
  datatype Json =
    | JNull
    | JBool(b: bool)
    | JNum(n: int)
    | JStr(s: string)
    | JArr(items: seq<Json>)
    | JObj(fields: seq<(string, Json)>)

  /** JavaScript truthiness: `null`, `false`, `0` and `""` are falsy. */
  predicate Truthy(j: Json) {
    match j
    case JNull => false
    case JBool(b) => b
    case JNum(n) => n != 0
    case JStr(s) => s != ""
    case JArr(_) => true
    case JObj(_) => true
  }

  /** The value of the last member named `key`, which is what `JSON.parse` keeps. */
  function LastValue(fields: seq<(string, Json)>, key: string): (r: Json)
    ensures r != JNull ==> (key, r) in fields
    ensures (forall i :: 0 <= i < |fields| ==> fields[i].0 != key) ==> r == JNull
    ensures |fields| > 0 && fields[|fields| - 1].0 == key ==> r == fields[|fields| - 1].1
    decreases |fields|
  {
    if |fields| == 0 then JNull
    else if fields[|fields| - 1].0 == key then fields[|fields| - 1].1
    else LastValue(fields[..|fields| - 1], key)
  }

  /** The value of the last member named `key` is found at that member's position. */
  lemma {:induction false} LastValueAt(fields: seq<(string, Json)>, key: string, i: nat)
    requires i < |fields| && fields[i].0 == key
    requires forall j :: i < j < |fields| ==> fields[j].0 != key
    ensures LastValue(fields, key) == fields[i].1
    decreases |fields|
  {
    if i < |fields| - 1 {
      LastValueAt(fields[..|fields| - 1], key, i);
    }
  }

  /**
   * `j.key` on a parsed value. A missing member (`undefined`) is represented
   * by `JNull`; members of non-objects are missing.
   */
  function Member(j: Json, key: string): (r: Json)
    ensures !j.JObj? ==> r == JNull
    ensures j.JObj? && r != JNull ==> (key, r) in j.fields
  {
    match j
    case JObj(fields) => LastValue(fields, key)
    case _ => JNull
  }

  /**
   * The characters `String.prototype.trim` removes: ECMAScript WhiteSpace
   * (tab, vertical tab, form feed, space, no-break space, byte order mark and
   * the Zs category) and LineTerminator (line feed, carriage return, line and
   * paragraph separators).
   */
  predicate IsSpace(c: char) {
    c == '\t' || c == '\n' || c == '\U{000B}' || c == '\U{000C}' || c == '\r' || c == ' '
    || c == '\U{00A0}' || c == '\U{1680}' || ('\U{2000}' <= c <= '\U{200A}')
    || c == '\U{2028}' || c == '\U{2029}' || c == '\U{202F}' || c == '\U{205F}'
    || c == '\U{3000}' || c == '\U{FEFF}'
  }

  /** The number of white-space characters at the start of `s`. */
  function LeadingSpace(s: string): (n: nat)
    ensures n <= |s|
    ensures forall k :: 0 <= k < n ==> IsSpace(s[k])
    ensures n < |s| ==> !IsSpace(s[n])
    decreases |s|
  {
    if |s| > 0 && IsSpace(s[0]) then 1 + LeadingSpace(s[1..]) else 0
  }

  /** The number of white-space characters at the end of `s`. */
  function TrailingSpace(s: string): (n: nat)
    ensures n <= |s|
    ensures forall k :: |s| - n <= k < |s| ==> IsSpace(s[k])
    ensures n < |s| ==> !IsSpace(s[|s| - n - 1])
    decreases |s|
  {
    if |s| > 0 && IsSpace(s[|s| - 1]) then 1 + TrailingSpace(s[..|s| - 1]) else 0
  }

  /** `s.trim()`: `s` without its leading and trailing white space. */
  function Trim(s: string): (r: string)
    ensures LeadingSpace(s) + |r| <= |s| && r == s[LeadingSpace(s)..LeadingSpace(s) + |r|]
    ensures forall k :: 0 <= k < LeadingSpace(s) ==> IsSpace(s[k])
    ensures forall k :: LeadingSpace(s) + |r| <= k < |s| ==> IsSpace(s[k])
    ensures |r| > 0 ==> !IsSpace(r[0]) && !IsSpace(r[|r| - 1])
  {
    var rest := s[LeadingSpace(s)..];
    rest[..|rest| - TrailingSpace(rest)]
  }

  /** Trimming twice is trimming once. */
  lemma TrimIdempotent(s: string)
    ensures Trim(Trim(s)) == Trim(s)
  {
    var r := Trim(s);
    assert LeadingSpace(r) == 0;
    assert TrailingSpace(r[LeadingSpace(r)..]) == 0;
  }

  /** The credential sent to Discord for a bot token: `Bot ${token.trim()}`. */
  function BotAuthorization(token: string): (r: string)
    ensures |r| >= 4 && r[..4] == "Bot " && r[4..] == Trim(token)
  {
    "Bot " + Trim(token)
  }

  /** The token can be read back from the credential, and re-trimming it changes nothing. */
  lemma BotAuthorizationTrimmed(token: string)
    ensures Trim(BotAuthorization(token)[4..]) == BotAuthorization(token)[4..] == Trim(token)
  {
    TrimIdempotent(token);
  }

  /** ASCII lower-casing of one character. */
  function LowerChar(c: char): (d: char)
    ensures 'A' <= c <= 'Z' ==> 'a' <= d <= 'z'
    ensures !('A' <= c <= 'Z') ==> d == c
  {
    if 'A' <= c <= 'Z' then (c as int - 'A' as int + 'a' as int) as char else c
  }

  /** ASCII upper-casing of one character. */
  function UpperChar(c: char): (d: char)
    ensures 'a' <= c <= 'z' ==> 'A' <= d <= 'Z'
    ensures !('a' <= c <= 'z') ==> d == c
  {
    if 'a' <= c <= 'z' then (c as int - 'a' as int + 'A' as int) as char else c
  }

  /** `s.toLowerCase()` on the ASCII letters. */
  function Lower(s: string): (r: string)
    ensures |r| == |s| && forall i :: 0 <= i < |s| ==> r[i] == LowerChar(s[i])
  {
    seq(|s|, i requires 0 <= i < |s| => LowerChar(s[i]))
  }

  /** `s.toUpperCase()` on the ASCII letters. */
  function Upper(s: string): (r: string)
    ensures |r| == |s| && forall i :: 0 <= i < |s| ==> r[i] == UpperChar(s[i])
  {
    seq(|s|, i requires 0 <= i < |s| => UpperChar(s[i]))
  }

  /** `xs.join(sep)`. */
  function Join(xs: seq<string>, sep: string): string
    decreases |xs|
  {
    if |xs| == 0 then ""
    else if |xs| == 1 then xs[0]
    else xs[0] + sep + Join(xs[1..], sep)
  }

  /** Concatenation of a list of strings. */
  function Concat(xs: seq<string>): string
    decreases |xs|
  {
    if |xs| == 0 then "" else xs[0] + Concat(xs[1..])
  }

  /** The decimal digits of `n`. */
  function Digits(n: nat): (r: string)
    ensures |r| > 0 && forall i :: 0 <= i < |r| ==> '0' <= r[i] <= '9'
    decreases n
  {
    var d := ['0' + (n % 10) as char];
    if n < 10 then d else Digits(n / 10) + d
  }

  /** The number a string of decimal digits denotes. */
  function DigitsValue(s: string): nat
    requires forall i :: 0 <= i < |s| ==> '0' <= s[i] <= '9'
    decreases |s|
  {
    if |s| == 0 then 0 else DigitsValue(s[..|s| - 1]) * 10 + (s[|s| - 1] - '0') as int
  }

  /** The digits of `n` denote `n`, with no leading zero. */
  lemma {:induction false} DigitsRoundTrip(n: nat)
    ensures DigitsValue(Digits(n)) == n
    ensures Digits(n)[0] == '0' ==> n == 0 && Digits(n) == "0"
    decreases n
  {
    var d := ['0' + (n % 10) as char];
    if n >= 10 {
      DigitsRoundTrip(n / 10);
      var r := Digits(n / 10) + d;
      assert r[..|r| - 1] == Digits(n / 10);
      assert r[0] == Digits(n / 10)[0];
    }
  }

  /** `${n}` for an integer. */
  function IntToString(n: int): string {
    if n < 0 then "-" + Digits(-n) else Digits(n)
  }

  /** The text of an integer is a minus sign exactly for a negative one, then the digits of its magnitude. */
  lemma IntToStringRoundTrip(n: int)
    ensures var t := IntToString(n);
            && |t| > 0
            && (t[0] == '-' <==> n < 0)
            && (n < 0 ==> DigitsValue(t[1..]) == -n)
            && (n >= 0 ==> DigitsValue(t) == n)
  {
    if n < 0 {
      DigitsRoundTrip(-n);
      assert IntToString(n)[1..] == Digits(-n);
    } else {
      DigitsRoundTrip(n);
    }
  }

  /** The larger of two integers: `Math.max`. */
  function Max(a: int, b: int): (m: int)
    ensures m >= a && m >= b && (m == a || m == b)
  {
    if a >= b then a else b
  }
}
