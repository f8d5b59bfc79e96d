/**
 * JSON values as JavaScript's `JSON.parse` produces them and `JSON.stringify` writes them.
 *
 * `Serialize` follows `JSON.stringify` without indentation: no whitespace, members in order,
 * strings quoted with the escapes of ECMAScript's QuoteJSONString. `Parse` follows the JSON
 * grammar that `JSON.parse` accepts: the four whitespace characters, the three literals,
 * numbers, strings with all escapes, arrays and objects, and nothing after the value but
 * whitespace.
 */
module Json {
  import opened Wrappers

  /** A parsed JSON value. A number keeps its lexeme; an object keeps its members in text order. */
  datatype Json =
    | JNull
    | JBool(b: bool)
    | JNumber(lexeme: string)
    | JString(s: string)
    | JArray(items: seq<Json>)
    | JObject(members: seq<Member>)

  datatype Member = Member(key: string, value: Json)

  /** JavaScript truthiness of the value `JSON.parse` builds: `null`, `false`, `""` and zero are falsy. */
  predicate Truthy(v: Json)
  {
    match v
    case JNull => false
    case JBool(b) => b
    case JNumber(lexeme) => MantissaNonZero(lexeme)
    case JString(s) => s != ""
    case JArray(_) => true
    case JObject(_) => true
  }

  /** Some digit before the exponent of a number lexeme is not `0`. */
  predicate MantissaNonZero(lexeme: string)
  {
    if lexeme == [] || lexeme[0] == 'e' || lexeme[0] == 'E' then false
    else ('1' <= lexeme[0] <= '9') || MantissaNonZero(lexeme[1..])
  }

  /**
   * Property access `obj[key]` on an object built by `JSON.parse`: when a key is repeated
   * the last member wins; a missing key reads as `undefined`.
   */
  function Property(ms: seq<Member>, key: string): (r: Option<Json>)
    ensures r == None <==> forall i :: 0 <= i < |ms| ==> ms[i].key != key
    ensures r.Some? ==> exists i :: 0 <= i < |ms| && ms[i] == Member(key, r.value) &&
                                    forall j :: i < j < |ms| ==> ms[j].key != key
  {
    if ms == [] then None
    else if ms[|ms| - 1].key == key then Some(ms[|ms| - 1].value)
    else Property(ms[..|ms| - 1], key)
  }

  // ---------------------------------------------------------------------------------------
  // Serialisation (JSON.stringify)
  // ---------------------------------------------------------------------------------------

  const HexDigits: string := "0123456789abcdef"

  /** The escaped form of one character inside a JSON string literal. */
  function EscapeChar(c: char): (r: string)
    ensures |r| > 0
    ensures r[0] == '\\' <==> (c == '"' || c == '\\' || c < ' ')
  {
    if c == '"' then "\\\""
    else if c == '\\' then "\\\\"
    else if c == 8 as char then "\\b"
    else if c == '\t' then "\\t"
    else if c == '\n' then "\\n"
    else if c == 12 as char then "\\f"
    else if c == '\r' then "\\r"
    else if c < ' ' then "\\u00" + [HexDigits[c as int / 16], HexDigits[c as int % 16]]
    else [c]
  }

  function Escape(s: string): string
  {
    if s == [] then [] else EscapeChar(s[0]) + Escape(s[1..])
  }

  /** A JSON string literal holding `s`. */
  function Quote(s: string): string
  {
    "\"" + Escape(s) + "\""
  }

  function Serialize(v: Json): string
  {
    match v
    case JNull => "null"
    case JBool(b) => if b then "true" else "false"
    case JNumber(lexeme) => lexeme
    case JString(s) => Quote(s)
    case JArray(items) => "[" + SerializeItems(items) + "]"
    case JObject(members) => "{" + SerializeMembers(members) + "}"
  }

  /** Array elements separated by commas. */
  function SerializeItems(xs: seq<Json>): string
  {
    if xs == [] then ""
    else Serialize(xs[0]) + (if |xs| == 1 then "" else "," + SerializeItems(xs[1..]))
  }

  /** Object members `"key":value` separated by commas. */
  function SerializeMembers(ms: seq<Member>): string
  {
    if ms == [] then ""
    else Quote(ms[0].key) + ":" + Serialize(ms[0].value) +
         (if |ms| == 1 then "" else "," + SerializeMembers(ms[1..]))
  }

  // ---------------------------------------------------------------------------------------
  // Parsing (JSON.parse)
  //
  // Each parser takes the remaining text and returns what it read together with the text
  // after it; each consumes at least one character, which is what makes the mutual
  // recursion terminate.
  // ---------------------------------------------------------------------------------------

  predicate IsWs(c: char)
  {
    c == ' ' || c == '\t' || c == '\n' || c == '\r'
  }

  predicate IsDigit(c: char)
  {
    '0' <= c <= '9'
  }

  function SkipWs(s: string): (r: string)
    ensures |r| <= |s| && r == s[|s| - |r|..]
    ensures r == [] || !IsWs(r[0])
  {
    if s != [] && IsWs(s[0]) then SkipWs(s[1..]) else s
  }

  /** The number of leading decimal digits of `s`. */
  function DigitRun(s: string): (n: nat)
    ensures n <= |s|
    ensures forall i :: 0 <= i < n ==> IsDigit(s[i])
    ensures n < |s| ==> !IsDigit(s[n])
  {
    if s != [] && IsDigit(s[0]) then 1 + DigitRun(s[1..]) else 0
  }

  /** The length of the exponent part `[eE][+-]?digits` at offset `i`, 0 when absent, None when malformed. */
  function ExponentLength(s: string, i: nat): (r: Option<nat>)
    requires i <= |s|
    ensures r.Some? ==> i + r.value <= |s|
  {
    if i < |s| && (s[i] == 'e' || s[i] == 'E') then
      var j := if i + 1 < |s| && (s[i + 1] == '+' || s[i + 1] == '-') then i + 2 else i + 1;
      var d := DigitRun(s[j..]);
      if d == 0 then None else Some(j + d - i)
    else Some(0)
  }

  /** The length of the number lexeme `-?(0|[1-9][0-9]*)(.[0-9]+)?([eE][+-]?[0-9]+)?` at the start of `s`. */
  function NumberLength(s: string): (r: Option<nat>)
    ensures r.Some? ==> 0 < r.value <= |s|
  {
    var i := if s != [] && s[0] == '-' then 1 else 0;
    if i >= |s| || !IsDigit(s[i]) then None
    else
      var k := if s[i] == '0' then i + 1 else i + DigitRun(s[i..]);
      if k < |s| && s[k] == '.' then
        var d := DigitRun(s[k + 1..]);
        if d == 0 then None
        else
          match ExponentLength(s, k + 1 + d)
          case None => None
          case Some(e) => Some(k + 1 + d + e)
      else
        match ExponentLength(s, k)
        case None => None
        case Some(e) => Some(k + e)
  }

  predicate IsHexDigit(c: char)
  {
    '0' <= c <= '9' || 'a' <= c <= 'f' || 'A' <= c <= 'F'
  }

  function HexValue(c: char): (n: nat)
    requires IsHexDigit(c)
    ensures n < 16
  {
    if '0' <= c <= '9' then c as int - '0' as int
    else if 'a' <= c <= 'f' then c as int - 'a' as int + 10
    else c as int - 'A' as int + 10
  }

  /** The code unit written by four hex digits at the start of `s`. */
  function Hex4(s: string): (r: Option<nat>)
    ensures r.Some? ==> r.value < 0x10000
  {
    if |s| >= 4 && IsHexDigit(s[0]) && IsHexDigit(s[1]) && IsHexDigit(s[2]) && IsHexDigit(s[3]) then
      Some(HexValue(s[0]) * 4096 + HexValue(s[1]) * 256 + HexValue(s[2]) * 16 + HexValue(s[3]))
    else None
  }

  /**
   * The character written by a `\u` escape whose four hex digits start `s`. A high surrogate
   * must be followed by `\u` and a low surrogate; the pair is one character.
   */
  function ParseUnicodeEscape(s: string): (r: Option<(char, string)>)
    ensures r.Some? ==> |r.value.1| < |s|
  {
    match Hex4(s)
    case None => None
    case Some(hi) =>
      if hi < 0xD800 || 0xE000 <= hi then Some((hi as char, s[4..]))
      else if 0xDC00 <= hi then None
      else if |s| >= 6 && s[4] == '\\' && s[5] == 'u' then
        match Hex4(s[6..])
        case Some(lo) =>
          if 0xDC00 <= lo < 0xE000
          then Some(((0x10000 + (hi - 0xD800) * 0x400 + (lo - 0xDC00)) as char, s[10..]))
          else None
        case None => None
      else None
  }

  /** The character written by the escape sequence after a backslash. */
  function ParseEscape(s: string): (r: Option<(char, string)>)
    ensures r.Some? ==> |r.value.1| < |s|
  {
    if s == [] then None
    else if s[0] == '"' then Some(('"', s[1..]))
    else if s[0] == '\\' then Some(('\\', s[1..]))
    else if s[0] == '/' then Some(('/', s[1..]))
    else if s[0] == 'b' then Some((8 as char, s[1..]))
    else if s[0] == 'f' then Some((12 as char, s[1..]))
    else if s[0] == 'n' then Some(('\n', s[1..]))
    else if s[0] == 'r' then Some(('\r', s[1..]))
    else if s[0] == 't' then Some(('\t', s[1..]))
    else if s[0] == 'u' then ParseUnicodeEscape(s[1..])
    else None
  }

  /** The body of a string literal after its opening quote, up to and including the closing quote. */
  function ParseString(s: string): (r: Option<(string, string)>)
    ensures r.Some? ==> |r.value.1| < |s|
    decreases |s|, 1
  {
    if s == [] then None
    else if s[0] == '"' then Some(([], s[1..]))
    else if s[0] == '\\' then ParseEscaped(s[1..])
    else if s[0] < ' ' then None
    else
      match ParseString(s[1..])
      case None => None
      case Some((tail, rest)) => Some(([s[0]] + tail, rest))
  }

  /** The rest of a string literal whose next character is written by the escape after a backslash. */
  function ParseEscaped(s: string): (r: Option<(string, string)>)
    ensures r.Some? ==> |r.value.1| < |s|
    decreases |s|, 0
  {
    match ParseEscape(s)
    case None => None
    case Some((c, t)) =>
      match ParseString(t)
      case None => None
      case Some((tail, rest)) => Some(([c] + tail, rest))
  }

  /** A value, after optional whitespace. */
  function ParseValue(s: string): (r: Option<(Json, string)>)
    ensures r.Some? ==> |r.value.1| < |s|
    decreases |s|, 0
  {
    var t := SkipWs(s);
    if t == [] then None
    else if t[0] == '{' then ParseObject(t[1..])
    else if t[0] == '[' then ParseArray(t[1..])
    else if t[0] == '"' then
      match ParseString(t[1..])
      case None => None
      case Some((str, rest)) => Some((JString(str), rest))
    else if Literal(t, "null") then Some((JNull, t[4..]))
    else if Literal(t, "true") then Some((JBool(true), t[4..]))
    else if Literal(t, "false") then Some((JBool(false), t[5..]))
    else
      match NumberLength(t)
      case None => None
      case Some(n) => Some((JNumber(t[..n]), t[n..]))
  }

  /** `t` starts with the keyword `word`. */
  predicate Literal(t: string, word: string)
    ensures Literal(t, word) ==> |word| <= |t|
  {
    |word| <= |t| && t[..|word|] == word
  }

  /** An array's elements after its `[`, up to and including its `]`. */
  function ParseArray(s: string): (r: Option<(Json, string)>)
    ensures r.Some? ==> |r.value.1| < |s|
    decreases |s|, 2
  {
    var t := SkipWs(s);
    if t != [] && t[0] == ']' then Some((JArray([]), t[1..]))
    else
      match ParseElements(t)
      case None => None
      case Some((xs, rest)) => Some((JArray(xs), rest))
  }

  /** One or more comma-separated values, up to and including the closing `]`. */
  function ParseElements(s: string): (r: Option<(seq<Json>, string)>)
    ensures r.Some? ==> |r.value.1| < |s|
    decreases |s|, 1
  {
    match ParseValue(s)
    case None => None
    case Some((v, rest)) =>
      var t := SkipWs(rest);
      if t != [] && t[0] == ']' then Some(([v], t[1..]))
      else if t != [] && t[0] == ',' then
        match ParseElements(t[1..])
        case None => None
        case Some((vs, rest')) => Some(([v] + vs, rest'))
      else None
  }

  /** An object's members after its `{`, up to and including its `}`. */
  function ParseObject(s: string): (r: Option<(Json, string)>)
    ensures r.Some? ==> |r.value.1| < |s|
    decreases |s|, 2
  {
    var t := SkipWs(s);
    if t != [] && t[0] == '}' then Some((JObject([]), t[1..]))
    else
      match ParseMembers(t)
      case None => None
      case Some((ms, rest)) => Some((JObject(ms), rest))
  }

  /** One or more comma-separated members, up to and including the closing `}`. */
  function ParseMembers(s: string): (r: Option<(seq<Member>, string)>)
    ensures r.Some? ==> |r.value.1| < |s|
    decreases |s|, 1
  {
    match ParseMember(s)
    case None => None
    case Some((m, rest)) => MembersAfter(m, rest)
  }

  /** What follows member `m`: the closing `}`, or a comma and more members. */
  function MembersAfter(m: Member, s: string): (r: Option<(seq<Member>, string)>)
    ensures r.Some? ==> |r.value.1| < |s|
    decreases |s|, 0
  {
    var t := SkipWs(s);
    if t != [] && t[0] == '}' then Some(([m], t[1..]))
    else if t != [] && t[0] == ',' then
      match ParseMembers(t[1..])
      case None => None
      case Some((ms, rest)) => Some(([m] + ms, rest))
    else None
  }

  /** One `"key": value` member, after optional whitespace. */
  function ParseMember(s: string): (r: Option<(Member, string)>)
    ensures r.Some? ==> |r.value.1| < |s|
    decreases |s|, 0
  {
    var t := SkipWs(s);
    if t == [] || t[0] != '"' then None
    else
      match ParseString(t[1..])
      case None => None
      case Some((key, afterKey)) =>
        var u := SkipWs(afterKey);
        if u == [] || u[0] != ':' then None
        else
          match ParseValue(u[1..])
          case None => None
          case Some((v, rest)) => Some((Member(key, v), rest))
  }

  /** `JSON.parse(s)`: a value surrounded by nothing but whitespace, or None where it throws. */
  function Parse(s: string): Option<Json>
  {
    match ParseValue(s)
    case None => None
    case Some((v, rest)) => if SkipWs(rest) == [] then Some(v) else None
  }
}
