/**
 * `JSON.parse` undoes `JSON.stringify`: parsing the text the serialiser writes gives back the
 * value, for every value without numbers (the core never serialises a number).
 */
module JsonProofs {
  import opened Wrappers
  import opened Json

  /** The value holds no number anywhere inside it. */
  predicate NumberFree(v: Json)
  {
    match v
    case JNumber(_) => false
    case JArray(xs) => forall i :: 0 <= i < |xs| ==> NumberFree(xs[i])
    case JObject(ms) => forall i :: 0 <= i < |ms| ==> NumberFree(ms[i].value)
    case _ => true
  }

  /** Serialised text starts with a character that opens a literal, a string, an array or an object. */
  lemma SerializeStart(v: Json)
    requires NumberFree(v)
    ensures |Serialize(v)| > 0
    ensures Serialize(v)[0] in {'n', 't', 'f', '"', '[', '{'}
  {
    match v
    case JNull =>
    case JBool(b) =>
    case JString(s) =>
    case JArray(xs) =>
    case JObject(ms) =>
  }

  lemma HexDigitValue(d: nat)
    requires d < 16
    ensures IsHexDigit(HexDigits[d]) && HexValue(HexDigits[d]) == d
  {
  }

  /** Reading one escaped character back gives the character and leaves the text after it. */
  lemma EscapeCharRoundTrip(c: char, t: string)
    ensures (EscapeChar(c) + t)[0] != '"'
    ensures (EscapeChar(c) + t)[0] == '\\' ==>
              ParseEscape((EscapeChar(c) + t)[1..]) == Some((c, t))
    ensures (EscapeChar(c) + t)[0] != '\\' ==>
              !((EscapeChar(c) + t)[0] < ' ') && (EscapeChar(c) + t)[0] == c &&
              (EscapeChar(c) + t)[1..] == t
  {
    if c == '"' || c == '\\' || c == 8 as char || c == '\t' || c == '\n' || c == 12 as char || c == '\r' {
      ShortEscapeRoundTrip(c, t);
    } else if c < ' ' {
      UnicodeEscapeRoundTrip(c, t);
    } else {
      assert EscapeChar(c) + t == [c] + t;
    }
  }

  lemma ShortEscapeRoundTrip(c: char, t: string)
    requires c == '"' || c == '\\' || c == 8 as char || c == '\t' || c == '\n' || c == 12 as char || c == '\r'
    ensures (EscapeChar(c) + t)[0] == '\\'
    ensures ParseEscape((EscapeChar(c) + t)[1..]) == Some((c, t))
  {
    var e := EscapeChar(c);
    assert |e| == 2 && e[0] == '\\';
    assert (e + t)[1..] == [e[1]] + t;
  }

  lemma UnicodeEscapeRoundTrip(c: char, t: string)
    requires c < ' ' && c != 8 as char && c != '\t' && c != '\n' && c != 12 as char && c != '\r'
    ensures (EscapeChar(c) + t)[0] == '\\'
    ensures ParseEscape((EscapeChar(c) + t)[1..]) == Some((c, t))
  {
    var n := c as int;
    HexDigitValue(n / 16);
    HexDigitValue(n % 16);
    var w := ['0', '0', HexDigits[n / 16], HexDigits[n % 16]] + t;
    assert w[4..] == t;
    assert Hex4(w) == Some(n);
    assert ParseUnicodeEscape(w) == Some((c, t));
    assert (EscapeChar(c) + t)[1..] == ['u'] + w;
  }

  /** Parsing an escaped string body and its closing quote gives back the string. */
  lemma {:induction false} StringRoundTrip(s: string, rest: string)
    ensures ParseString(Escape(s) + ("\"" + rest)) == Some((s, rest))
  {
    if s == [] {
      assert Escape(s) + ("\"" + rest) == "\"" + rest;
    } else {
      var t := Escape(s[1..]) + ("\"" + rest);
      Assoc(EscapeChar(s[0]), Escape(s[1..]), "\"" + rest);
      EscapeCharRoundTrip(s[0], t);
      StringRoundTrip(s[1..], rest);
      assert [s[0]] + s[1..] == s;
    }
  }

  lemma Assoc(a: string, b: string, c: string)
    ensures (a + b) + c == a + (b + c)
  {
  }

  // One-step facts about the parsers, each proved in a small context.

  lemma SkipWsNone(s: string)
    requires s != [] && !IsWs(s[0])
    ensures SkipWs(s) == s
  {
  }

  lemma ValueArray(body: string)
    ensures ParseValue("[" + body) == ParseArray(body)
  {
    DropFirst("[", body);
    SkipWsNone("[" + body);
  }

  lemma ValueObject(body: string)
    ensures ParseValue("{" + body) == ParseObject(body)
  {
    DropFirst("{", body);
    SkipWsNone("{" + body);
  }

  lemma ValueString(body: string, str: string, rest: string)
    requires ParseString(body) == Some((str, rest))
    ensures ParseValue("\"" + body) == Some((JString(str), rest))
  {
    DropFirst("\"", body);
    SkipWsNone("\"" + body);
  }

  lemma ArrayEmpty(rest: string)
    ensures ParseArray("]" + rest) == Some((JArray([]), rest))
  {
    DropFirst("]", rest);
    SkipWsNone("]" + rest);
  }

  lemma ObjectEmpty(rest: string)
    ensures ParseObject("}" + rest) == Some((JObject([]), rest))
  {
    DropFirst("}", rest);
    SkipWsNone("}" + rest);
  }

  lemma ArrayItems(body: string, xs: seq<Json>, rest: string)
    requires body != [] && body[0] != ']' && !IsWs(body[0])
    requires ParseElements(body) == Some((xs, rest))
    ensures ParseArray(body) == Some((JArray(xs), rest))
  {
    SkipWsNone(body);
  }

  lemma ObjectMembers(body: string, ms: seq<Member>, rest: string)
    requires body != [] && body[0] != '}' && !IsWs(body[0])
    requires ParseMembers(body) == Some((ms, rest))
    ensures ParseObject(body) == Some((JObject(ms), rest))
  {
    SkipWsNone(body);
  }

  lemma ElementsLast(s: string, v: Json, rest: string)
    requires ParseValue(s) == Some((v, "]" + rest))
    ensures ParseElements(s) == Some(([v], rest))
  {
    DropFirst("]", rest);
    SkipWsNone("]" + rest);
  }

  lemma ElementsMore(s: string, v: Json, next: string, vs: seq<Json>, rest: string)
    requires ParseValue(s) == Some((v, "," + next))
    requires ParseElements(next) == Some((vs, rest))
    ensures ParseElements(s) == Some(([v] + vs, rest))
  {
    DropFirst(",", next);
    SkipWsNone("," + next);
  }

  lemma MembersStep(s: string, m: Member, tail: string)
    requires ParseMember(s) == Some((m, tail))
    ensures ParseMembers(s) == MembersAfter(m, tail)
  {
  }

  lemma MembersAfterLast(m: Member, rest: string)
    ensures MembersAfter(m, "}" + rest) == Some(([m], rest))
  {
    DropFirst("}", rest);
    SkipWsNone("}" + rest);
  }

  lemma MembersAfterMore(m: Member, next: string, ms: seq<Member>, rest: string)
    requires ParseMembers(next) == Some((ms, rest))
    ensures MembersAfter(m, "," + next) == Some(([m] + ms, rest))
  {
    DropFirst(",", next);
    SkipWsNone("," + next);
  }

  lemma MembersLast(s: string, m: Member, rest: string)
    requires ParseMember(s) == Some((m, "}" + rest))
    ensures ParseMembers(s) == Some(([m], rest))
  {
    MembersStep(s, m, "}" + rest);
    MembersAfterLast(m, rest);
  }

  lemma MembersMore(s: string, m: Member, next: string, ms: seq<Member>, rest: string)
    requires ParseMember(s) == Some((m, "," + next))
    requires ParseMembers(next) == Some((ms, rest))
    ensures ParseMembers(s) == Some(([m] + ms, rest))
  {
    MembersStep(s, m, "," + next);
    MembersAfterMore(m, next, ms, rest);
  }

  lemma LiteralRoundTrip(v: Json, rest: string)
    requires v.JNull? || v.JBool?
    ensures ParseValue(Serialize(v) + rest) == Some((v, rest))
  {
    var s := Serialize(v) + rest;
    SkipWsNone(s);
    if v.JNull? {
      assert s[..4] == "null" && s[4..] == rest;
    } else if v.b {
      assert s[..4] == "true" && s[4..] == rest;
    } else {
      assert s[..4] == "fals" && s[..5] == "false" && s[5..] == rest;
    }
  }

  lemma Regroup(q: string, e: string, c: string, v: string, more: string, t: string)
    ensures ((((q + e) + q) + c) + v + more) + t == q + (e + (q + (c + (v + (more + t)))))
  {
  }

  lemma DropFirst(c: string, t: string)
    requires |c| == 1
    ensures (c + t)[0] == c[0] && (c + t)[1..] == t
  {
  }

  /** The text of a single array element and the closing bracket. */
  lemma ItemsOne(xs: seq<Json>, rest: string)
    requires |xs| == 1
    ensures SerializeItems(xs) + ("]" + rest) == Serialize(xs[0]) + ("]" + rest)
  {
  }

  /** The text of several array elements: the first one, a comma, then the others. */
  lemma ItemsCons(xs: seq<Json>, rest: string)
    requires |xs| > 1
    ensures SerializeItems(xs) + ("]" + rest) ==
            Serialize(xs[0]) + ("," + (SerializeItems(xs[1..]) + ("]" + rest)))
  {
    var head, more := Serialize(xs[0]), SerializeItems(xs[1..]);
    assert SerializeItems(xs) == head + ("," + more);
    Assoc(head, "," + more, "]" + rest);
    Assoc(",", more, "]" + rest);
  }

  /** Serialised array elements start with the first character of a value. */
  lemma ItemsFirst(xs: seq<Json>, t: string)
    requires xs != [] && NumberFree(xs[0])
    ensures |SerializeItems(xs) + t| > 0
    ensures (SerializeItems(xs) + t)[0] in {'n', 't', 'f', '"', '[', '{'}
  {
    SerializeStart(xs[0]);
  }

  /** The text of one serialised member followed by `tail`. */
  function MemberText(key: string, v: Json, tail: string): string
  {
    "\"" + (Escape(key) + ("\"" + (":" + (Serialize(v) + tail))))
  }

  /** The text of a single object member and the closing brace. */
  lemma MembersOne(ms: seq<Member>, rest: string)
    requires |ms| == 1
    ensures SerializeMembers(ms) + ("}" + rest) == MemberText(ms[0].key, ms[0].value, "}" + rest)
  {
    var e, sv := Escape(ms[0].key), Serialize(ms[0].value);
    assert SerializeMembers(ms) == (((("\"" + e) + "\"") + ":") + sv) + "";
    Regroup("\"", e, ":", sv, "", "}" + rest);
    assert "" + ("}" + rest) == "}" + rest;
  }

  /** The text of several object members: the first one, a comma, then the others. */
  lemma MembersCons(ms: seq<Member>, rest: string)
    requires |ms| > 1
    ensures SerializeMembers(ms) + ("}" + rest) ==
            MemberText(ms[0].key, ms[0].value, "," + (SerializeMembers(ms[1..]) + ("}" + rest)))
  {
    var e, sv, more := Escape(ms[0].key), Serialize(ms[0].value), SerializeMembers(ms[1..]);
    assert SerializeMembers(ms) == (((("\"" + e) + "\"") + ":") + sv) + ("," + more);
    Regroup("\"", e, ":", sv, "," + more, "}" + rest);
    Assoc(",", more, "}" + rest);
  }

  /** Parsing one serialised member gives back the key and the value. */
  lemma MemberRoundTrip(key: string, v: Json, tail: string)
    requires ParseValue(Serialize(v) + tail) == Some((v, tail))
    ensures ParseMember(MemberText(key, v, tail)) == Some((Member(key, v), tail))
  {
    var afterKey := ":" + (Serialize(v) + tail);
    StringRoundTrip(key, afterKey);
    MemberHead(Escape(key) + ("\"" + afterKey), key, Serialize(v) + tail, v, tail);
  }

  /** A member whose key string and value parse: the member parses. */
  lemma MemberHead(body: string, key: string, after: string, v: Json, rest: string)
    requires ParseString(body) == Some((key, ":" + after))
    requires ParseValue(after) == Some((v, rest))
    ensures ParseMember("\"" + body) == Some((Member(key, v), rest))
  {
    DropFirst("\"", body);
    SkipWsNone("\"" + body);
    DropFirst(":", after);
    SkipWsNone(":" + after);
  }

  /** Parsing the serialised text of a value, followed by anything, gives back the value. */
  lemma {:induction false} ValueRoundTrip(v: Json, rest: string)
    requires NumberFree(v)
    ensures ParseValue(Serialize(v) + rest) == Some((v, rest))
    decreases v, 3
  {
    match v
    case JNull => LiteralRoundTrip(v, rest);
    case JBool(_) => LiteralRoundTrip(v, rest);
    case JString(str) =>
      var e := Escape(str);
      assert Serialize(v) + rest == "\"" + (e + ("\"" + rest)) by {
        Assoc("\"" + e, "\"", rest);
        Assoc("\"", e, "\"" + rest);
      }
      StringRoundTrip(str, rest);
      ValueString(e + ("\"" + rest), str, rest);
    case JArray(xs) => ArrayRoundTrip(xs, rest);
    case JObject(ms) => ObjectRoundTrip(ms, rest);
  }

  lemma {:induction false} ArrayRoundTrip(xs: seq<Json>, rest: string)
    requires forall i :: 0 <= i < |xs| ==> NumberFree(xs[i])
    ensures ParseValue(Serialize(JArray(xs)) + rest) == Some((JArray(xs), rest))
    decreases xs, 2
  {
    var items := SerializeItems(xs);
    var body := items + ("]" + rest);
    assert Serialize(JArray(xs)) + rest == "[" + body by {
      Assoc("[" + items, "]", rest);
      Assoc("[", items, "]" + rest);
    }
    assert ParseArray(body) == Some((JArray(xs), rest)) by {
      if xs == [] {
        assert body == "]" + rest;
        ArrayEmpty(rest);
      } else {
        assert body != [] && body[0] != ']' && !IsWs(body[0]) by {
          ItemsFirst(xs, "]" + rest);
        }
        assert ParseElements(body) == Some((xs, rest)) by {
          ItemsRoundTrip(xs, rest);
        }
        ArrayItems(body, xs, rest);
      }
    }
    ValueArray(body);
  }

  lemma {:induction false} ObjectRoundTrip(ms: seq<Member>, rest: string)
    requires forall i :: 0 <= i < |ms| ==> NumberFree(ms[i].value)
    ensures ParseValue(Serialize(JObject(ms)) + rest) == Some((JObject(ms), rest))
    decreases ms, 2
  {
    var members := SerializeMembers(ms);
    var body := members + ("}" + rest);
    assert Serialize(JObject(ms)) + rest == "{" + body by {
      Assoc("{" + members, "}", rest);
      Assoc("{", members, "}" + rest);
    }
    assert ParseObject(body) == Some((JObject(ms), rest)) by {
      if ms == [] {
        assert body == "}" + rest;
        ObjectEmpty(rest);
      } else {
        assert body != [] && body[0] == '"' by {
          MembersFirst(ms, rest);
        }
        assert ParseMembers(body) == Some((ms, rest)) by {
          MembersRoundTrip(ms, rest);
        }
        ObjectMembers(body, ms, rest);
      }
    }
    ValueObject(body);
  }

  /** Serialised object members start with the quote of the first key. */
  lemma MembersFirst(ms: seq<Member>, rest: string)
    requires ms != []
    ensures |SerializeMembers(ms) + ("}" + rest)| > 0 && (SerializeMembers(ms) + ("}" + rest))[0] == '"'
  {
    if |ms| == 1 {
      MembersOne(ms, rest);
    } else {
      MembersCons(ms, rest);
    }
  }

  /** Parsing serialised array elements and the closing bracket gives back the elements. */
  lemma {:induction false} ItemsRoundTrip(xs: seq<Json>, rest: string)
    requires xs != []
    requires forall i :: 0 <= i < |xs| ==> NumberFree(xs[i])
    ensures ParseElements(SerializeItems(xs) + ("]" + rest)) == Some((xs, rest))
    decreases xs, 1
  {
    if |xs| == 1 {
      LastItemRoundTrip(xs, rest);
    } else {
      MoreItemsRoundTrip(xs, rest);
    }
  }

  lemma {:induction false} LastItemRoundTrip(xs: seq<Json>, rest: string)
    requires |xs| == 1 && NumberFree(xs[0])
    ensures ParseElements(SerializeItems(xs) + ("]" + rest)) == Some((xs, rest))
    decreases xs, 0
  {
    var text := Serialize(xs[0]) + ("]" + rest);
    assert SerializeItems(xs) + ("]" + rest) == text by {
      ItemsOne(xs, rest);
    }
    assert ParseElements(text) == Some(([xs[0]], rest)) by {
      ValueRoundTrip(xs[0], "]" + rest);
      ElementsLast(text, xs[0], rest);
    }
    assert [xs[0]] == xs;
  }

  lemma {:induction false} MoreItemsRoundTrip(xs: seq<Json>, rest: string)
    requires |xs| > 1
    requires forall i :: 0 <= i < |xs| ==> NumberFree(xs[i])
    ensures ParseElements(SerializeItems(xs) + ("]" + rest)) == Some((xs, rest))
    decreases xs, 0
  {
    var ys := xs[1..];
    var next := SerializeItems(ys) + ("]" + rest);
    var text := Serialize(xs[0]) + ("," + next);
    assert SerializeItems(xs) + ("]" + rest) == text by {
      ItemsCons(xs, rest);
    }
    assert ParseElements(text) == Some(([xs[0]] + ys, rest)) by {
      assert ParseValue(text) == Some((xs[0], "," + next)) by {
        ValueRoundTrip(xs[0], "," + next);
      }
      assert ParseElements(next) == Some((ys, rest)) by {
        ItemsRoundTrip(ys, rest);
      }
      ElementsMore(text, xs[0], next, ys, rest);
    }
    assert [xs[0]] + ys == xs;
  }

  /** Parsing serialised object members and the closing brace gives back the members. */
  lemma {:induction false} MembersRoundTrip(ms: seq<Member>, rest: string)
    requires ms != []
    requires forall i :: 0 <= i < |ms| ==> NumberFree(ms[i].value)
    ensures ParseMembers(SerializeMembers(ms) + ("}" + rest)) == Some((ms, rest))
    decreases ms, 1
  {
    if |ms| == 1 {
      LastMemberRoundTrip(ms, rest);
    } else {
      MoreMembersRoundTrip(ms, rest);
    }
  }

  lemma {:induction false} LastMemberRoundTrip(ms: seq<Member>, rest: string)
    requires |ms| == 1 && NumberFree(ms[0].value)
    ensures ParseMembers(SerializeMembers(ms) + ("}" + rest)) == Some((ms, rest))
    decreases ms, 0
  {
    var key, v := ms[0].key, ms[0].value;
    assert SerializeMembers(ms) + ("}" + rest) == MemberText(key, v, "}" + rest) by {
      MembersOne(ms, rest);
    }
    assert ParseMembers(MemberText(key, v, "}" + rest)) == Some(([Member(key, v)], rest)) by {
      ValueRoundTrip(v, "}" + rest);
      MemberThenLast(key, v, rest);
    }
    assert [Member(key, v)] == ms;
  }

  lemma MemberThenLast(key: string, v: Json, rest: string)
    requires ParseValue(Serialize(v) + ("}" + rest)) == Some((v, "}" + rest))
    ensures ParseMembers(MemberText(key, v, "}" + rest)) == Some(([Member(key, v)], rest))
  {
    MemberRoundTrip(key, v, "}" + rest);
    MembersLast(MemberText(key, v, "}" + rest), Member(key, v), rest);
  }

  lemma {:induction false} MoreMembersRoundTrip(ms: seq<Member>, rest: string)
    requires |ms| > 1
    requires forall i :: 0 <= i < |ms| ==> NumberFree(ms[i].value)
    ensures ParseMembers(SerializeMembers(ms) + ("}" + rest)) == Some((ms, rest))
    decreases ms, 0
  {
    var key, v := ms[0].key, ms[0].value;
    var ns := ms[1..];
    var next := SerializeMembers(ns) + ("}" + rest);
    assert SerializeMembers(ms) + ("}" + rest) == MemberText(key, v, "," + next) by {
      MembersCons(ms, rest);
    }
    assert ParseMembers(MemberText(key, v, "," + next)) == Some(([Member(key, v)] + ns, rest)) by {
      ValueRoundTrip(v, "," + next);
      MembersRoundTrip(ns, rest);
      MemberThenMore(key, v, next, ns, rest);
    }
    assert [Member(key, v)] + ns == ms;
  }

  lemma MemberThenMore(key: string, v: Json, next: string, ns: seq<Member>, rest: string)
    requires ParseValue(Serialize(v) + ("," + next)) == Some((v, "," + next))
    requires ParseMembers(next) == Some((ns, rest))
    ensures ParseMembers(MemberText(key, v, "," + next)) == Some(([Member(key, v)] + ns, rest))
  {
    MemberRoundTrip(key, v, "," + next);
    MembersMore(MemberText(key, v, "," + next), Member(key, v), next, ns, rest);
  }

  /** `JSON.parse(JSON.stringify(v))` is `v`. */
  lemma ParseSerialize(v: Json)
    requires NumberFree(v)
    ensures Parse(Serialize(v)) == Some(v)
  {
    ValueRoundTrip(v, "");
    assert Serialize(v) + "" == Serialize(v);
  }
}
