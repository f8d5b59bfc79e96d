/**
 * The language-model side of the bot: turning chat history into a prompt, asking the
 * completion service with one fallback, and normalising the text it answers.
 */
module Gpt {
  import opened Wrappers
  import opened Text
  import opened Json
  import opened JsonProofs
  import opened Messages

  // ---------------------------------------------------------------------------------------
  // Prompt entries and requests
  // ---------------------------------------------------------------------------------------

  datatype Role = System | User | Assistant

  /** One `{role, content}` entry of a chat-completion request. */
  datatype PromptEntry = PromptEntry(role: Role, content: string)

  /** One chat-completion request: the model asked and the messages sent. */
  datatype Request = Request(model: string, messages: seq<PromptEntry>)

  const PrimaryModel: string := "gpt-4"
  const FallbackModels: seq<string> := ["gpt-3.5-turbo-16k", "gpt-3.5-turbo"]

  /**
   * The messages of every request: the fixed system message first, then the prompt.
   * The system message's wording (the persona) is a parameter of the model.
   */
  function RequestMessages(persona: string, prompt: seq<PromptEntry>): (r: seq<PromptEntry>)
    ensures |r| == |prompt| + 1
    ensures r[0] == PromptEntry(System, persona)
    ensures forall i :: 0 <= i < |prompt| ==> r[i + 1] == prompt[i]
  {
    [PromptEntry(System, persona)] + prompt
  }

  // ---------------------------------------------------------------------------------------
  // The Content record (`class Content`) and its serialisation
  // ---------------------------------------------------------------------------------------

  /** The `quotedMsg` field: the quoted sender's display name and id, when known, and its text. */
  datatype QuotedInfo = QuotedInfo(user: Option<string>, id: Option<string>, message: string)

  /** A member holding a string, written only when the value is defined (`JSON.stringify` drops `undefined`). */
  function OptionalMember(key: string, value: Option<string>): (r: seq<Member>)
    ensures value.None? ==> r == []
    ensures value.Some? ==> r == [Member(key, JString(value.value))]
  {
    match value
    case None => []
    case Some(s) => [Member(key, JString(s))]
  }

  function QuotedJson(q: QuotedInfo): Json
  {
    JObject(OptionalMember("user", q.user) + OptionalMember("id", q.id) +
            [Member("message", JString(q.message))])
  }

  /**
   * The object `JSON.stringify` writes for a Content record. Fields appear in the order they
   * were first assigned: `date, user, id, message`, then `isReply` and `quotedMsg`, then
   * `attachment`; fields never assigned or holding `undefined` are left out.
   */
  function ContentObject(date: string, user: string, id: Option<string>, message: string,
                         isReply: bool, quotedMsg: Option<QuotedInfo>, attachment: Option<string>): Json
  {
    JObject([Member("date", JString(date)), Member("user", JString(user))] +
            OptionalMember("id", id) +
            [Member("message", JString(message))] +
            (if isReply then [Member("isReply", JBool(true))] else []) +
            (match quotedMsg case None => [] case Some(q) => [Member("quotedMsg", QuotedJson(q))]) +
            OptionalMember("attachment", attachment))
  }

  /** The sender name: the display name when it is a non-empty string, else `from`. */
  function UserOf(m: Message): (r: string)
    ensures (m.notifyName.Some? && m.notifyName.value != "") ==> r == m.notifyName.value
    ensures !(m.notifyName.Some? && m.notifyName.value != "") ==> r == m.from
  {
    if m.notifyName.Some? && m.notifyName.value != "" then m.notifyName.value else m.from
  }

  /** The attachment kind: the message type up to its first `_`, or all of it. */
  function MediaKind(mediaType: string): (r: string)
    ensures |r| <= |mediaType| && r == mediaType[..|r|] && '_' !in r
    ensures |r| < |mediaType| ==> mediaType[|r|] == '_'
  {
    FirstSegment(mediaType, '_')
  }

  function QuotedInfoOf(q: Message): QuotedInfo
  {
    QuotedInfo(q.notifyName, q.author, q.body)
  }

  /** A JSON value with no number anywhere: what every Content record is. */
  lemma ContentObjectNumberFree(date: string, user: string, id: Option<string>, message: string,
                                isReply: bool, quotedMsg: Option<QuotedInfo>, attachment: Option<string>)
    ensures NumberFree(ContentObject(date, user, id, message, isReply, quotedMsg, attachment))
  {
    var v := ContentObject(date, user, id, message, isReply, quotedMsg, attachment);
    if quotedMsg.Some? {
      assert NumberFree(QuotedJson(quotedMsg.value));
    }
    assert forall i :: 0 <= i < |v.members| ==> NumberFree(v.members[i].value);
  }

  /** The Content record of a user message, as `transformChatForGPT` builds it. */
  class Content {
    var date: string
    var user: string
    var id: Option<string>
    var message: string
    var isReply: bool
    var quotedMsg: Option<QuotedInfo>
    var attachment: Option<string>

    constructor (msg: Message)
      ensures date == msg.date && user == UserOf(msg) && id == msg.author && message == msg.body
      ensures !isReply && quotedMsg == None && attachment == None
    {
      date := msg.date;
      user := UserOf(msg);
      id := msg.author;
      message := msg.body;
      isReply := false;
      quotedMsg := None;
      attachment := None;
    }

    method AddQuotedInfo(quoted: Message)
      modifies this
      ensures isReply && quotedMsg == Some(QuotedInfoOf(quoted))
      ensures date == old(date) && user == old(user) && id == old(id) && message == old(message)
      ensures attachment == old(attachment)
    {
      isReply := true;
      quotedMsg := Some(QuotedInfoOf(quoted));
    }

    method AddAttachmentInfo(msg: Message)
      modifies this
      ensures attachment == Some(MediaKind(msg.mediaType))
      ensures date == old(date) && user == old(user) && id == old(id) && message == old(message)
      ensures isReply == old(isReply) && quotedMsg == old(quotedMsg)
    {
      attachment := Some(MediaKind(msg.mediaType));
    }

    function ToJson(): Json
      reads this
    {
      ContentObject(date, user, id, message, isReply, quotedMsg, attachment)
    }

    /** `toString`: the record's JSON text inside square brackets, i.e. a one-element array. */
    function ToString(): (r: string)
      reads this
      ensures Parse(r) == Some(JArray([ToJson()]))
    {
      ContentObjectNumberFree(date, user, id, message, isReply, quotedMsg, attachment);
      WrappedParses(ToJson());
      "[" + Serialize(ToJson()) + "]"
    }
  }

  // ---------------------------------------------------------------------------------------
  // transformChatForGPT
  // ---------------------------------------------------------------------------------------

  /** The Content record built for a message that is not the bot's own. */
  function ContentJson(m: Message): Json
  {
    ContentObject(m.date, UserOf(m), m.author, m.body, m.quoted.Some?,
                  if m.quoted.Some? then Some(QuotedInfoOf(m.quoted.value)) else None,
                  if m.hasMedia then Some(MediaKind(m.mediaType)) else None)
  }

  /** The text of a user entry. */
  function ContentText(m: Message): string
  {
    "[" + Serialize(ContentJson(m)) + "]"
  }

  /** The prompt entry of one message: the bot's own messages are assistant turns. */
  function EntryFor(m: Message): PromptEntry
  {
    if m.fromMe then PromptEntry(Assistant, m.body) else PromptEntry(User, ContentText(m))
  }

  /** The prompt of a message list: one entry per message, in order. */
  function Prompt(messages: seq<Message>): (r: seq<PromptEntry>)
    ensures |r| == |messages|
    ensures forall i :: 0 <= i < |messages| ==> r[i] == EntryFor(messages[i])
  {
    if messages == [] then [] else [EntryFor(messages[0])] + Prompt(messages[1..])
  }

  /** `transformChatForGPT`: one entry per message, in order. */
  method TransformChatForGpt(messages: seq<Message>) returns (chat: seq<PromptEntry>)
    ensures chat == Prompt(messages)
  {
    chat := [];
    var k := 0;
    while k < |messages|
      invariant 0 <= k <= |messages|
      invariant |chat| == k
      invariant forall i :: 0 <= i < k ==> chat[i] == EntryFor(messages[i])
    {
      var msg := messages[k];
      if msg.fromMe {
        chat := chat + [PromptEntry(Assistant, msg.body)];
      } else {
        var content := new Content(msg);
        if msg.quoted.Some? {
          content.AddQuotedInfo(msg.quoted.value);
        }
        if msg.hasMedia {
          content.AddAttachmentInfo(msg);
        }
        assert content.ToJson() == ContentJson(msg);
        chat := chat + [PromptEntry(User, content.ToString())];
      }
      k := k + 1;
    }
  }

  /** The bot's own messages become assistant turns holding the body unchanged. */
  lemma OwnMessageEntry(m: Message)
    requires m.fromMe
    ensures EntryFor(m) == PromptEntry(Assistant, m.body)
  {
  }

  /** Any other message becomes a user turn whose text parses to a one-element array holding its record. */
  lemma UserMessageEntry(m: Message)
    requires !m.fromMe
    ensures EntryFor(m).role == User
    ensures Parse(EntryFor(m).content) == Some(JArray([ContentJson(m)]))
  {
    ContentObjectNumberFree(m.date, UserOf(m), m.author, m.body, m.quoted.Some?,
                            if m.quoted.Some? then Some(QuotedInfoOf(m.quoted.value)) else None,
                            if m.hasMedia then Some(MediaKind(m.mediaType)) else None);
    WrappedParses(ContentJson(m));
  }

  /** The keys of an object, in order. */
  function Keys(ms: seq<Member>): (r: seq<string>)
    ensures |r| == |ms|
    ensures forall i :: 0 <= i < |ms| ==> r[i] == ms[i].key
  {
    if ms == [] then [] else [ms[0].key] + Keys(ms[1..])
  }

  /**
   * The fields of a Content record, in order: `date, user`, then `id` only when the message
   * has an author, `message`, then `isReply, quotedMsg` only for a reply, then `attachment`
   * only for a message with media.
   */
  lemma ContentKeys(m: Message)
    ensures Keys(ContentJson(m).members) ==
            ["date", "user"] + (if m.author.Some? then ["id"] else []) + ["message"] +
            (if m.quoted.Some? then ["isReply"] else []) + (if m.quoted.Some? then ["quotedMsg"] else []) +
            (if m.hasMedia then ["attachment"] else [])
  {
    var p := ContentParts(m);
    assert ContentJson(m).members == p[0] + p[1] + p[2] + p[3] + p[4] + p[5];
    KeysAppend(p[0], p[1]);
    KeysAppend(p[0] + p[1], p[2]);
    KeysAppend(p[0] + p[1] + p[2], p[3]);
    KeysAppend(p[0] + p[1] + p[2] + p[3], p[4]);
    KeysAppend(p[0] + p[1] + p[2] + p[3] + p[4], p[5]);
    assert Keys(p[0]) == ["date", "user"];
    assert Keys(p[1]) == if m.author.Some? then ["id"] else [];
    assert Keys(p[2]) == ["message"];
    assert Keys(p[3]) == if m.quoted.Some? then ["isReply"] else [];
    assert Keys(p[4]) == if m.quoted.Some? then ["quotedMsg"] else [];
    assert Keys(p[5]) == if m.hasMedia then ["attachment"] else [];
  }

  lemma KeysAppend(a: seq<Member>, b: seq<Member>)
    ensures Keys(a + b) == Keys(a) + Keys(b)
  {
  }

  /** The sender of a Content record. */
  lemma ContentUser(m: Message)
    ensures Property(ContentJson(m).members, "user") == Some(JString(UserOf(m)))
  {
    ContentProperty(m, "user");
  }

  /** The `id` field exists exactly when the message has an author, and holds it. */
  lemma ContentId(m: Message)
    ensures Property(ContentJson(m).members, "id") ==
            if m.author.Some? then Some(JString(m.author.value)) else None
  {
    ContentProperty(m, "id");
  }

  /** The `message` field holds the message body. */
  lemma ContentMessage(m: Message)
    ensures Property(ContentJson(m).members, "message") == Some(JString(m.body))
  {
    ContentProperty(m, "message");
  }

  /** The reply fields of a Content record exist exactly for a message that quotes another. */
  lemma ContentReply(m: Message)
    ensures Property(ContentJson(m).members, "isReply") ==
            if m.quoted.Some? then Some(JBool(true)) else None
    ensures Property(ContentJson(m).members, "quotedMsg") ==
            if m.quoted.Some? then Some(QuotedJson(QuotedInfoOf(m.quoted.value))) else None
  {
    ContentProperty(m, "isReply");
    ContentProperty(m, "quotedMsg");
  }

  /** The `attachment` field exists exactly for a message with media, and holds its media kind. */
  lemma ContentAttachment(m: Message)
    ensures Property(ContentJson(m).members, "attachment") ==
            if m.hasMedia then Some(JString(MediaKind(m.mediaType))) else None
  {
    ContentProperty(m, "attachment");
  }

  /** The parts of a Content record, in the order its fields are written. */
  function ContentParts(m: Message): seq<seq<Member>>
  {
    [[Member("date", JString(m.date)), Member("user", JString(UserOf(m)))],
     OptionalMember("id", m.author),
     [Member("message", JString(m.body))],
     if m.quoted.Some? then [Member("isReply", JBool(true))] else [],
     if m.quoted.Some? then [Member("quotedMsg", QuotedJson(QuotedInfoOf(m.quoted.value)))] else [],
     OptionalMember("attachment", if m.hasMedia then Some(MediaKind(m.mediaType)) else None)]
  }

  /** A property of a Content record is read from the last part that has it. */
  lemma ContentProperty(m: Message, key: string)
    ensures Property(ContentJson(m).members, key) ==
            Latest(Latest(Latest(Latest(Latest(Property(ContentParts(m)[0], key),
                                               Property(ContentParts(m)[1], key)),
                                        Property(ContentParts(m)[2], key)),
                                 Property(ContentParts(m)[3], key)),
                          Property(ContentParts(m)[4], key)),
                   Property(ContentParts(m)[5], key))
  {
    var p := ContentParts(m);
    assert ContentJson(m).members == p[0] + p[1] + p[2] + p[3] + p[4] + p[5];
    PropertyAppend(p[0], p[1], key);
    PropertyAppend(p[0] + p[1], p[2], key);
    PropertyAppend(p[0] + p[1] + p[2], p[3], key);
    PropertyAppend(p[0] + p[1] + p[2] + p[3], p[4], key);
    PropertyAppend(p[0] + p[1] + p[2] + p[3] + p[4], p[5], key);
  }

  function Latest(earlier: Option<Json>, later: Option<Json>): Option<Json>
  {
    if later.Some? then later else earlier
  }

  /** A property of a concatenation comes from the later part when it has one. */
  lemma {:induction false} PropertyAppend(a: seq<Member>, b: seq<Member>, key: string)
    ensures Property(a + b, key) == Latest(Property(a, key), Property(b, key))
    decreases |b|
  {
    if b != [] {
      var b' := b[..|b| - 1];
      assert (a + b)[..|a + b| - 1] == a + b';
      PropertyAppend(a, b', key);
    } else {
      assert a + b == a;
    }
  }

  // ---------------------------------------------------------------------------------------
  // isJSON / extractMessage / processResponse
  // ---------------------------------------------------------------------------------------

  /** Why a call of the completion code rejected. */
  datatype Failure =
    | RequestFailed(response: Option<HttpStatus>)  // the service call rejected, with or without an HTTP response
    | TypeError                                     // a property read on `null` or `undefined`
    | FallbackFailed(status: int, statusText: string)

  datatype HttpStatus = HttpStatus(status: int, statusText: string)

  /** `error.response`: only a failed service call carries one. */
  function ResponseOf(e: Failure): Option<HttpStatus>
  {
    if e.RequestFailed? then e.response else None
  }

  /** `v.key` read in JavaScript on a value `JSON.parse` built; reading it on `null` throws. */
  function FieldOf(v: Json, key: string): (r: Result<Option<Json>, Failure>)
    ensures r.Err? <==> v.JNull?
    ensures v.JObject? ==> r == Ok(Property(v.members, key))
    ensures !v.JObject? && !v.JNull? ==> r == Ok(None)
  {
    match v
    case JNull => Err(TypeError)
    case JObject(ms) => Ok(Property(ms, key))
    case _ => Ok(None)
  }

  /** `isJSON`: the text is JSON. */
  predicate IsJson(text: string)
  {
    Parse(text).Some?
  }

  /** `extractMessage` on text that parsed to `parsed`. */
  function ExtractMessage(text: string, parsed: Json): Result<Json, Failure>
  {
    if parsed.JArray? && |parsed.items| > 0 then
      match FieldOf(parsed.items[0], "message")
      case Err(e) => Err(e)
      case Ok(field) => if field.Some? && Truthy(field.value) then Ok(field.value) else Ok(JString(text))
    else Ok(JString(text))
  }

  /** `processResponse`: the `message` of the first element of a JSON array reply, else the text itself. */
  function ProcessResponse(text: string): Result<Json, Failure>
  {
    if IsJson(text) then ExtractMessage(text, Parse(text).value) else Ok(JString(text))
  }

  /** The message a JSON reply carries: a non-empty array whose first element has a truthy `message`. */
  ghost predicate CarriesMessage(text: string, v: Json)
  {
    exists items, ms :: Parse(text) == Some(JArray(items)) && |items| > 0 && items[0] == JObject(ms) &&
                        Property(ms, "message") == Some(v) && Truthy(v)
  }

  /** `processResponse` rejects exactly when the reply is a JSON array whose first element is `null`. */
  lemma ProcessResponseFails(text: string)
    ensures ProcessResponse(text).Err? <==>
            (exists items :: Parse(text) == Some(JArray(items)) && |items| > 0 && items[0] == JNull)
    ensures ProcessResponse(text).Err? ==> ProcessResponse(text).error == TypeError
  {
    if ProcessResponse(text).Err? {
      var items := Parse(text).value.items;
      assert Parse(text) == Some(JArray(items)) && |items| > 0 && items[0] == JNull;
    }
  }

  /** A successful `processResponse` returns the carried message, or else the raw text unchanged. */
  lemma ProcessResponseCases(text: string)
    requires ProcessResponse(text).Ok?
    ensures CarriesMessage(text, ProcessResponse(text).value) ||
            ProcessResponse(text).value == JString(text)
    ensures forall v :: CarriesMessage(text, v) ==> ProcessResponse(text).value == v
  {
    forall v | CarriesMessage(text, v)
      ensures ProcessResponse(text).value == v
    {
      var items, ms :| Parse(text) == Some(JArray(items)) && |items| > 0 && items[0] == JObject(ms) &&
                       Property(ms, "message") == Some(v) && Truthy(v);
    }
    var r := ProcessResponse(text).value;
    if r != JString(text) {
      var items := Parse(text).value.items;
      var ms := items[0].members;
      assert Parse(text) == Some(JArray(items)) && |items| > 0 && items[0] == JObject(ms) &&
             Property(ms, "message") == Some(r) && Truthy(r);
    }
  }

  /** Text that is not JSON comes back unchanged. */
  lemma NotJsonUnchanged(text: string)
    requires !IsJson(text)
    ensures ProcessResponse(text) == Ok(JString(text))
  {
  }

  /** JSON that is not a non-empty array comes back unchanged. */
  lemma NotArrayUnchanged(text: string)
    requires IsJson(text)
    requires !Parse(text).value.JArray? || Parse(text).value.items == []
    ensures ProcessResponse(text) == Ok(JString(text))
  {
  }

  /** A JSON reply whose first element has no `message`, or a falsy one, comes back unchanged. */
  lemma MissingMessageUnchanged(text: string, items: seq<Json>, ms: seq<Member>)
    requires Parse(text) == Some(JArray(items)) && |items| > 0 && items[0] == JObject(ms)
    requires Property(ms, "message").None? || !Truthy(Property(ms, "message").value)
    ensures ProcessResponse(text) == Ok(JString(text))
  {
  }

  /**
   * A reply written in the Content record format, like the ones the system message warns
   * against, is reduced to its `message` text, or left whole when that text is empty.
   */
  lemma EchoedContentReduced(m: Message)
    ensures ProcessResponse(ContentText(m)) ==
            Ok(if m.body != "" then JString(m.body) else JString(ContentText(m)))
  {
    var v := ContentJson(m);
    var text := ContentText(m);
    assert Parse(text) == Some(JArray([v])) by {
      ContentObjectNumberFree(m.date, UserOf(m), m.author, m.body, m.quoted.Some?,
                              if m.quoted.Some? then Some(QuotedInfoOf(m.quoted.value)) else None,
                              if m.hasMedia then Some(MediaKind(m.mediaType)) else None);
      WrappedParses(v);
    }
    assert Property(v.members, "message") == Some(JString(m.body)) by {
      ContentMessage(m);
    }
    SingleElementReply(text, v, JString(m.body));
  }

  /** A one-element array of a number-free value, written as `[...]`, parses back. */
  lemma WrappedParses(v: Json)
    requires NumberFree(v)
    ensures Parse("[" + Serialize(v) + "]") == Some(JArray([v]))
  {
    assert NumberFree(JArray([v]));
    ParseSerialize(JArray([v]));
    assert Serialize(JArray([v])) == "[" + Serialize(v) + "]" by {
      assert SerializeItems([v]) == Serialize(v) + "";
      assert Serialize(v) + "" == Serialize(v);
    }
  }

  /** A reply that parses to `[v]`, where `v` is an object whose `message` is `x`. */
  lemma SingleElementReply(text: string, v: Json, x: Json)
    requires Parse(text) == Some(JArray([v]))
    requires v.JObject? && Property(v.members, "message") == Some(x)
    ensures ProcessResponse(text) == if Truthy(x) then Ok(x) else Ok(JString(text))
  {
  }

  /** Text whose first non-blank character cannot start a JSON value is not JSON. */
  lemma NotAValueStart(text: string)
    requires text != [] && !IsWs(text[0])
    requires text[0] !in "{[\"-ntf" && !IsDigit(text[0])
    ensures !IsJson(text)
  {
    assert ParseValue(text) == None by {
      assert SkipWs(text) == text;
      assert !Literal(text, "null") && !Literal(text, "true") && !Literal(text, "false");
      assert NumberLength(text) == None;
    }
  }

  /** Plain text is returned as it is. */
  lemma PlainTextExample()
    ensures ProcessResponse("hi") == Ok(JString("hi"))
  {
    NotAValueStart("hi");
  }

  /**
   * A reply that is the JSON text of a one-element array holding an object is reduced to
   * the object's `message` when that is truthy, and left whole otherwise.
   */
  lemma ObjectReply(v: Json, x: Json)
    requires NumberFree(v) && v.JObject? && Property(v.members, "message") == Some(x)
    ensures ProcessResponse("[" + Serialize(v) + "]") ==
            if Truthy(x) then Ok(x) else Ok(JString("[" + Serialize(v) + "]"))
  {
    WrappedParses(v);
    SingleElementReply("[" + Serialize(v) + "]", v, x);
  }

  /** `[null]` makes the `message` read throw. */
  lemma NullElementExample()
    ensures ProcessResponse("[null]") == Err(TypeError)
  {
    assert "[" + Serialize(JNull) + "]" == "[null]";
    WrappedParses(JNull);
  }

  // ---------------------------------------------------------------------------------------
  // createChatCompletion / getRandomFallbackModel / chat
  // ---------------------------------------------------------------------------------------

  /** What the completion service does with one request: answers with a reply text, or rejects. */
  datatype Completion = Answered(content: string) | Rejected(response: Option<HttpStatus>)

  /** `createChatCompletion`'s result: the processed reply, or the rejection. */
  function Complete(outcome: Completion): (r: Result<Json, Failure>)
    ensures outcome.Answered? ==> r == ProcessResponse(outcome.content)
    ensures outcome.Rejected? ==> r == Err(RequestFailed(outcome.response))
  {
    match outcome
    case Answered(content) => ProcessResponse(content)
    case Rejected(response) => Err(RequestFailed(response))
  }

  /** A value of `Math.random()`. */
  type Random = r: real | 0.0 <= r < 1.0 witness 0.0

  /** `getRandomFallbackModel`: `Math.random()` scaled to an index of the fallback list. */
  function FallbackModel(random: Random): (model: string)
    ensures model in FallbackModels
    ensures model == (if random < 0.5 then FallbackModels[0] else FallbackModels[1])
  {
    FallbackModels[(random * 2.0).Floor]
  }

  /** Every fallback model is picked for some value of `Math.random()`. */
  lemma FallbackModelsReachable(model: string)
    requires model in FallbackModels
    ensures exists random: Random :: FallbackModel(random) == model
  {
    if model == FallbackModels[0] {
      assert FallbackModel(0.0) == model;
    } else {
      assert FallbackModel(0.5) == model;
    }
  }

  /** The requests `chat` made and what it returned or threw. */
  datatype ChatRun = ChatRun(requests: seq<Request>, result: Result<Json, Failure>)

  /**
   * What `chat` does, given the service's outcome for a first and a second request and the
   * value `Math.random()` returns: the primary model first; on a rejection that carries an
   * HTTP response one fallback model; a failure without a response makes the status read
   * in the handler throw.
   */
  function ChatOutcome(persona: string, prompt: seq<PromptEntry>, first: Completion, second: Completion,
                       random: Random): (run: ChatRun)
    ensures 1 <= |run.requests| <= 2
    ensures run.requests[0] == Request(PrimaryModel, RequestMessages(persona, prompt))
    ensures |run.requests| == 2 ==> run.requests[1] == Request(FallbackModel(random), RequestMessages(persona, prompt))
  {
    var messages := RequestMessages(persona, prompt);
    var primary := Request(PrimaryModel, messages);
    match Complete(first)
    case Ok(v) => ChatRun([primary], Ok(v))
    case Err(e) =>
      if ResponseOf(e).None? then ChatRun([primary], Err(TypeError))
      else
        var fallback := Request(FallbackModel(random), messages);
        match Complete(second)
        case Ok(v) => ChatRun([primary, fallback], Ok(v))
        case Err(e2) =>
          ChatRun([primary, fallback],
                  Err(match ResponseOf(e2)
                      case None => TypeError
                      case Some(response) => FallbackFailed(response.status, response.statusText)))
  }

  /** `chat`: the primary model, then at most one fallback. */
  method Chat(persona: string, prompt: seq<PromptEntry>, first: Completion, second: Completion,
              random: Random) returns (requests: seq<Request>, result: Result<Json, Failure>)
    ensures ChatRun(requests, result) == ChatOutcome(persona, prompt, first, second, random)
  {
    var messages := RequestMessages(persona, prompt);
    requests := [Request(PrimaryModel, messages)];
    result := Complete(first);
    if result.Ok? {
      return;
    }
    var fallbackModel := FallbackModel(random);
    var response := ResponseOf(result.error);
    if response.None? {
      result := Err(TypeError);
      return;
    }
    requests := requests + [Request(fallbackModel, messages)];
    result := Complete(second);
    if result.Err? {
      var fallbackResponse := ResponseOf(result.error);
      if fallbackResponse.None? {
        result := Err(TypeError);
      } else {
        result := Err(FallbackFailed(fallbackResponse.value.status, fallbackResponse.value.statusText));
      }
    }
  }

  /** When the primary model answers, its processed reply is returned and no fallback is asked. */
  lemma PrimaryAnswerReturned(persona: string, prompt: seq<PromptEntry>, content: string, second: Completion,
                              random: Random)
    requires ProcessResponse(content).Ok?
    ensures ChatOutcome(persona, prompt, Answered(content), second, random) ==
            ChatRun([Request(PrimaryModel, RequestMessages(persona, prompt))], ProcessResponse(content))
  {
  }

  /** When the primary is rejected with an HTTP response, the fallback's processed reply is returned. */
  lemma FallbackAnswerReturned(persona: string, prompt: seq<PromptEntry>, status: HttpStatus, content: string,
                               random: Random)
    ensures ChatOutcome(persona, prompt, Rejected(Some(status)), Answered(content), random) ==
            ChatRun([Request(PrimaryModel, RequestMessages(persona, prompt)),
                     Request(FallbackModel(random), RequestMessages(persona, prompt))],
                    ProcessResponse(content))
  {
    ProcessResponseFails(content);
  }

  /** A fallback rejected without an HTTP response makes the status read throw a `TypeError`. */
  lemma FallbackNoResponseEscapes(persona: string, prompt: seq<PromptEntry>, status: HttpStatus, random: Random)
    ensures ChatOutcome(persona, prompt, Rejected(Some(status)), Rejected(None), random).result == Err(TypeError)
  {
  }

  /** The fallback model is asked exactly when the primary request is rejected with an HTTP response. */
  lemma FallbackAskedIff(persona: string, prompt: seq<PromptEntry>, first: Completion, second: Completion,
                         random: Random)
    ensures |ChatOutcome(persona, prompt, first, second, random).requests| == 2 <==>
            (first.Rejected? && first.response.Some?)
  {
  }

  /**
   * `chat` throws "Fallback model failed" with a status exactly when both requests are
   * rejected with an HTTP response, and the status is the fallback's.
   */
  lemma FallbackFailedIff(persona: string, prompt: seq<PromptEntry>, first: Completion, second: Completion,
                          random: Random, status: HttpStatus)
    ensures ChatOutcome(persona, prompt, first, second, random).result ==
            Err(FallbackFailed(status.status, status.statusText)) <==>
            (first.Rejected? && first.response.Some? && second == Rejected(Some(status)))
  {
  }

  /** A primary failure without an HTTP response escapes as a `TypeError` after a single request. */
  lemma NoResponseEscapes(persona: string, prompt: seq<PromptEntry>, first: Completion, second: Completion,
                          random: Random)
    requires Complete(first).Err? && ResponseOf(Complete(first).error).None?
    ensures ChatOutcome(persona, prompt, first, second, random) ==
            ChatRun([Request(PrimaryModel, RequestMessages(persona, prompt))], Err(TypeError))
  {
  }

  /** `chat` succeeds exactly when one of its requests was answered with a reply it could process. */
  lemma ChatSucceedsIff(persona: string, prompt: seq<PromptEntry>, first: Completion, second: Completion,
                        random: Random)
    ensures ChatOutcome(persona, prompt, first, second, random).result.Ok? <==>
            (Complete(first).Ok? ||
             (first.Rejected? && first.response.Some? && Complete(second).Ok?))
  {
  }
}
