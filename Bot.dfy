/**
 * The message handling of the bot: which messages it answers, which command handler a
 * message reaches, the history window it sends to the language model, and the ordered
 * effects (reactions, replies, typing indicator) each handler issues on the transport.
 */
module Bot {
  import opened Wrappers
  import opened Text
  import opened Json
  import opened Messages
  import opened Gpt

  // ---------------------------------------------------------------------------------------
  // Configuration (environment variables)
  // ---------------------------------------------------------------------------------------

  /**
   * The environment the handlers read: `PREFIX`, `BOT_NAME`, `GPT` and `GROUPS`. An unset
   * variable is `None`; the wording of the system message is `persona`.
   */
  datatype Config = Config(prefix: Option<string>, botName: string, gpt: Option<string>,
                           groups: Option<string>, persona: string)

  /** An environment variable used as a condition: set to a non-empty string. */
  predicate EnvFlag(v: Option<string>)
  {
    v.Some? && v.value != ""
  }

  /** The command prefix as `handleCommands` writes it into a template: an unset `PREFIX` reads `undefined`. */
  function CommandPrefix(config: Config): (r: string)
    ensures config.prefix.Some? ==> r == config.prefix.value
    ensures config.prefix.None? ==> r == "undefined"
  {
    match config.prefix
    case None => "undefined"
    case Some(p) => p
  }

  // ---------------------------------------------------------------------------------------
  // Group gate and command routing (handleMessage, handleCommands)
  // ---------------------------------------------------------------------------------------

  /** A chat id of a group. */
  predicate IsGroupId(from: string)
  {
    EndsWith(from, "@g.us")
  }

  /** `handleMessage` passes a message on: direct chats always, groups only when `GROUPS` is set. */
  predicate PassesGate(config: Config, m: Message)
  {
    (IsGroupId(m.from) && EnvFlag(config.groups)) || !IsGroupId(m.from)
  }

  datatype Command = Fig | Img | Escreva | Reset

  /** The key of each command in the `commands` table. */
  function Key(c: Command): string
  {
    match c
    case Fig => "fig"
    case Img => "img"
    case Escreva => "escreva"
    case Reset => "reset"
  }

  /** The order of the keys of the `commands` table. */
  const CommandOrder: seq<Command> := [Fig, Img, Escreva, Reset]

  /** The body starts with the prefix followed by the command's key. */
  predicate Invokes(prefix: string, body: string, c: Command)
  {
    StartsWith(body, prefix + Key(c))
  }

  /** The lookup in `handleCommands`: the first command, in table order, that the body invokes. */
  function FindCommand(prefix: string, body: string, cs: seq<Command>): (r: Option<Command>)
    ensures r.None? <==> forall i :: 0 <= i < |cs| ==> !Invokes(prefix, body, cs[i])
    ensures r.Some? ==> exists i :: 0 <= i < |cs| && cs[i] == r.value && Invokes(prefix, body, cs[i]) &&
                                    forall j :: 0 <= j < i ==> !Invokes(prefix, body, cs[j])
  {
    if cs == [] then None
    else if Invokes(prefix, body, cs[0]) then Some(cs[0])
    else
      var r := FindCommand(prefix, body, cs[1..]);
      assert r.Some? ==> exists i :: 1 <= i < |cs| && cs[i] == r.value && Invokes(prefix, body, cs[i]) &&
                                     forall j :: 0 <= j < i ==> !Invokes(prefix, body, cs[j]) by {
        if r.Some? {
          var i :| 0 <= i < |cs| - 1 && cs[1..][i] == r.value && Invokes(prefix, body, cs[1..][i]) &&
                   forall j :: 0 <= j < i ==> !Invokes(prefix, body, cs[1..][j]);
          assert forall j :: 0 <= j < i + 1 ==> !Invokes(prefix, body, cs[j]) by {
            forall j | 0 <= j < i + 1 ensures !Invokes(prefix, body, cs[j]) {
              if j > 0 { assert cs[j] == cs[1..][j - 1]; }
            }
          }
        }
      }
      assert r.None? ==> forall i :: 0 <= i < |cs| ==> !Invokes(prefix, body, cs[i]) by {
        if r.None? {
          forall i | 0 <= i < |cs| ensures !Invokes(prefix, body, cs[i]) {
            if i > 0 { assert cs[i] == cs[1..][i - 1]; }
          }
        }
      }
      r
  }

  /** The command a message body selects. */
  function Route(config: Config, body: string): Option<Command>
  {
    FindCommand(CommandPrefix(config), body, CommandOrder)
  }

  /** What `handleMessage` does with a message. */
  datatype Action = RunCommand(command: Command) | RunGpt | Ignore

  function Dispatch(config: Config, m: Message): Action
  {
    if !PassesGate(config, m) then Ignore
    else match Route(config, m.body)
      case Some(c) => RunCommand(c)
      case None => if EnvFlag(config.gpt) then RunGpt else Ignore
  }

  /** A command runs exactly when the message passes the gate and its body invokes some command. */
  lemma DispatchCommand(config: Config, m: Message, c: Command)
    ensures Dispatch(config, m) == RunCommand(c) <==>
            PassesGate(config, m) && Route(config, m.body) == Some(c)
  {
  }

  /** Without a command, the language model answers exactly when `GPT` is set. */
  lemma DispatchGpt(config: Config, m: Message)
    ensures Dispatch(config, m) == RunGpt <==>
            PassesGate(config, m) && Route(config, m.body).None? && EnvFlag(config.gpt)
  {
  }

  /** A group message is ignored when `GROUPS` is not set. */
  lemma GroupsNeedFlag(config: Config, m: Message)
    requires IsGroupId(m.from) && !EnvFlag(config.groups)
    ensures Dispatch(config, m) == Ignore
  {
  }

  /** Matching is by prefix: with prefix `!`, the body `!figure` runs the sticker command. */
  lemma FigurePrefixExample(body: string)
    requires body == "!figure"
    ensures FindCommand("!", body, CommandOrder) == Some(Fig)
  {
    assert "!" + Key(Fig) == "!fig";
    assert body[..4] == "!fig";
  }

  /** A body that invokes several commands selects the first in table order. */
  lemma RouteFirstInOrder(config: Config, body: string, i: nat)
    requires i < |CommandOrder| && Invokes(CommandPrefix(config), body, CommandOrder[i])
    requires forall j :: 0 <= j < i ==> !Invokes(CommandPrefix(config), body, CommandOrder[j])
    ensures Route(config, body) == Some(CommandOrder[i])
  {
    var r := Route(config, body);
    var k :| 0 <= k < |CommandOrder| && CommandOrder[k] == r.value &&
             Invokes(CommandPrefix(config), body, CommandOrder[k]) &&
             forall j :: 0 <= j < k ==> !Invokes(CommandPrefix(config), body, CommandOrder[j]);
    assert k == i;
  }

  // ---------------------------------------------------------------------------------------
  // isMessageForMe, appendMessageToHistory, isMessageRevoked
  // ---------------------------------------------------------------------------------------

  /** `isMessageForMe`: the bot is mentioned, named in the body, or the message replies to the bot. */
  function IsMessageForMe(m: Message, myId: string, botName: string): bool
  {
    if myId in m.mentionedIds then true
    else if Includes(Lower(m.body), Lower(botName)) then true
    else if m.quoted.Some? then m.quoted.value.fromMe
    else false
  }

  lemma IsMessageForMeIff(m: Message, myId: string, botName: string)
    ensures IsMessageForMe(m, myId, botName) <==>
            myId in m.mentionedIds ||
            (exists i :: OccursAt(Lower(m.body), Lower(botName), i)) ||
            (m.quoted.Some? && m.quoted.value.fromMe)
  {
    IncludesIff(Lower(m.body), Lower(botName));
  }

  /** The history without the entries that carry a given id. */
  function WithoutId(history: seq<Message>, id: string): (r: seq<Message>)
    ensures |r| <= |history|
    ensures forall x :: x in r <==> x in history && x.id != id
  {
    if history == [] then []
    else if history[0].id != id then [history[0]] + WithoutId(history[1..], id)
    else WithoutId(history[1..], id)
  }

  /** The number of entries with a given id. */
  function CountId(history: seq<Message>, id: string): nat
  {
    if history == [] then 0 else (if history[0].id == id then 1 else 0) + CountId(history[1..], id)
  }

  /** `appendMessageToHistory`: earlier copies of the message removed, the message appended. */
  function AppendMessageToHistory(history: seq<Message>, m: Message): (r: seq<Message>)
    ensures |r| > 0 && r[|r| - 1] == m
    ensures forall k :: 0 <= k < |r| ==> (r[k].id == m.id <==> k == |r| - 1)
  {
    var filtered := WithoutId(history, m.id);
    assert forall k :: 0 <= k < |filtered| ==> filtered[k].id != m.id by {
      forall k | 0 <= k < |filtered| ensures filtered[k].id != m.id {
        assert filtered[k] in filtered;
      }
    }
    filtered + [m]
  }

  /** Filtering distributes over concatenation, so the kept entries stay in their order. */
  lemma {:induction false} WithoutIdAppend(a: seq<Message>, b: seq<Message>, id: string)
    ensures WithoutId(a + b, id) == WithoutId(a, id) + WithoutId(b, id)
    decreases |a|
  {
    if a == [] {
      assert a + b == b;
    } else {
      assert (a + b)[1..] == a[1..] + b;
      WithoutIdAppend(a[1..], b, id);
    }
  }

  /** The positions from `from` on, in increasing order, of the history entries that carry another id. */
  function KeptFrom(history: seq<Message>, id: string, from: nat): (r: seq<nat>)
    requires from <= |history|
    ensures forall j, k :: 0 <= j < k < |r| ==> r[j] < r[k]
    ensures forall k :: 0 <= k < |r| ==> from <= r[k] < |history|
    ensures forall i :: from <= i < |history| ==> (history[i].id != id <==> i in r)
    decreases |history| - from
  {
    if from == |history| then []
    else (if history[from].id != id then [from] else []) + KeptFrom(history, id, from + 1)
  }

  /** Listing the entry at `from` in front of a listing of entries keeps it a listing. */
  lemma PositionsCons(history: seq<Message>, later: seq<Message>, from: nat, positions: seq<nat>)
    requires from < |history|
    requires |later| == |positions|
    requires forall k :: 0 <= k < |positions| ==> 0 <= positions[k] < |history| && later[k] == history[positions[k]]
    ensures |[history[from]] + later| == |[from] + positions|
    ensures forall k :: 0 <= k < |[from] + positions| ==>
              ([history[from]] + later)[k] == history[([from] + positions)[k]]
  {
    forall k | 0 <= k < |[from] + positions|
      ensures ([history[from]] + later)[k] == history[([from] + positions)[k]]
    {
      if k > 0 {
        assert ([history[from]] + later)[k] == later[k - 1];
        assert ([from] + positions)[k] == positions[k - 1];
      }
    }
  }

  /** The filtered history from `from` on lists the entries at the kept positions, in that order. */
  lemma {:induction false} WithoutIdPositions(history: seq<Message>, id: string, from: nat)
    requires from <= |history|
    ensures |WithoutId(history[from..], id)| == |KeptFrom(history, id, from)|
    ensures forall k :: 0 <= k < |KeptFrom(history, id, from)| ==>
              WithoutId(history[from..], id)[k] == history[KeptFrom(history, id, from)[k]]
    decreases |history| - from
  {
    if from < |history| {
      var rest, x := history[from..], history[from];
      assert rest[0] == x && rest[1..] == history[from + 1..];
      WithoutIdPositions(history, id, from + 1);
      var later, positions := WithoutId(history[from + 1..], id), KeptFrom(history, id, from + 1);
      if x.id != id {
        assert WithoutId(rest, id) == [x] + later;
        assert KeptFrom(history, id, from) == [from] + positions;
        PositionsCons(history, later, from, positions);
      } else {
        assert WithoutId(rest, id) == later;
        assert KeptFrom(history, id, from) == [] + positions == positions;
      }
    }
  }

  /**
   * The window holds the entries with another id, each one once and in the order they had,
   * followed by the message: its `k`-th entry before the last is the history entry at the
   * `k`-th kept position.
   */
  lemma HistoryKeepsOthers(history: seq<Message>, m: Message)
    ensures |AppendMessageToHistory(history, m)| == |KeptFrom(history, m.id, 0)| + 1
    ensures forall k :: 0 <= k < |KeptFrom(history, m.id, 0)| ==>
              AppendMessageToHistory(history, m)[k] == history[KeptFrom(history, m.id, 0)[k]]
  {
    assert history[0..] == history;
    WithoutIdPositions(history, m.id, 0);
  }

  /** A history without the message's id is kept whole, with the message appended. */
  lemma {:induction false} WithoutIdUnchanged(history: seq<Message>, id: string)
    requires forall k :: 0 <= k < |history| ==> history[k].id != id
    ensures WithoutId(history, id) == history
  {
    if history != [] {
      WithoutIdUnchanged(history[1..], id);
    }
  }

  /** The new window holds one entry per history entry with another id, plus the message. */
  lemma HistoryLength(history: seq<Message>, m: Message)
    ensures |AppendMessageToHistory(history, m)| == |history| - CountId(history, m.id) + 1
  {
    WithoutIdLength(history, m.id);
  }

  lemma {:induction false} WithoutIdLength(history: seq<Message>, id: string)
    ensures |WithoutId(history, id)| + CountId(history, id) == |history|
  {
    if history != [] {
      WithoutIdLength(history[1..], id);
    }
  }

  /** The first message of the chat that carries a given id. */
  function FindById(ms: seq<Message>, id: string): (r: Option<Message>)
    ensures r.None? <==> forall k :: 0 <= k < |ms| ==> ms[k].id != id
    ensures r.Some? ==> r.value in ms && r.value.id == id
    ensures r.Some? ==> exists k :: 0 <= k < |ms| && ms[k] == r.value && forall j :: 0 <= j < k ==> ms[j].id != id
  {
    if ms == [] then None
    else if ms[0].id == id then Some(ms[0])
    else
      var r := FindById(ms[1..], id);
      assert r.Some? ==> exists k :: 0 <= k < |ms| && ms[k] == r.value && forall j :: 0 <= j < k ==> ms[j].id != id by {
        if r.Some? {
          var k :| 0 <= k < |ms[1..]| && ms[1..][k] == r.value && forall j :: 0 <= j < k ==> ms[1..][j].id != id;
          assert ms[k + 1] == r.value;
          forall j | 0 <= j < k + 1
            ensures ms[j].id != id
          {
            if j > 0 {
              assert ms[j] == ms[1..][j - 1];
            }
          }
        }
      }
      r
  }

  /** `isMessageRevoked`: the chat, fetched again, no longer holds the message. */
  function IsMessageRevoked(m: Message, chatMessages: seq<Message>): (r: bool)
    ensures r <==> forall k :: 0 <= k < |chatMessages| ==> chatMessages[k].id != m.id
  {
    FindById(chatMessages, m.id).None?
  }

  // ---------------------------------------------------------------------------------------
  // Effects and what the outside world answers
  // ---------------------------------------------------------------------------------------

  /** The calls a handler makes on the transport and the services, by message or chat id. */
  datatype Effect =
    | React(message: string, emoji: string)
    | Reply(message: string, content: Json)
    | SendStateTyping(chat: string)
    | ClearState(chat: string)
    | Ask(request: Request)
    | Download(message: string)
    | SendMedia(chat: string, asSticker: bool)
    | SendText(chat: string, text: string)
    | ClearMessages(chat: string)
    | Transcribe(message: string)

  /**
   * What the outside world answers during one handler run: whether the chat is a group,
   * the last messages of the chat, the chat's messages when the revocation guard looks,
   * the bot's own id, the completion service's outcomes and `Math.random()`, and whether
   * the media download, the send, the transcription and the clearing succeed.
   */
  datatype World = World(
    chatIsGroup: bool,
    history: seq<Message>,
    current: seq<Message>,
    myId: string,
    first: Completion,
    second: Completion,
    random: Random,
    downloadOk: bool,
    sendOk: bool,
    transcription: Option<string>,
    clearOk: bool)

  /** No reaction and no reply. */
  predicate Silent(es: seq<Effect>)
  {
    forall k :: 0 <= k < |es| ==> !es[k].React? && !es[k].Reply?
  }

  // ---------------------------------------------------------------------------------------
  // indicateSuccess, indicateError
  // ---------------------------------------------------------------------------------------

  function SuccessEffects(m: Message, w: World): seq<Effect>
  {
    if IsMessageRevoked(m, w.current) then [] else [React(m.id, "✅")]
  }

  function ErrorEffects(m: Message, errorText: Option<string>, w: World): seq<Effect>
  {
    if IsMessageRevoked(m, w.current) then []
    else (if errorText.Some? && errorText.value != "" then [Reply(m.id, JString(errorText.value))] else []) +
         [React(m.id, "❌")]
  }

  /** A revoked message gets neither indicator. */
  lemma RevokedIndicatorsSilent(m: Message, errorText: Option<string>, w: World)
    requires IsMessageRevoked(m, w.current)
    ensures SuccessEffects(m, w) == [] && ErrorEffects(m, errorText, w) == []
  {
  }

  /** Otherwise success is one ✅ reaction. */
  lemma SuccessReacts(m: Message, w: World)
    requires !IsMessageRevoked(m, w.current)
    ensures SuccessEffects(m, w) == [React(m.id, "✅")]
  {
  }

  /** Otherwise an error replies with its text, when there is one, before reacting ❌. */
  lemma ErrorRepliesThenReacts(m: Message, errorText: Option<string>, w: World)
    requires !IsMessageRevoked(m, w.current)
    ensures errorText.Some? && errorText.value != "" ==>
            ErrorEffects(m, errorText, w) == [Reply(m.id, JString(errorText.value)), React(m.id, "❌")]
    ensures !(errorText.Some? && errorText.value != "") ==> ErrorEffects(m, errorText, w) == [React(m.id, "❌")]
  {
  }

  // ---------------------------------------------------------------------------------------
  // processGPTChat and handleGPT
  // ---------------------------------------------------------------------------------------

  /** The requests made, as effects, in order. */
  function Asks(requests: seq<Request>): (r: seq<Effect>)
    ensures |r| == |requests|
    ensures forall k :: 0 <= k < |r| ==> r[k] == Ask(requests[k])
  {
    if requests == [] then [] else [Ask(requests[0])] + Asks(requests[1..])
  }

  /**
   * `processGPTChat` once the chat has run: typing on, the completion requests, then on
   * success the guarded reply and the typing cleared; on failure the typing cleared, then
   * the guarded error indicator, whose revocation check is still pending when the
   * `finally` callback runs.
   */
  function ChatEffects(m: Message, run: ChatRun, w: World): seq<Effect>
  {
    [SendStateTyping(m.from)] + Asks(run.requests) + SettledEffects(m, run.result, w)
  }

  /** The `.then`, `.catch` and `.finally` callbacks of `processGPTChat`. */
  function SettledEffects(m: Message, result: Result<Json, Failure>, w: World): seq<Effect>
  {
    match result
    case Ok(response) =>
      (if IsMessageRevoked(m, w.current) then [] else [Reply(m.id, response)]) + [ClearState(m.from)]
    case Err(_) =>
      [ClearState(m.from)] + ErrorEffects(m, None, w)
  }

  /** Regrouping a trace extended by three pieces in turn. */
  lemma TraceAppend(t: seq<Effect>, a: seq<Effect>, b: seq<Effect>, c: seq<Effect>)
    ensures ((t + a) + b) + c == t + ((a + b) + c)
  {
    assert (t + a) + b == t + (a + b);
  }

  /** `processGPTChat`: the chat with the persona first, and its effects. */
  function GptChatEffects(config: Config, m: Message, prompt: seq<PromptEntry>, w: World): seq<Effect>
  {
    ChatEffects(m, ChatOutcome(config.persona, prompt, w.first, w.second, w.random), w)
  }

  /** `handleGPT`: in a group only messages for the bot; the prompt is the history window. */
  function GptEffects(config: Config, m: Message, w: World): seq<Effect>
  {
    if w.chatIsGroup && !IsMessageForMe(m, w.myId, config.botName) then []
    else GptChatEffects(config, m, Prompt(AppendMessageToHistory(w.history, m)), w)
  }

  /** Typing is switched on first, before any request. */
  lemma ChatTypingFirst(m: Message, run: ChatRun, w: World)
    ensures ChatEffects(m, run, w)[0] == SendStateTyping(m.from)
  {
  }

  /** The requests come right after typing is switched on, in order, and no request comes later. */
  lemma ChatAsksInOrder(m: Message, run: ChatRun, w: World)
    ensures var e := ChatEffects(m, run, w);
            |e| > |run.requests| &&
            (forall k :: 0 <= k < |run.requests| ==> e[k + 1] == Ask(run.requests[k])) &&
            (forall k :: |run.requests| < k < |e| ==> !e[k].Ask?)
  {
  }

  /**
   * The requests of `processGPTChat`: one or two, the first to `gpt-4`, a second one to a
   * fallback model, each sending the system message and then the prompt.
   */
  lemma GptChatRequests(config: Config, m: Message, prompt: seq<PromptEntry>, w: World)
    ensures var e := GptChatEffects(config, m, prompt, w);
            var n := |ChatOutcome(config.persona, prompt, w.first, w.second, w.random).requests|;
            1 <= n <= 2 && |e| > n &&
            e[1] == Ask(Request(PrimaryModel, RequestMessages(config.persona, prompt))) &&
            (n == 2 ==> e[2].Ask? && e[2].request.model in FallbackModels &&
                        e[2].request.messages == RequestMessages(config.persona, prompt)) &&
            forall k :: n < k < |e| ==> !e[k].Ask?
  {
    var run := ChatOutcome(config.persona, prompt, w.first, w.second, w.random);
    ChatAsksInOrder(m, run, w);
  }

  /** Typing is cleared exactly once, after every request, whether the chat succeeded or failed. */
  lemma ChatClearsOnce(m: Message, run: ChatRun, w: World)
    ensures var e := ChatEffects(m, run, w);
            exists k :: 0 <= k < |e| && e[k] == ClearState(m.from) &&
                        (forall j :: 0 <= j < |e| && e[j].Ask? ==> j < k) &&
                        (forall j :: 0 <= j < |e| && e[j].ClearState? ==> j == k)
  {
    var e := ChatEffects(m, run, w);
    if run.result.Ok? {
      var k := |e| - 1;
      assert e[k] == ClearState(m.from);
    } else {
      var k := |run.requests| + 1;
      assert e[k] == ClearState(m.from);
    }
  }

  /** The model's answer is replied exactly when the chat succeeded and the message was not revoked. */
  lemma ChatReplyIff(m: Message, run: ChatRun, w: World)
    ensures var e := ChatEffects(m, run, w);
            (exists k :: 0 <= k < |e| && e[k].Reply?) <==>
            run.result.Ok? && !IsMessageRevoked(m, w.current)
    ensures var e := ChatEffects(m, run, w);
            forall k :: 0 <= k < |e| && e[k].Reply? ==> e[k] == Reply(m.id, run.result.value)
  {
    var e := ChatEffects(m, run, w);
    if run.result.Ok? && !IsMessageRevoked(m, w.current) {
      assert e[|e| - 2].Reply?;
    }
  }

  /** A failed chat ends with the ❌ reaction, unless the message was revoked. */
  lemma ChatFailureReacts(m: Message, run: ChatRun, w: World)
    requires run.result.Err? && !IsMessageRevoked(m, w.current)
    ensures var e := ChatEffects(m, run, w);
            e[|e| - 1] == React(m.id, "❌") && !e[|e| - 2].Reply?
  {
  }

  /** A revoked message gets no reaction and no reply from the GPT path. */
  lemma RevokedChatSilent(m: Message, run: ChatRun, w: World)
    requires IsMessageRevoked(m, w.current)
    ensures Silent(ChatEffects(m, run, w))
  {
  }

  /** In a group, a message not meant for the bot has no effect at all. */
  lemma GroupMessageNotForMe(config: Config, m: Message, w: World)
    requires w.chatIsGroup && !IsMessageForMe(m, w.myId, config.botName)
    ensures GptEffects(config, m, w) == []
  {
  }

  /** The prompt ends with the triggering message, once, after the other history entries. */
  lemma GptPromptWindow(config: Config, m: Message, w: World)
    ensures var p := Prompt(AppendMessageToHistory(w.history, m));
            |p| == |w.history| - CountId(w.history, m.id) + 1 && p[|p| - 1] == EntryFor(m)
  {
    HistoryLength(w.history, m);
  }

  // ---------------------------------------------------------------------------------------
  // The command handlers
  // ---------------------------------------------------------------------------------------

  const StickerNoMedia: string := "❌ Não é uma imagem."
  const ImageNoSticker: string := "❌ Não é uma figurinha."
  const TranscribeNoAudio: string := "❌ Não é um audio."
  const TranscriptHeader: string := "No áudio foi dito: \n\n"
  const ResetDone: string := "Resetado ✅"

  /** After the media is downloaded: the send, then the guarded indicator. */
  function SendMediaEffects(m: Message, asSticker: bool, w: World): seq<Effect>
  {
    [SendMedia(m.from, asSticker)] + (if w.sendOk then SuccessEffects(m, w) else ErrorEffects(m, None, w))
  }

  /** `handleImageToSticker`: the message, or the one it quotes, sent back as a sticker. */
  function StickerEffects(m: Message, w: World): seq<Effect>
  {
    var media := if m.quoted.Some? then m.quoted.value else m;
    [React(m.id, "⏳")] +
    if media.hasMedia then
      [Download(media.id)] + (if w.downloadOk then SendMediaEffects(m, true, w) else ErrorEffects(m, None, w))
    else ErrorEffects(m, Some(StickerNoMedia), w)
  }

  /** `handleStickerToImage`: the quoted sticker sent back as an image. */
  function ImageEffects(m: Message, w: World): seq<Effect>
  {
    if m.quoted.Some? && m.quoted.value.hasMedia then
      [React(m.id, "⏳"), Download(m.quoted.value.id)] +
      (if w.downloadOk then SendMediaEffects(m, false, w) else ErrorEffects(m, None, w))
    else ErrorEffects(m, Some(ImageNoSticker), w)
  }

  /**
   * `handleTranscribeAudio`: the quoted audio transcribed and the text replied to it; the
   * typing indicator is cleared before the guarded indicator reacts.
   */
  function TranscribeEffects(m: Message, w: World): seq<Effect>
  {
    if m.quoted.Some? && m.quoted.value.hasMedia then
      var q := m.quoted.value;
      [React(m.id, "⏳"), Download(q.id)] +
      if !w.downloadOk then ErrorEffects(m, None, w)
      else
        [SendStateTyping(m.from), Transcribe(q.id)] +
        match w.transcription
        case Some(text) =>
          [Reply(q.id, JString(TranscriptHeader + text)), ClearState(m.from)] + SuccessEffects(m, w)
        case None =>
          [ClearState(m.from)] + ErrorEffects(m, None, w)
    else ErrorEffects(m, Some(TranscribeNoAudio), w)
  }

  /** `handleReset`: the chat cleared, then an unguarded confirmation; a failure is indicated. */
  function ResetEffects(m: Message, w: World): seq<Effect>
  {
    [ClearMessages(m.from)] + if w.clearOk then [SendText(m.from, ResetDone)] else ErrorEffects(m, None, w)
  }

  function CommandEffects(c: Command, m: Message, w: World): seq<Effect>
  {
    match c
    case Fig => StickerEffects(m, w)
    case Img => ImageEffects(m, w)
    case Escreva => TranscribeEffects(m, w)
    case Reset => ResetEffects(m, w)
  }

  /** `handleCommands`: the selected command's handler, else the GPT handler when `GPT` is set. */
  function CommandsEffects(config: Config, m: Message, w: World): seq<Effect>
  {
    match Route(config, m.body)
    case Some(c) => CommandEffects(c, m, w)
    case None => if EnvFlag(config.gpt) then GptEffects(config, m, w) else []
  }

  /** Everything `handleMessage` does with one message. */
  function MessageEffects(config: Config, m: Message, w: World): seq<Effect>
  {
    if PassesGate(config, m) then CommandsEffects(config, m, w) else []
  }

  /** The effects are those of the handler `Dispatch` selects. */
  lemma MessageEffectsFollowDispatch(config: Config, m: Message, w: World)
    ensures MessageEffects(config, m, w) ==
            match Dispatch(config, m)
            case Ignore => []
            case RunGpt => GptEffects(config, m, w)
            case RunCommand(c) => CommandEffects(c, m, w)
  {
  }

  /** A message that is not passed on has no effect at all. */
  lemma IgnoredMessageSilent(config: Config, m: Message, w: World)
    requires !PassesGate(config, m) || (Route(config, m.body).None? && !EnvFlag(config.gpt))
    ensures MessageEffects(config, m, w) == []
  {
  }

  /** For a revoked message, the only reaction a handler makes is the unguarded ⏳ at its start. */
  lemma RevokedCommandReactions(c: Command, m: Message, w: World)
    requires IsMessageRevoked(m, w.current)
    ensures var e := CommandEffects(c, m, w);
            forall k :: 0 <= k < |e| && e[k].React? ==> k == 0 && e[k] == React(m.id, "⏳")
  {
    var e := CommandEffects(c, m, w);
    match c
    case Fig =>
      var media := if m.quoted.Some? then m.quoted.value else m;
      if media.hasMedia && w.downloadOk {
        assert e == [React(m.id, "⏳"), Download(media.id), SendMedia(m.from, true)];
      } else if media.hasMedia {
        assert e == [React(m.id, "⏳"), Download(media.id)];
      } else {
        assert e == [React(m.id, "⏳")];
      }
    case Img =>
    case Escreva =>
    case Reset =>
  }

  /** The transcript is replied to the quoted audio before typing is cleared, and ✅ comes last. */
  lemma TranscribeSuccessOrder(m: Message, w: World, text: string)
    requires m.quoted.Some? && m.quoted.value.hasMedia && w.downloadOk && w.transcription == Some(text)
    requires !IsMessageRevoked(m, w.current)
    ensures TranscribeEffects(m, w) ==
            [React(m.id, "⏳"), Download(m.quoted.value.id), SendStateTyping(m.from), Transcribe(m.quoted.value.id),
             Reply(m.quoted.value.id, JString(TranscriptHeader + text)), ClearState(m.from), React(m.id, "✅")]
  {
  }

  /** A command given without the media it needs replies with its error text and reacts ❌. */
  lemma MissingMediaReplies(c: Command, m: Message, w: World)
    requires c == Img || c == Escreva
    requires !(m.quoted.Some? && m.quoted.value.hasMedia)
    requires !IsMessageRevoked(m, w.current)
    ensures CommandEffects(c, m, w) ==
            [Reply(m.id, JString(if c == Img then ImageNoSticker else TranscribeNoAudio)), React(m.id, "❌")]
  {
  }

  // ---------------------------------------------------------------------------------------
  // The handlers as a client issuing effects
  // ---------------------------------------------------------------------------------------

  /** The bot: its configuration and every effect it has issued so far. */
  class Client {
    const config: Config
    var trace: seq<Effect>

    constructor (config: Config)
      ensures this.config == config && trace == []
    {
      this.config := config;
      trace := [];
    }

    method IndicateSuccess(m: Message, w: World)
      modifies this
      ensures trace == old(trace) + SuccessEffects(m, w)
    {
      if IsMessageRevoked(m, w.current) {
        return;
      }
      trace := trace + [React(m.id, "✅")];
    }

    method IndicateError(m: Message, errorText: Option<string>, w: World)
      modifies this
      ensures trace == old(trace) + ErrorEffects(m, errorText, w)
    {
      if IsMessageRevoked(m, w.current) {
        return;
      }
      if errorText.Some? && errorText.value != "" {
        trace := trace + [Reply(m.id, JString(errorText.value))];
      }
      trace := trace + [React(m.id, "❌")];
    }

    method ProcessGptChat(m: Message, prompt: seq<PromptEntry>, w: World)
      modifies this
      ensures trace == old(trace) + ChatEffects(m, ChatOutcome(config.persona, prompt, w.first, w.second, w.random), w)
    {
      trace := trace + [SendStateTyping(m.from)];
      var requests, result := Chat(config.persona, prompt, w.first, w.second, w.random);
      Resolve(m, requests, result, w);
      TraceAppend(old(trace), [SendStateTyping(m.from)], Asks(requests), SettledEffects(m, result, w));
    }

    /** The requests `chat` made, then the callbacks that settle its promise. */
    method Resolve(m: Message, requests: seq<Request>, result: Result<Json, Failure>, w: World)
      modifies this
      ensures trace == old(trace) + Asks(requests) + SettledEffects(m, result, w)
    {
      trace := trace + Asks(requests);
      Settle(m, result, w);
    }

    method Settle(m: Message, result: Result<Json, Failure>, w: World)
      modifies this
      ensures trace == old(trace) + SettledEffects(m, result, w)
    {
      if result.Ok? {
        if !IsMessageRevoked(m, w.current) {
          trace := trace + [Reply(m.id, result.value)];
        }
        trace := trace + [ClearState(m.from)];
      } else {
        trace := trace + [ClearState(m.from)];
        IndicateError(m, None, w);
      }
    }

    method HandleGpt(m: Message, w: World)
      modifies this
      ensures trace == old(trace) + GptEffects(config, m, w)
    {
      if w.chatIsGroup && !IsMessageForMe(m, w.myId, config.botName) {
        return;
      }
      var messages := AppendMessageToHistory(w.history, m);
      var prompt := TransformChatForGpt(messages);
      ProcessGptChat(m, prompt, w);
    }

    method HandleImageToSticker(m: Message, w: World)
      modifies this
      ensures trace == old(trace) + StickerEffects(m, w)
    {
      trace := trace + [React(m.id, "⏳")];
      var media := if m.quoted.Some? then m.quoted.value else m;
      if media.hasMedia {
        trace := trace + [Download(media.id)];
        if w.downloadOk {
          SendMediaThenIndicate(m, true, w);
        } else {
          IndicateError(m, None, w);
        }
      } else {
        IndicateError(m, Some(StickerNoMedia), w);
      }
    }

    method SendMediaThenIndicate(m: Message, asSticker: bool, w: World)
      modifies this
      ensures trace == old(trace) + SendMediaEffects(m, asSticker, w)
    {
      trace := trace + [SendMedia(m.from, asSticker)];
      if w.sendOk {
        IndicateSuccess(m, w);
      } else {
        IndicateError(m, None, w);
      }
    }

    method HandleStickerToImage(m: Message, w: World)
      modifies this
      ensures trace == old(trace) + ImageEffects(m, w)
    {
      if m.quoted.Some? && m.quoted.value.hasMedia {
        trace := trace + [React(m.id, "⏳"), Download(m.quoted.value.id)];
        if w.downloadOk {
          SendMediaThenIndicate(m, false, w);
        } else {
          IndicateError(m, None, w);
        }
      } else {
        IndicateError(m, Some(ImageNoSticker), w);
      }
    }

    method HandleTranscribeAudio(m: Message, w: World)
      modifies this
      ensures trace == old(trace) + TranscribeEffects(m, w)
    {
      if m.quoted.Some? && m.quoted.value.hasMedia {
        var q := m.quoted.value;
        trace := trace + [React(m.id, "⏳"), Download(q.id)];
        if !w.downloadOk {
          IndicateError(m, None, w);
          return;
        }
        trace := trace + [SendStateTyping(m.from), Transcribe(q.id)];
        match w.transcription {
          case Some(text) =>
            trace := trace + [Reply(q.id, JString(TranscriptHeader + text)), ClearState(m.from)];
            IndicateSuccess(m, w);
          case None =>
            trace := trace + [ClearState(m.from)];
            IndicateError(m, None, w);
        }
      } else {
        IndicateError(m, Some(TranscribeNoAudio), w);
      }
    }

    method HandleReset(m: Message, w: World)
      modifies this
      ensures trace == old(trace) + ResetEffects(m, w)
    {
      trace := trace + [ClearMessages(m.from)];
      if w.clearOk {
        trace := trace + [SendText(m.from, ResetDone)];
      } else {
        IndicateError(m, None, w);
      }
    }

    method HandleCommands(m: Message, w: World)
      modifies this
      ensures trace == old(trace) + CommandsEffects(config, m, w)
    {
      var command := Route(config, m.body);
      if command.Some? {
        match command.value {
          case Fig => HandleImageToSticker(m, w);
          case Img => HandleStickerToImage(m, w);
          case Escreva => HandleTranscribeAudio(m, w);
          case Reset => HandleReset(m, w);
        }
      } else if EnvFlag(config.gpt) {
        HandleGpt(m, w);
      }
    }

    method HandleMessage(m: Message, w: World)
      modifies this
      ensures trace == old(trace) + MessageEffects(config, m, w)
    {
      var isGroups := IsGroupId(m.from);
      if (isGroups && EnvFlag(config.groups)) || !isGroups {
        HandleCommands(m, w);
      }
    }
  }
}
