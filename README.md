# sofia: a verified model of the WhatsApp bot's message handling

sofia is a WhatsApp bot. It listens to chat messages, runs a few media commands, and
otherwise answers through a chat-completion service. This project models the two parts of its
code that make decisions, and proves properties of them.

- **`src/index.js`** handles messages:
  - the group gate;
  - command routing by prefix (`fig`, `img`, `escreva`, `reset`);
  - the "is this message for me" test used in groups;
  - the history window sent to the model;
  - the revocation guard;
  - the ordered transport effects of every handler: reactions, replies, the typing state, media sends, clearing the chat.
- **`src/gpt/gpt.js`** builds the prompt and reads the reply:
  - `transformChatForGPT` and the `Content` record, with its JSON text;
  - the reply normaliser `isJSON` / `extractMessage` / `processResponse`;
  - the primary/fallback retry in `chat`;
  - the request assembly in `createChatCompletion`.

Files:

- `Wrappers.dfy`: `Option` and `Result`.
- `Text.dfy`: the string operations these files use: `startsWith`, `endsWith`, `includes`, ASCII `toLowerCase`, and the first piece of `split`.
- `Json.dfy`: JSON values, a serialiser that follows `JSON.stringify` for strings, arrays and objects, and a parser that follows `JSON.parse`. Property access follows JavaScript, where the last duplicate key wins.
- `JsonProofs.dfy`: the round trip `Parse(Serialize(v)) == Some(v)` for every value without numbers.
- `Messages.dfy`: the fields of a WhatsApp message that the bot reads.
- `Gpt.dfy`: `gpt.js`.
  - `Content` is a class whose methods update its fields.
  - `transformChatForGPT` is a method with a loop.
  - `chat` is a method over two service outcomes. Each has a specification function.
- `Bot.dfy`: `index.js`.
  - The routing, the gate, the history window and the guard are functions.
  - The handlers are methods of the class `Client`. Each appends to an effect trace and is proved equal to a specification function.
  - The properties are lemmas on those functions.

The outside world is passed in as parameters:

- the completion service's outcome for each call;
- the value of `Math.random()`;
- the chat's last messages, and the chat's messages at the time the revocation guard looks;
- whether a download, a send, a transcription or a clear succeeds;
- the environment variables.

Every handler run is one sequential trace. Where a promise is not awaited, the effects appear in the order JavaScript's event loop produces them:

- `indicateError` inside a `.catch` is not awaited. The `.finally` that clears the typing state has already run before the error reaction, which waits for its revocation check. The same holds for `indicateSuccess` after a transcription.
- The reply of `processGPTChat` is issued inside an awaited callback, so it comes before the typing state is cleared.

Points where the code's behaviour is easy to misread, each modelled as the code does it:

- A primary failure without an HTTP response (for example, a `TypeError` from `processResponse`) is not retried. Reading `error.response.status` in the handler throws first (`src/gpt/gpt.js:98`).
- The error thrown when the fallback fails carries only the fallback's status and status text, not the model's name (`src/gpt/gpt.js:102-104`).
- `escreva` checks only that the quoted message has media, not that it is audio (`src/index.js:134`).
- Not every effect is guarded by the revocation check (`src/index.js:92, 117, 135, 143, 168`):
  - the ⏳ reaction;
  - the transcript reply;
  - the `Resetado ✅` confirmation.
- Only a missing media file gets an explanatory text. A failed download or send only reacts ❌.
- An unset `PREFIX` makes the prefix the text `undefined` (`src/index.js:72`).
- Environment flags are truthy strings: `GPT=false` still enables the GPT handler.

## Model

| member | source | states |
|---|---|---|
| Text.IncludesIff | src/index.js:179 | the left-to-right `includes` search succeeds exactly when the name occurs at some offset of the body |
| Text.Lower | src/index.js:179 | lowering keeps the length and maps each character through ASCII `toLowerCase` |
| Text.FirstSegment | src/gpt/gpt.js:154 | the first piece of `split`: a prefix of the input that contains no separator and, when shorter than the input, is followed by the separator |
| Json.Property | src/gpt/gpt.js:66 | reading a property gives `undefined` exactly when no member has the key, otherwise the value of the last member with that key |
| Json.EscapeChar | src/gpt/gpt.js:159 | a non-empty escape, starting with a backslash exactly for `"`, `\` and control characters, as `JSON.stringify` writes them |
| JsonProofs.EscapeCharRoundTrip | src/gpt/gpt.js:159 | the parser's escape reader reads back every character the serialiser escapes |
| JsonProofs.StringRoundTrip | src/gpt/gpt.js:159 | the parser reads back an escaped string up to its closing quote and leaves the rest of the text untouched |
| JsonProofs.ParseSerialize | src/gpt/gpt.js:158-160 | `JSON.parse` of the `JSON.stringify` text of any value without numbers gives that value back |
| Gpt.RequestMessages | src/gpt/gpt.js:77-81 | every request sends the system message first, then the prompt entries in order, one more entry than the prompt |
| Gpt.UserOf | src/gpt/gpt.js:139 | the sender is the display name when it is a non-empty string, else the chat id `from` |
| Gpt.MediaKind | src/gpt/gpt.js:153-156 | the attachment is the message type up to its first `_`, with no `_` in it |
| Gpt.OptionalMember | src/gpt/gpt.js:158-160 | a field whose value is `undefined` is left out of the JSON text, a defined one becomes one string member |
| Gpt.Content.constructor | src/gpt/gpt.js:137-142 | a new record holds the date, the sender, the author id and the body, with no reply or attachment fields |
| Gpt.Content.AddQuotedInfo | src/gpt/gpt.js:144-151 | sets `isReply` and the quoted sender, id and text, leaving the other fields unchanged |
| Gpt.Content.AddAttachmentInfo | src/gpt/gpt.js:153-156 | sets the attachment to the media kind, leaving the other fields unchanged |
| Gpt.Content.ToString | src/gpt/gpt.js:158-160 | the text is JSON that parses to a one-element array holding the record |
| Gpt.Prompt | src/gpt/gpt.js:109-134 | one entry per message, in the same order, each the entry of its message |
| Gpt.TransformChatForGpt | src/gpt/gpt.js:109-134 | the loop builds exactly the prompt of its messages: same length, same order |
| Gpt.OwnMessageEntry | src/gpt/gpt.js:113-118 | the bot's own message becomes an assistant entry holding the body unchanged |
| Gpt.UserMessageEntry | src/gpt/gpt.js:119-129 | any other message becomes a user entry whose text parses to `[record]` |
| Gpt.ContentKeys | src/gpt/gpt.js:136-160 | the record's fields are `date, user`, then `id` only with an author, `message`, then `isReply, quotedMsg` only for a reply, then `attachment` only with media, in that order |
| Gpt.ContentUser | src/gpt/gpt.js:139 | the record's `user` is the sender name |
| Gpt.ContentId | src/gpt/gpt.js:140 | the record has an `id` exactly when the message has an author, and it holds the author |
| Gpt.ContentMessage | src/gpt/gpt.js:141 | the record's `message` is the body |
| Gpt.ContentReply | src/gpt/gpt.js:144-151 | `isReply: true` and `quotedMsg` are present exactly when the message quotes another, and `quotedMsg` holds the quoted sender, id and text |
| Gpt.ContentAttachment | src/gpt/gpt.js:153-156 | `attachment` is present exactly when the message has media, and holds its media kind |
| Gpt.FieldOf | src/gpt/gpt.js:66 | reading a property of a parsed value throws exactly on `null`, gives the object's property (the last member with the key, or `undefined`) on an object, and `undefined` on any other value |
| Gpt.ProcessResponseFails | src/gpt/gpt.js:64-70 | `processResponse` throws exactly when the reply is a JSON array whose first element is `null`, and then with a `TypeError` |
| Gpt.ProcessResponseCases | src/gpt/gpt.js:64-75 | a successful `processResponse` returns the truthy `message` of the first element of a JSON array reply when there is one, and the raw text otherwise |
| Gpt.NotJsonUnchanged | src/gpt/gpt.js:55-75 | text that `JSON.parse` rejects is returned unchanged |
| Gpt.NotArrayUnchanged | src/gpt/gpt.js:64-70 | JSON that is not a non-empty array is returned unchanged |
| Gpt.MissingMessageUnchanged | src/gpt/gpt.js:64-70 | a first element without `message`, or with a falsy one such as `""`, gives the raw text back |
| Gpt.SingleElementReply | src/gpt/gpt.js:64-70 | a reply that parses to `[object]` gives the object's `message` when truthy, else the raw text |
| Gpt.ObjectReply | src/gpt/gpt.js:64-70 | the JSON text of `[object]` with a number-free object gives back the object's truthy `message`, else itself |
| Gpt.EchoedContentReduced | src/gpt/gpt.js:64-75 | a reply that copies a user entry's text is reduced to the body when the body is non-empty |
| Gpt.NotAValueStart | src/gpt/gpt.js:55-62 | text whose first non-blank character cannot start a JSON value is not JSON |
| Gpt.PlainTextExample | src/gpt/gpt.js:72-75 | `processResponse("hi")` is `"hi"` |
| Gpt.NullElementExample | src/gpt/gpt.js:66 | `processResponse("[null]")` throws a `TypeError` |
| Gpt.Complete | src/gpt/gpt.js:77-86 | an answered request gives the processed reply; a rejected one gives the rejection with its HTTP response, if any |
| Gpt.FallbackModel | src/gpt/gpt.js:87-90 | the fallback is one of the two fallback models: the first when `Math.random()` is below one half, else the second |
| Gpt.FallbackModelsReachable | src/gpt/gpt.js:87-90 | each fallback model is picked for some value of `Math.random()` |
| Gpt.ChatOutcome | src/gpt/gpt.js:92-107 | `chat` makes one or two requests with the same messages, the first to `gpt-4` and the second to the fallback model |
| Gpt.Chat | src/gpt/gpt.js:92-107 | the try/catch control flow makes exactly the requests and gives exactly the result `ChatOutcome` specifies |
| Gpt.PrimaryAnswerReturned | src/gpt/gpt.js:93-95 | when `gpt-4` answers with a reply that can be processed, that result is returned after one request |
| Gpt.FallbackAskedIff | src/gpt/gpt.js:96-101 | the fallback is asked exactly when the primary request was rejected with an HTTP response |
| Gpt.FallbackAnswerReturned | src/gpt/gpt.js:96-101 | when the primary is rejected with an HTTP response and the fallback answers, both requests are made and the fallback's processed reply is returned |
| Gpt.FallbackNoResponseEscapes | src/gpt/gpt.js:102-104 | a fallback rejected without an HTTP response makes `chat` throw a `TypeError` |
| Gpt.NoResponseEscapes | src/gpt/gpt.js:96-98 | a primary failure without an HTTP response escapes as a `TypeError` after a single request |
| Gpt.FallbackFailedIff | src/gpt/gpt.js:102-105 | "Fallback model failed" with a status is thrown exactly when both requests were rejected with HTTP responses, and the status is the fallback's |
| Gpt.ChatSucceedsIff | src/gpt/gpt.js:92-107 | `chat` succeeds exactly when the primary succeeds, or when it is rejected with a response and the fallback succeeds |
| Bot.CommandPrefix | src/index.js:72 | the prefix is `PREFIX`, or the text `undefined` when it is unset |
| Bot.FindCommand | src/index.js:75-82 | the lookup finds nothing exactly when no key matches, and otherwise finds a matching key with no matching key before it |
| Bot.RouteFirstInOrder | src/index.js:75-82 | when several keys match, routing picks the first in the order `fig, img, escreva, reset` |
| Bot.FigurePrefixExample | src/index.js:82 | with prefix `!`, the body `!figure` selects `fig` |
| Bot.DispatchCommand | src/index.js:63-89 | a command handler runs exactly when the message passes the group gate and its body selects that command |
| Bot.DispatchGpt | src/index.js:84-88 | otherwise the GPT handler runs exactly when `GPT` is set |
| Bot.GroupsNeedFlag | src/index.js:65-66 | a group message is ignored when `GROUPS` is not set |
| Bot.MessageEffectsFollowDispatch | src/index.js:63-89 | the effects of a message are those of the handler routing selects, and none when it is ignored |
| Bot.IgnoredMessageSilent | src/index.js:63-89 | a message stopped by the gate, or with no command while `GPT` is unset, has no effect at all |
| Bot.IsMessageForMeIff | src/index.js:176-185 | the message is for the bot exactly when it mentions the bot's id, its lowered body contains the lowered bot name, or it quotes one of the bot's messages |
| Bot.WithoutId | src/index.js:189 | the filtered history holds exactly the history entries with another id, and is no longer than the history |
| Bot.WithoutIdAppend | src/index.js:189 | filtering distributes over concatenation, so the kept entries keep their relative order |
| Bot.WithoutIdUnchanged | src/index.js:189 | a history without the id is kept whole |
| Bot.WithoutIdLength | src/index.js:189 | the kept entries and the entries with the id together make up the history |
| Bot.AppendMessageToHistory | src/index.js:187-191 | the message is the last entry and no other entry has its id |
| Bot.KeptFrom | src/index.js:189 | the positions from a start index on of the history entries with another id: strictly increasing, in range, and a position is listed exactly when its entry has another id |
| Bot.WithoutIdPositions | src/index.js:189 | the filtered history from a start index on lists the entries at the kept positions, in that order |
| Bot.HistoryKeepsOthers | src/index.js:189-190 | the window holds the entries with another id, each once and in their original order, and then the message |
| Bot.HistoryLength | src/index.js:189-190 | the window's length is the number of history entries with another id, plus one |
| Bot.FindById | src/index.js:228 | the search finds nothing exactly when no chat message has the id, and otherwise the first message with the id |
| Bot.IsMessageRevoked | src/index.js:223-229 | a message is revoked exactly when no fetched chat message has its id |
| Bot.RevokedIndicatorsSilent | src/index.js:231-242 | for a revoked message neither indicator reacts or replies |
| Bot.SuccessReacts | src/index.js:231-235 | otherwise `indicateSuccess` is one ✅ reaction |
| Bot.ErrorRepliesThenReacts | src/index.js:237-242 | otherwise `indicateError` replies with its text, when it has one, and then reacts ❌ |
| Bot.Asks | src/index.js:209 | one request effect per request, in order |
| Bot.ChatTypingFirst | src/index.js:208 | `processGPTChat` switches typing on before anything else |
| Bot.ChatAsksInOrder | src/index.js:208-209 | the requests follow immediately, in order, and no request comes after them |
| Bot.GptChatRequests | src/index.js:208-209 | there are one or two requests: the first to `gpt-4`, a second to a fallback model, both with the system message and the prompt |
| Bot.ChatClearsOnce | src/index.js:209-220 | the typing state is cleared exactly once, after every request, on success and on failure |
| Bot.ChatReplyIff | src/index.js:210-213 | the answer is replied exactly when the chat succeeded and the message is not revoked, and the reply is the answer |
| Bot.ChatFailureReacts | src/index.js:214-217 | a failed chat on a message that is not revoked ends with ❌ and sends no error text |
| Bot.RevokedChatSilent | src/index.js:210-217 | a revoked message gets no reply and no reaction from `processGPTChat` |
| Bot.GroupMessageNotForMe | src/index.js:197 | in a group, a message not for the bot has no effect |
| Bot.GptPromptWindow | src/index.js:199-202 | the prompt has one entry per history entry with another id, plus the triggering message's entry, which comes last |
| Bot.RevokedCommandReactions | src/index.js:91-174 | for a revoked message, the only reaction of any command handler is the ⏳ at its start |
| Bot.TranscribeSuccessOrder | src/index.js:134-152 | a transcription is downloaded, typed, transcribed, replied to the quoted audio, then typing is cleared, then ✅ |
| Bot.MissingMediaReplies | src/index.js:113-159 | `img` and `escreva` without quoted media reply with their error text, then react ❌ |
| Bot.Client.IndicateSuccess | src/index.js:231-235 | appends exactly the effects of `indicateSuccess` |
| Bot.Client.IndicateError | src/index.js:237-242 | appends exactly the effects of `indicateError` |
| Bot.Client.ProcessGptChat | src/index.js:206-221 | appends typing, the requests `chat` made and the settled effects, in the order `ChatEffects` gives them |
| Bot.Client.Resolve | src/index.js:209-220 | appends one request effect per request `chat` made, then the effects of the settled callbacks |
| Bot.Client.Settle | src/index.js:210-220 | appends the effects of the `.then`, `.catch` and `.finally` callbacks |
| Bot.Client.HandleGpt | src/index.js:193-204 | appends nothing for a group message not for the bot, else the chat effects for the history window's prompt |
| Bot.Client.HandleImageToSticker | src/index.js:91-111 | appends ⏳, then the download, the sticker send of the media of the message or of the one it quotes, then the guarded indicator on the triggering message |
| Bot.Client.SendMediaThenIndicate | src/index.js:98-107 | appends the send, then ✅ or ❌ by its outcome |
| Bot.Client.HandleStickerToImage | src/index.js:113-128 | appends the effects of converting the quoted sticker, or the error text and ❌ |
| Bot.Client.HandleTranscribeAudio | src/index.js:130-159 | appends the effects of transcribing the quoted audio, or the error text and ❌ |
| Bot.Client.HandleReset | src/index.js:161-174 | appends the clearing of the chat, then the confirmation or the guarded ❌ |
| Bot.Client.HandleCommands | src/index.js:71-89 | appends the selected command's effects, else the GPT effects when `GPT` is set, else nothing |
| Bot.Client.HandleMessage | src/index.js:63-69 | appends the effects of routing when the message passes the group gate, else nothing |

## Left out

- The HTTP server, QR code generation, the `console.txt` banner, `client.initialize` and logging (`src/index.js:15-61, 244-246`): these are input/output plumbing.
- The OpenAI client, the API key and the wording of the system message (`src/gpt/gpt.js:6-53`): the message's text is a parameter (`persona`).
- `transcribeAudio` (`src/gpt/gpt.js:163-189`): the multipart upload and base64 decoding are foreign library calls. The model takes the transcript, or a failure, as a parameter.
- Media download and sending (`src/index.js:91-128`): these are recorded as effects whose success is a parameter. The sticker's name and author metadata are not modelled.
- `Math.random()`: it is a parameter with a value in [0, 1).
- `toLocaleString`: the date is an opaque string.
- Promise interleaving: each handler run is one sequential trace.
  - The revocation guard reads one snapshot of the chat per run, where the code fetches the chat again for each check.
  - Calls that are not awaited are recorded in the order they are issued.
- Failures of the transport calls themselves (`react`, `reply`, `getChat`, `fetchMessages`, `getChatById`): not modelled.
- `getContact`: its result is used only for the sticker metadata, so it is not modelled.
- Crashes from a missing `_data` in `addQuotedInfo` (`src/gpt/gpt.js:147`) and from an unset `BOT_NAME` (`src/index.js:179`). The model reads an absent display name as `undefined`, and takes the bot name as a string.
- The shape of the completion service's response: the reply text is a parameter. A missing `choices` entry shows up only as a rejection without an HTTP response.
- A quote that does not resolve: the single field `quoted: Option<Message>` stands both for "no quote" and for a quote that `getQuotedMessage()` cannot resolve. The code checks the resolved quote in `transformChatForGPT` and `isMessageForMe` (`src/gpt/gpt.js:123`, `src/index.js:182`), but the media handlers would throw on an unresolved quote (`src/index.js:96, 116, 134`). The model takes the no-quote branch there instead.
- The `limit: 15` of `fetchMessages`: the history is a parameter, and its length is not bounded.
- Text.Lower: only ASCII letters are lowered. JavaScript's `toLowerCase` also folds other scripts.
- JsonProofs.ParseSerialize: the round trip is proved only for values without numbers. Number formatting is not modelled; the `Content` records have no numbers.
- Json.Truthy: a number literal's truthiness is decided from its digits, so a literal that underflows to zero in floating point (such as `1e-400`) counts as truthy.
- Json.ParseUnicodeEscape: a `\u` escape that names a lone surrogate is rejected. JavaScript accepts it, but such a string has no Dafny counterpart.
- Gpt.ChatOutcome: the error thrown when the fallback fails is represented by its status and status text, not by the formatted message.
