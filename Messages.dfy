/**
 * The part of a WhatsApp message (a `whatsapp-web.js` `Message`) that the bot reads.
 */
module Messages {
  import opened Wrappers

  /**
   * One chat message.
   *  - `id` is the serialised message id (`id._serialized`), which identifies the message;
   *  - `from` is the chat the message came from (a group id ends in `@g.us`);
   *  - `author` is the sender inside a group, absent in a direct chat;
   *  - `notifyName` is the sender's display name (`_data.notifyName`), when known;
   *  - `date` is the already formatted send time (the bot prints it with `toLocaleString`);
   *  - `mediaType` is the message type (`type`, e.g. `image`, `ptt`, `audio`);
   *  - `quoted` is the message `getQuotedMessage()` resolves this one to reply to, if any;
   *    a message that quotes nothing and one whose quote does not resolve both have none.
   */
  datatype Message = Message(
    id: string,
    from: string,
    author: Option<string>,
    notifyName: Option<string>,
    date: string,
    body: string,
    fromMe: bool,
    hasMedia: bool,
    mediaType: string,
    mentionedIds: seq<string>,
    quoted: Option<Message>)
}
