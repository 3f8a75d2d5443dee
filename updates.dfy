/**
 * The shape of an incoming chat update and the first part of `handleUpdate`:
 * whether there is a message, reading the chat and sender ids, the exact
 * `/start` test, and the `split(' ')` that extracts the deep-link parameter.
 */
module Updates {
  import opened Wrappers
  import opened JsText

  datatype Chat = Chat(id: int)
  datatype Sender = Sender(id: int)

  /**
   * A message as decoded from JSON. A missing `chat` or `from` object makes the
   * handler throw when it reads `.id`; a missing `text` is simply not `/start`.
   */
  datatype Message = Message(chat: Option<Chat>, from: Option<Sender>, text: Option<string>)

  datatype Update = Update(message: Option<Message>)

  const StartCommand: string := "/start"

  /** Where `handleUpdate` goes with an update, before any message is sent. */
  datatype Route =
    | NoMessage                                          // `if (!update.message) return;`
    | TypeError                                          // reading `.id` of a missing `chat` or `from`
    | NotStart                                           // the text is not exactly `/start`: nothing happens
    | Start(chatId: int, userId: int, param: Option<string>)

  /** `parts[1]` of `text.split(' ')`, or `undefined`. */
  function DeepLinkParam(text: string): (param: Option<string>) {
    var parts := Split(text);
    if |parts| > 1 then Some(parts[1]) else None
  }

  function Classify(update: Update): (route: Route) {
    match update.message
    case None => NoMessage
    case Some(m) =>
      if m.chat.None? || m.from.None? then TypeError
      else if m.text == Some(StartCommand) then Start(m.chat.value.id, m.from.value.id, DeepLinkParam(m.text.value))
      else NotStart
  }

  /** A deep-link parameter is present exactly when the text has a space in it. */
  lemma DeepLinkParamIff(text: string)
    ensures DeepLinkParam(text).Some? <==> ' ' in text
  {
    SplitHasSecondPieceIff(text);
  }

  /**
   * Because the guard demands the text be exactly `/start`, which has no space,
   * the parameter is always absent when the start branch runs.
   */
  lemma StartNeverCarriesParam(update: Update)
    ensures Classify(update).Start? ==> Classify(update).param == None
  {
  }

  /** The start branch runs exactly for a message with chat, sender and the text `/start`. */
  lemma StartRouteIff(update: Update, chatId: int, userId: int)
    ensures Classify(update) == Start(chatId, userId, None) <==>
            update.message == Some(Message(Some(Chat(chatId)), Some(Sender(userId)), Some(StartCommand)))
  {
  }

  /** The payment-return deep link `/start paid_<id>` fails the exact-text guard and gets no reply. */
  lemma DeepLinkIsNotStart(chatId: int, userId: int, param: string)
    ensures Classify(Update(Some(Message(Some(Chat(chatId)), Some(Sender(userId)), Some(StartCommand + " " + param))))) == NotStart
  {
  }
}
