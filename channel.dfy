/** What the bot exchanges with the chat channel and its backends. */
module Channel {

  import Wrappers

  /** A participant of the conversation, identified by its channel id. */
  datatype ChannelAccount = ChannelAccount(id: string)

  /** An outgoing message: its text and, optionally, the text to speak. */
  datatype Activity = Activity(text: string, speak: Wrappers.Option<string>)

  /** Why a turn stopped. `Failure` is an error a backend call threw;
      `TypeError` is the error JavaScript throws when the bot reads the
      named property of `undefined`. */
  datatype Error = Failure(message: string) | TypeError(reading: string)

  /** `context.sendActivity(text)` with a plain string: text, nothing to speak. */
  function TextActivity(text: string): Activity
  {
    Activity(text, Wrappers.None)
  }
}
