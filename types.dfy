/** Values exchanged between the chat component, its store and the bot connection. */
module Types {

  datatype Option<+T> = None | Some(value: T)

  /** A conversation participant; the component only ever compares `id`. */
  datatype User = User(id: string, name: string)

  datatype Attachment = Attachment(contentType: string, contentUrl: string, name: string)

  /** A file picked by the user: its media type, its display name and the bytes `botConnection.postFile` sends. */
  datatype File = File(mediaType: string, name: string, content: seq<bv8>)

  /**
   * An activity as the component reads it. `kind` is the activity's `type`
   * ("message", "typing", or anything else the transport forwards); `id` is the
   * identifier assigned by the remote endpoint, absent on a local message that has
   * not been acknowledged; `sendId` is the correlation id the store gives a local send.
   * An absent `text` or an empty `attachments` stands for the field being undefined.
   */
  datatype Activity = Activity(
    kind: string,
    id: Option<string>,
    sendId: Option<nat>,
    from: User,
    text: Option<string>,
    attachments: seq<Attachment>,
    timestamp: string)

  /** A value on the external selection channel: an activity, or only its identifier. */
  datatype ActivityOrID = ActivityOrID(activity: Option<Activity>, id: Option<string>)

  datatype FormatOptions = FormatOptions(showHeader: Option<bool>)

  /** The store actions this component dispatches. */
  datatype Action =
    | StartConnection(user: User, bot: User, selectionChannel: bool)
    | SetFormatOptions(options: FormatOptions)
    | SetLocalizedStrings(locale: string)
    | ConnectedToBot
    | ReceiveMessage(activity: Activity)
    | ShowTyping(activity: Activity)
    | ClearTyping(from: User)
    | SelectActivity(selected: Option<Activity>)
    | SendMessage(activity: Activity)
    | SendMessageTry(sendId: nat)
    | SendMessageSucceed(sendId: nat, id: string)
    | SendMessageFail(sendId: nat)

  /** What happens when a post to the bot connection resolves: a correlated store update, or only a log line. */
  datatype Reply = Correlated(sendId: nat) | LogOnly

  /**
   * One observable effect of the component, in the order it happens: a store
   * dispatch, a push onto the external selection channel, or a post to the bot
   * connection together with what its resolution will do.
   */
  datatype Event =
    | Dispatched(action: Action)
    | Pushed(selection: ActivityOrID)
    | PostedText(text: Option<string>, from: User, reply: Reply)
    | PostedFile(file: File, from: User, reply: Reply)
}
