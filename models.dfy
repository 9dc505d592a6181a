/** The plain record types the bot passes between its packages. */
module Models {

  /** A ledger account: the document stored under the user id in the "users" collection. */
  datatype User = User(userId: string, username: string, coins: int)

  /** What a command reports back: whether it succeeded and the text to show. */
  datatype CommandResult = CommandResult(success: bool, message: string)

  /** The JSON body of a reply to Slack: {text, response_type}. */
  datatype SlackResponse = SlackResponse(text: string, responseType: string)

  datatype SlackProfile = SlackProfile(displayName: string, realName: string)

  /** A member of the workspace as users.info and users.list describe it. */
  datatype SlackUser = SlackUser(id: string, name: string, realName: string, profile: SlackProfile)

  /** The inner event of an event callback. */
  datatype SlackEvent = SlackEvent(
    eventType: string, channel: string, user: string, text: string, ts: string, threadTs: string)

  /** An event callback payload: its type, the url_verification challenge and the inner event. */
  datatype EventPayload = EventPayload(payloadType: string, challenge: string, event: SlackEvent)

  /** The form fields of a slash command. */
  datatype SlashForm = SlashForm(
    command: string, text: string, userId: string, userName: string, responseUrl: string)
}
