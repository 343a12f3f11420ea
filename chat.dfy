/** The few chat-transport notions the bot's logic depends on. */
module Chat {

  /**
   * Telegram user ids. Real ids are positive, but 0 is kept: Python treats
   * an id of 0 as falsy, and `get_all_users` then filters nothing.
   */
  type UserId = nat

  /** Telegram message ids; the bot reuses them as session ids. */
  type MessageId = int

  /** The direction of a karma request: `/up` or `/down`. */
  datatype Direction = Up | Down

  /** The value written to the ledger for a direction (+1 for up, -1 for down). */
  function Amount(d: Direction): (a: int)
    ensures a == 1 || a == -1
    ensures a > 0 <==> d == Up
  {
    match d
    case Up => 1
    case Down => -1
  }

  /** The kinds of message entity the handlers look at. */
  datatype EntityKind = BotCommand | TextMention(user: UserId) | OtherEntity

  /** A message entity: its kind and the character range it covers in the text. */
  datatype Entity = Entity(kind: EntityKind, offset: nat, length: nat)
}
