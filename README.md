# Karma bot: session store and approval workflow in Dafny

This project models the karma bot for a Telegram chat. A member asks for +1 or -1
karma for another member with `/up [reason]` or `/down [reason]`. The request then
goes through two steps:

- The requester picks the candidate on an inline keyboard. This is a SELECT_USER
  session, keyed by the prompt message.
- A third member confirms or declines the request. This is a CONFIRM_REQUEST
  session, keyed by the confirmation prompt.

An accepted confirmation appends a row `[reason, ±1]` to the candidate's column in a
spreadsheet ledger. That is the write the adapter's row arithmetic describes; the
adapter as shipped cannot perform it (see "## Left out"). Every session carries a TTL. When an expiry task fires, it
retracts the prompt and deletes the session.

The model covers the following parts:

- **The current session store** (`SessionStore`, `session_store.dfy`). It is a class
  with three fields:
  - `storage`;
  - the reverse index `usersSessions`;
  - `pending`, the set of ids whose expiry task is scheduled.

  Its invariant `Valid()` requires three things: records are stored under their own
  ids; the index equals `IndexOf(storage)`, so it maps exactly the users who own a
  session, each to exactly their ids and never to an empty set; and every live
  session has one pending task. The asyncio task waking up is the explicit step
  `FireExpiry`, and the clock is the parameter `now`.
- **The older session store** (`LegacySessionStore`). `create` overwrites an
  existing id, `delete` of an absent id does nothing, `get` answers None, and an
  expiry never removes the record. Scheduled tasks form a multiset, because an
  overwritten record's task is never cancelled.
- **The user directory** (`Users`). It is a map from `str(id)` to a display name.
- **The karma ledger** (`Karma`). It is modelled abstractly: each mapped user has a
  sequence of rows, and a total is the sum of a user's amounts.
- **The current workflow** (`Bot`). These are the handlers `request_command`,
  `select_user`, `confirm_request` and the two expiry callbacks. They are methods of
  `BotManager`, which owns the store, the ledger and the directory. The Telegram
  calls become an `Outcome`, which says which prompt is retracted or which notice
  is sent.
- **The first bot version** (`LegacyBot`). These are the vote command and the
  `yes`/`no` callback, over the older store.
- **Support modules:**
  - `Keyboard` holds `_build_reply_markup`. Both versions use the same loop (for the
    older one, bot_manager.py:51-69).
  - `Text` holds Python's `str.strip()`, `s[k:]`, `str(n)` and `int(s)`.
  - `Scenarios` holds end-to-end runs of the workflow on a small fixed state.

## Model

| member | source | states |
|---|---|---|
| SessionStore.IndexOf | managers/session.py:80-82 | The reverse index maps exactly the owners of stored sessions, each to exactly the ids they own, and never maps a user to an empty set |
| SessionStore.IndexAfterInsert | managers/session.py:80-82 | Adding a new session to storage changes the exact index the way `users_sessions[user.id].add(id)` does (creating the set first) |
| SessionStore.IndexAfterRemove | managers/session.py:99-101 | Removing a session from storage changes the exact index the way `remove` followed by `del` of an emptied entry does; the owner is indexed beforehand |
| SessionStore.AddToIndex | managers/session.py:80-82 | `users_sessions[u].add(id)`, creating the set first; IndexAfterInsert and OwnerAfterInsert prove it is the index of the storage after the insert |
| SessionStore.RemoveFromIndex | managers/session.py:99-101 | `id` leaves the owner's set and the owner's entry goes exactly when the set became empty; every other user's entry is unchanged |
| SessionStore.OwnerAfterInsert | managers/session.py:80-82 | After an insertion, each user's index entry, present or absent, is the one `set.add` leaves |
| SessionStore.OwnerAfterRemove | managers/session.py:99-101 | After a removal, a user keeps an index entry exactly when they still own a session, and the entry is the one `remove` and `del` leave |
| SessionStore.InIndexIffOwned | managers/session.py:115-117 | A user has an index entry exactly when they own a stored session, and the entry is the set of those sessions |
| SessionStore.SessionIsExpired | managers/session.py:106-107 | A session is past due strictly after its expiry time, so it is still live at that exact time |
| SessionStore.SessionManager.constructor | managers/session.py:24-27 | The store starts empty, with no index entries, no pending tasks and the given TTL table |
| SessionStore.SessionManager.GetSessionTtl | managers/session.py:29-36 | Returns the configured TTL exactly when one is set for the type, and a TTL-not-set error otherwise |
| SessionStore.SessionManager.CreateSession | managers/session.py:56-87 | A duplicate id or a type without a TTL fails and changes nothing; otherwise the record is stored with `expire_time = now + ttl`, indexed under its owner, its expiry scheduled, the id returned, and the invariant kept |
| SessionStore.SessionManager.Remove | managers/session.py:97-101 | Pops exactly that session from storage, its owner's index entry and the pending tasks, and keeps the invariant |
| SessionStore.SessionManager.DeleteSession | managers/session.py:89-104 | An absent id fails and changes nothing; otherwise only that session is removed from the records, from its owner's entry and from the pending expiries |
| SessionStore.SessionManager.GetSession | managers/session.py:109-113 | Returns the stored record, past due or not, exactly when the id is stored, and a not-found error otherwise |
| SessionStore.SessionManager.UserHasSession | managers/session.py:115-124 | True exactly when the user owns a stored session, of the given type when a filter is given |
| SessionStore.SessionManager.FireExpiry | managers/session.py:42-54 | The callback gets the stored record; then the session is deleted without a cancellation, and the invariant is kept |
| LegacySessionStore.SessionManager.constructor | session_manager.py:5-7 | The store starts empty with one TTL for every session |
| LegacySessionStore.SessionManager.Create | session_manager.py:9-39 | Stores the record under its id, replacing any earlier one, with `expired = create_time + session_ttl`; one more task is scheduled and the replaced one is not cancelled |
| LegacySessionStore.SessionManager.Delete | session_manager.py:41-47 | An absent id leaves everything unchanged; otherwise that record's task is cancelled and only that record is removed |
| LegacySessionStore.SessionManager.Get | session_manager.py:49-54 | The stored record, or None exactly when the id is absent |
| LegacySessionStore.SessionManager.FireExpiry | session_manager.py:23-27 | A task firing calls `on_expired` and leaves the stored records unchanged |
| LegacySessionStore.OverwriteLeavesOrphanTask | session_manager.py:20-27 | Creating an id twice and deleting it leaves no record but one live task, whose `on_expired` still runs |
| Users.Truthy | services/users.py:9 | An `except_user` is truthy exactly when it is given and its `str()` is not "0" |
| Users.UsersService.constructor | services/users.py:5-6 | The directory holds the given mapping |
| Users.UsersService.GetAllUsers | services/users.py:9-18 | With a truthy `except_user`, exactly the entries whose key differs from `str(except_user)`, values unchanged; with None or 0, the whole directory |
| Users.UsersService.GetUserName | services/users.py:20-25 | The name under `str(user_id)`, and a UserException exactly when that key is absent |
| Users.UsersService.UserExists | services/users.py:27-29 | Holds exactly when `get_user_name` of the same id does not fail |
| Karma.Sum | services/karma.py:18-20 | The total of a column whose amounts are all within ±1 is bounded by the number of rows |
| Karma.SumAppend | services/karma.py:16-20 | Appending a row to a column adds that row's amount to the column's total |
| Karma.KarmaService.constructor | services/karma.py:2-3 | The ledger starts with the adapter's columns and first data row |
| Karma.KarmaService.AddValue | services/karma.py:5-8 | An unmapped user fails and nothing is written; otherwise `[reason, amount]` is appended to that user's rows only, at sheet row `first_data_row + len(rows)` |
| Karma.KarmaService.Up | services/karma.py:10-11 | Appends `[reason, 1]` and raises the user's total by exactly 1; fails for an unmapped user |
| Karma.KarmaService.Down | services/karma.py:13-14 | Appends `[reason, -1]` and lowers the user's total by exactly 1; fails for an unmapped user |
| Karma.KarmaService.GetTotalValue | services/karma.py:16-20 | The sum of the user's amount cells, and an error exactly when the user is unmapped |
| Karma.KarmaService.GetTotalValues | services/karma.py:22-26 | Exactly the mapped users as keys, each mapped to its GetTotalValue |
| Chat.Amount | managers/bot.py:421-424 | UP is +1 and DOWN is -1 |
| Text.IsSpace | managers/bot.py:143 | The whitespace `str.strip()` removes includes space, tab, newline and carriage return, and contains no digit |
| Text.Drop | managers/bot.py:143 | `text[k:]`: the suffix from k, or empty when k is past the end |
| Text.Strip | managers/bot.py:143 | `str.strip()`: empty exactly for all-whitespace text; otherwise a slice of the text with no whitespace at either end and only whitespace around it |
| Text.StripIdempotent | managers/bot.py:143 | Stripping a stripped text changes nothing |
| Text.StripPadded | managers/bot.py:143 | Whitespace followed by a word with no whitespace at its ends strips to that word |
| Text.NatToDecimal | services/users.py:21 | `str(n)` is a canonical digit string, with no leading zero for a positive n |
| Text.DecimalToNat | managers/bot.py:299 | `int(s)` of an ASCII digit string is at least the value of its leading digit |
| Text.DecimalRoundTrip | managers/bot.py:299 | `int(str(n)) == n` |
| Text.CanonicalRoundTrip | managers/bot.py:299 | `str(int(s)) == s` holds for a digit string exactly when it has no leading zero |
| Keyboard.BuildReplyMarkup | managers/bot.py:92-112 | One button per entry with label and callback data swapped, in input order, in rows of two; a final one-button row exists exactly when the count is odd |
| Keyboard.ButtonsOf | managers/bot.py:98 | One button per entry, in order, labelled with the value and carrying the key as callback data |
| Bot.ExtractReason | managers/bot.py:142-144 | The reason is None exactly when only whitespace follows the command entity; otherwise it is the text after the entity, stripped, with only whitespace around it |
| Bot.ReasonAfterCommand | managers/bot.py:142-144 | A command followed by whitespace and a trimmed reason yields exactly that reason |
| Bot.OfferedKeyIsKnown | managers/bot.py:299-315 | A candidate offered under key `str(id)` is found again by `get_user_name(int(key))`, with the same name |
| Bot.Authorize | managers/bot.py:390-409 | Both directions: CONFIRM by the requester, CONFIRM by the selected user and DECLINE by the selected user are refused, each with its own rule, and every other choice is accepted |
| Bot.ButtonsList | managers/bot.py:97-98 | Buttons made from the distinct entries of a dictionary list each entry once, labelled with its value |
| Bot.Items | managers/bot.py:97 | `dict.items()` yields every entry of the dictionary exactly once |
| Bot.Selected | managers/bot.py:322-329 | The confirmation payload is keyed by the confirmation prompt and carries the selection; requester, request message, direction and reason are kept |
| Bot.BotManager.constructor | managers/bot.py:51-56 | The workflow object owns the given store, ledger and directory; every session is keyed by the prompt its payload names |
| Bot.BotManager.OfferCandidates | managers/bot.py:157 | The selection keyboard lists every known user except the requester, each once with their name, two per row |
| Bot.BotManager.RequestCommand | managers/bot.py:137-189 | A requester who already owns a SELECT_USER session is refused and nothing changes. Otherwise a SELECT_USER session is stored under the prompt, owned by the requester and carrying the direction and the extracted reason; if the store refuses it, the prompt is retracted and nothing is stored |
| Bot.BotManager.OpenSelection | managers/bot.py:149-187 | The same decision, for a request whose payload is already built |
| Bot.BotManager.SelectUserCallback | managers/bot.py:261-347 | The cases, in order: a missing session only retracts; an expired one is deleted; a non-requester changes nothing; an unknown selected user faults after the deletion; a refused create retracts the new prompt; otherwise the SELECT_USER session is replaced by a CONFIRM_REQUEST session owned by the selecting user and carrying the request and `selected_user_id` |
| Bot.BotManager.ConfirmRequestCallback | managers/bot.py:349-445 | A missing session only retracts; an expired one is deleted; a refused choice changes nothing. An accepted choice deletes the session before any ledger call; CONFIRM appends `[reason, ±1]` to the selected user's rows, or fails for an unmapped user; DECLINE writes nothing |
| Bot.BotManager.ExpireSession | managers/bot.py:123-135 | An expiry retracts the prompt the session is keyed by, and deletes exactly that session |
| LegacyBot.Mention | bot_manager.py:74-75 | A mention exists exactly when the second entity exists and is a text mention |
| LegacyBot.VoteReason | bot_manager.py:79 | The text after the mention, stripped: empty exactly when only whitespace follows; otherwise the slice of that text with only whitespace before and after it |
| LegacyBot.ConfirmAsWritten | bot_manager.py:153-191 | As written, a press on a prompt with no record crashes; on a present record it agrees with ConfirmDecision |
| LegacyBot.ConfirmDecision | bot_manager.py:156-176 | Both directions: no record or a past-due record is stale; `yes` from the requester and `no` from the mentioned user are refused; other `yes` presses approve with ±1 and the stored reason, and other choices reject; it never crashes |
| LegacyBot.MissingRecordCrashes | bot_manager.py:156-160 | On a missing record the handler as written crashes, where the intended decision is stale |
| LegacyBot.CandidateMayApprove | bot_manager.py:166-176 | In this version the mentioned user may approve their own vote |
| LegacyBot.ConfirmMarkup | bot_manager.py:25-28 | The prompt's keyboard is one row: the approve button `yes`, then the reject button `no` |
| LegacyBot.VoteBot.constructor | bot_manager.py:20-23 | The bot owns the given store |
| LegacyBot.VoteBot.VoteCommand | bot_manager.py:72-103 | Without a text mention as second entity, nothing is stored; otherwise a record under the prompt holds the requester, the mentioned user, the direction and the stripped reason, with `expired = now + ttl`, replacing any earlier record |
| LegacyBot.VoteBot.ConfirmCallback | bot_manager.py:153-191 | The decision is ConfirmDecision on the stored record; only an approval or a rejection deletes the record, and a stale or refused press changes nothing |
| LegacyBot.VoteBot.ExpireVote | bot_manager.py:88-90 | An expiry retracts the prompt, and the record stays stored |
| Scenarios.Requested | managers/bot.py:142-177 | A `/up` with a reason from user 1 stores exactly one SELECT_USER session under the prompt, carrying that reason |
| Scenarios.RequestAndSelect | managers/bot.py:308-337 | The requester choosing user 2 leaves exactly one CONFIRM_REQUEST session under the new prompt, carrying the request and the selection |
| Scenarios.ThirdPartyConfirms | managers/bot.py:411-424 | A third user's CONFIRM gives user 2 a +1 row with the reason and leaves no session |
| Scenarios.RequesterConfirms | managers/bot.py:390-395 | The requester's CONFIRM is refused; the ledger is untouched and the session is still live |
| Scenarios.CandidateConfirms | managers/bot.py:397-402 | The candidate's CONFIRM is refused; the ledger is untouched and the session is still live |
| Scenarios.RequesterDeclines | managers/bot.py:441-445 | The requester's DECLINE is accepted; the session goes and nothing is written |
| Scenarios.SelectionExpires | managers/bot.py:123-128 | A SELECT_USER session with TTL 10 from time 0 is live at 10 and past due at 11; its expiry retracts the prompt and leaves neither session nor task |
| Scenarios.SecondRequestRefused | managers/bot.py:149-154 | A second request while a selection is open is refused, and the requester still owns exactly one session |

## Left out

- Telegram I/O is not modelled: replies, message deletion, `send_message`,
  `get_member`, handler registration and the Markdown texts. Each handler instead
  returns an outcome that names the retracted prompt or the notice. The ids of the
  messages the bot sends are parameters.
- asyncio is not modelled. An expiry task is an id in a pending set (or, for the
  older store, a multiset), and its wake-up is an explicit step. Interleavings of
  handlers are not modelled.
- The wall clock `time()`, a float, is the integer parameter `now`.
- The session id default `uuid4()` is not modelled. It is evaluated once, when
  `create_session` is defined. Every caller passes an explicit id, and so does the
  model.
- `restrict_public_access` is not modelled. It is a chat-id equality guard around
  every handler, and the model assumes every update comes from the bot's chat.
- The `help`, `show` and `unknown` handlers are not modelled. They are text
  formatting and remote member lookups; the only logic is the descending sort of
  the totals, which is left out.
- These files are not part of this model:
  - google_spreadsheet_manager.py: the sheet adapter, replaced by the abstract row
    columns. Karma.KarmaService.AddValue models the write that the adapter's row
    arithmetic describes (google_spreadsheet_manager.py:29-30). The shipped
    `add_row_data` reads the undefined name `column` (google_spreadsheet_manager.py:34),
    so every `_add_value` raises. With that adapter, every accepted CONFIRM deletes
    the session and then takes the `LedgerFailed` branch (managers/bot.py:425-430).
    The model does not capture this;
  - vote_manager.py: an older duplicate of services/karma.py;
  - main.py, handler.py and config.py: wiring and environment reading.
- Logging is not modelled.
- Bot.Items: Python's dictionary order is insertion order. The model leaves the
  order open and states only that every entry appears exactly once.
- SessionStore.SessionManager.GetSessionTtl: `session_type not in SessionType` is
  not modelled. With a datatype of session types it can never hold.
- SessionStore.SessionManager.FireExpiry: `delete_session(id, cancel_task=False)`
  is modelled only as the last step of an expiry, which is its one caller. The
  callback's own failures are swallowed, so its effect is left to the handler.
- Bot.BotManager.SelectUserCallback: the callback pattern `^\d+$` also accepts
  non-ASCII Unicode digits; the model takes ASCII digits only.
- Bot.ExtractReason: Telegram entity offsets count UTF-16 code units, while the
  model indexes Python characters. They agree only for text inside the Basic
  Multilingual Plane.
- LegacyBot.VoteReason: the same offset gap. The slice starts after a text
  mention, whose text is a display name and may hold characters outside the Basic
  Multilingual Plane; the model indexes Python characters.
- Karma.KarmaService.GetTotalValue: the amount cells are taken as integers already.
  The failure of `int(row[0])` on a non-numeric cell is not modelled.
- Bot.BotManager.ConfirmRequestCallback: a CONFIRM_REQUEST session always carries
  `selected_user_id`. A record without it (`Fault`) can only arise from a
  SELECT_USER session keyed by a confirmation prompt; the model keeps the branch
  but does not show that it is unreachable.
- LegacyBot.VoteBot.VoteCommand: the reply that announces a vote without a
  mention is only the `NoMention` outcome.

## Findings

| source | as written | input that shows it | evidently intended | confidence | as-written member | corrected member |
|---|---|---|---|---|---|---|
| bot_manager.py:156-160 | When `get` returns None, the handler deletes the prompt and then reads `session["command_message"]` from None, which raises | A `yes` or `no` press on a prompt whose record is gone, e.g. after the bot restarted with an empty store | The press is told the request is no longer valid, like a past-due record | not executed | LegacyBot.ConfirmAsWritten | LegacyBot.ConfirmDecision |
