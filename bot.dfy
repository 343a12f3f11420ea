/**
 * The approval workflow of the current bot (managers/bot.py), without the
 * Telegram calls.
 *
 * `/up` and `/down` open a SELECT_USER session keyed by the prompt that
 * lists the candidates; the requester's choice replaces it by a
 * CONFIRM_REQUEST session keyed by the confirmation prompt; a CONFIRM or
 * DECLINE from the chat closes it, writing +1 or -1 for the selected user on
 * an accepted CONFIRM. Ids of the prompts the bot sends are parameters, as
 * is the clock. Each handler returns an Outcome that says what the user is
 * shown: which prompt is retracted, which notice is sent.
 */
module Bot {
  import opened Wrappers
  import opened Chat
  import opened Text
  import opened Keyboard
  import opened SessionStore
  import opened Users
  import opened Karma

  datatype ConfirmOption = Confirm | Decline

  /**
   * The session data of both phases. `prompt` is the message the session
   * is keyed by (`select_user_message`, then `confirm_request_message`);
   * `selected` is `selected_user_id`, present in the confirmation phase only.
   */
  datatype Payload = Payload(
    requester: UserId,
    requestMessage: MessageId,
    requestType: Direction,
    reason: Option<string>,
    prompt: MessageId,
    selected: Option<UserId>)

  /** The three choices the confirmation step refuses. */
  datatype Rejection = SelfApproval | CandidateApproval | CandidateDecline

  datatype Outcome =
    | AlreadySelecting                          // the requester already has a SELECT_USER session
    | SelectionOffered(prompt: MessageId, offered: map<string, string>, keyboard: seq<seq<Button>>)
    | CommandFailed(retracted: MessageId)       // the session could not be created; its prompt is deleted
    | NoLongerValid(retracted: MessageId)       // missing or expired session; its prompt is deleted
    | NotRequester                              // a selection by someone other than the requester
    | ConfirmationOffered(prompt: MessageId)
    | Refused(rule: Rejection)
    | Committed(user: UserId, amount: int, reason: Option<string>)
    | LedgerFailed                              // the ledger write raised after the session was deleted
    | Declined
    | Fault                                     // an exception the handler does not catch

  /**
   * The reason of a request: the message text after the command entity,
   * stripped, or None when nothing but whitespace follows the command.
   */
  function ExtractReason(text: string, command: Entity): (reason: Option<string>)
    ensures var tail := Drop(text, command.offset + command.length);
      && (reason.None? <==> AllSpace(tail))
      && (reason.Some? ==>
            var r := reason.value; var i := StripOffset(tail);
            && Trimmed(r)
            && i + |r| <= |tail| && tail[i..i + |r|] == r
            && (forall k :: 0 <= k < i ==> IsSpace(tail[k]))
            && (forall k :: i + |r| <= k < |tail| ==> IsSpace(tail[k])))
  {
    var reason := Strip(Drop(text, command.offset + command.length));
    if |reason| == 0 then None else Some(reason)
  }

  /** A command followed by whitespace and a reason yields exactly that reason. */
  lemma ReasonAfterCommand(command: string, sep: string, r: string)
    requires AllSpace(sep) && Trimmed(r)
    ensures ExtractReason(command + sep + r, Entity(BotCommand, 0, |command|)) == Some(r)
  {
    assert Drop(command + sep + r, |command|) == sep + r;
    StripPadded(sep, r);
  }

  /**
   * A candidate offered under a key written as `str(id)` is found again by
   * the selection handler's `get_user_name(int(key))`.
   */
  lemma OfferedKeyIsKnown(users: UsersService, key: string)
    requires key in users.users && IsCanonicalDecimal(key)
    ensures users.UserExists(DecimalToNat(key))
    ensures users.GetUserName(DecimalToNat(key)) == Success(users.users[key])
  {
    CanonicalRoundTrip(key);
  }

  /**
   * The authorisation checks of `confirm_request`, in their order: the
   * requester and the selected user may not confirm, and the selected user
   * may not decline; every other choice is accepted.
   */
  function Authorize(requester: UserId, selected: UserId, actor: UserId, option: ConfirmOption)
    : (r: Option<Rejection>)
    ensures r.None? <==>
      && (option == Confirm ==> actor != requester && actor != selected)
      && (option == Decline ==> actor != selected)
    ensures r == Some(SelfApproval) <==> option == Confirm && actor == requester
    ensures r == Some(CandidateApproval) <==> option == Confirm && actor == selected && actor != requester
    ensures r == Some(CandidateDecline) <==> option == Decline && actor == selected
  {
    if actor == requester && option == Confirm then Some(SelfApproval)
    else if actor == selected && option == Confirm then Some(CandidateApproval)
    else if actor == selected && option == Decline then Some(CandidateDecline)
    else None
  }

  /** The buttons are the entries of `offered`, each once, labelled with the user's name. */
  ghost predicate Lists(buttons: seq<Button>, offered: map<string, string>)
  {
    && (forall i :: 0 <= i < |buttons| ==>
          buttons[i].callbackData in offered && buttons[i].text == offered[buttons[i].callbackData])
    && (forall k :: k in offered ==> exists i :: 0 <= i < |buttons| && buttons[i].callbackData == k)
    && (forall i, j :: 0 <= i < j < |buttons| ==> buttons[i].callbackData != buttons[j].callbackData)
  }

  /** Buttons made from the distinct entries of `offered`, all of them, list `offered`. */
  lemma ButtonsList(data: seq<(string, string)>, offered: map<string, string>)
    requires forall i :: 0 <= i < |data| ==> data[i].0 in offered && data[i].1 == offered[data[i].0]
    requires forall k :: k in offered ==> exists i :: 0 <= i < |data| && data[i].0 == k
    requires forall i, j :: 0 <= i < j < |data| ==> data[i].0 != data[j].0
    ensures Lists(ButtonsOf(data), offered)
  {
    var buttons := ButtonsOf(data);
    forall k | k in offered
      ensures exists i :: 0 <= i < |buttons| && buttons[i].callbackData == k
    {
      var i :| 0 <= i < |data| && data[i].0 == k;
      assert buttons[i].callbackData == k;
    }
  }

  /** `dict.items()`: every entry once, in an iteration order the model leaves open. */
  method Items(m: map<string, string>) returns (data: seq<(string, string)>)
    ensures forall i :: 0 <= i < |data| ==> data[i].0 in m && data[i].1 == m[data[i].0]
    ensures forall k :: k in m ==> exists i :: 0 <= i < |data| && data[i].0 == k
    ensures forall i, j :: 0 <= i < j < |data| ==> data[i].0 != data[j].0
  {
    data := [];
    var todo := m.Keys;
    while todo != {}
      invariant todo <= m.Keys
      invariant forall i :: 0 <= i < |data| ==> data[i].0 in m - todo && data[i].1 == m[data[i].0]
      invariant forall k :: k in m - todo ==> exists i :: 0 <= i < |data| && data[i].0 == k
      invariant forall i, j :: 0 <= i < j < |data| ==> data[i].0 != data[j].0
      decreases todo
    {
      var k :| k in todo;
      var next := data + [(k, m[k])];
      assert next[|data|].0 == k;
      assert forall i :: 0 <= i < |data| ==> next[i] == data[i];
      forall j | j in m - (todo - {k})
        ensures exists i :: 0 <= i < |next| && next[i].0 == j
      {
        if j != k {
          assert j in m - todo;
          var i :| 0 <= i < |data| && data[i].0 == j;
          assert next[i].0 == j;
        }
      }
      data, todo := next, todo - {k};
    }
    assert m - todo == m;
  }

  /** The payload a selection turns a SELECT_USER payload into. */
  function Selected(p: Payload, confirmPrompt: MessageId, selected: UserId): (q: Payload)
    ensures q.prompt == confirmPrompt && q.selected == Some(selected)
    ensures q.(prompt := p.prompt, selected := p.selected) == p
  {
    Payload(p.requester, p.requestMessage, p.requestType, p.reason, confirmPrompt, Some(selected))
  }

  class BotManager {
    const sessions: SessionManager<Payload>
    const karma: KarmaService
    const users: UsersService

    /** The store is consistent, and every session is keyed by the prompt its payload names. */
    ghost predicate Valid()
      reads sessions
    {
      && sessions.Valid()
      && forall id :: id in sessions.storage ==> sessions.storage[id].data.prompt == id
    }

    constructor(sessions: SessionManager<Payload>, karma: KarmaService, users: UsersService)
      requires sessions.Valid()
      requires forall id :: id in sessions.storage ==> sessions.storage[id].data.prompt == id
      ensures Valid()
      ensures this.sessions == sessions && this.karma == karma && this.users == users
    {
      this.sessions := sessions;
      this.karma := karma;
      this.users := users;
    }

    /**
     * The selection keyboard of a request: every known user but the
     * requester, one button each, labelled with the name, two per row.
     */
    method OfferCandidates(requester: UserId) returns (offered: map<string, string>, keyboard: seq<seq<Button>>)
      ensures requester != 0 ==> offered.Keys == users.users.Keys - {NatToDecimal(requester)}
      ensures requester == 0 ==> offered == users.users
      ensures forall k :: k in offered ==> k in users.users && offered[k] == users.users[k]
      ensures Lists(Flatten(keyboard), offered)
      ensures RowsOfTwo(keyboard, |Flatten(keyboard)|)
    {
      offered := users.GetAllUsers(Some(requester));
      var data := Items(offered);
      keyboard := BuildReplyMarkup(data);
      ButtonsList(data, offered);
    }

    /**
     * `/up` or `/down` (`request_command`): refused while the requester owns
     * a SELECT_USER session; otherwise offers every known user but the
     * requester and opens a SELECT_USER session keyed by the prompt and
     * owned by the requester, carrying the request and its reason. If the
     * store refuses the session, the prompt is retracted and nothing is
     * stored.
     */
    method RequestCommand(requestType: Direction, requester: UserId, requestMessage: MessageId,
                          text: string, command: Entity, prompt: MessageId, now: int)
      returns (outcome: Outcome)
      requires Valid()
      modifies sessions
      ensures Valid()
      ensures old(HasLiveSession(sessions.storage, requester, Some(SelectUser))) ==>
        outcome == AlreadySelecting && unchanged(sessions)
      ensures !old(HasLiveSession(sessions.storage, requester, Some(SelectUser))) ==>
        OpensSelection(old(sessions.storage), sessions.storage, outcome,
                       Payload(requester, requestMessage, requestType, ExtractReason(text, command), prompt, None), now)
    {
      outcome := OpenSelection(Payload(requester, requestMessage, requestType, ExtractReason(text, command), prompt, None), now);
    }

    /**
     * What a request does once the requester has no SELECT_USER session:
     * the candidates are offered and the session is stored, or the store
     * refuses it and nothing changes.
     */
    ghost predicate OpensSelection(before: map<Id, Session<Payload>>, after: map<Id, Session<Payload>>,
                                   outcome: Outcome, p: Payload, now: int)
    {
      if p.prompt in before || SelectUser !in sessions.sessionTtls then
        outcome == CommandFailed(p.prompt) && after == before
      else
        && outcome.SelectionOffered?
        && outcome.prompt == p.prompt
        && (p.requester != 0 ==> outcome.offered.Keys == users.users.Keys - {NatToDecimal(p.requester)})
        && (p.requester == 0 ==> outcome.offered == users.users)
        && (forall k :: k in outcome.offered ==> k in users.users && outcome.offered[k] == users.users[k])
        && Lists(Flatten(outcome.keyboard), outcome.offered)
        && RowsOfTwo(outcome.keyboard, |Flatten(outcome.keyboard)|)
        && after == before[p.prompt := Session(p.prompt, SelectUser, p.requester,
                                               now + sessions.sessionTtls[SelectUser], p)]
    }

    /** The body of `request_command` after the reason is extracted. */
    method OpenSelection(p: Payload, now: int) returns (outcome: Outcome)
      requires Valid()
      modifies sessions
      ensures Valid()
      ensures old(HasLiveSession(sessions.storage, p.requester, Some(SelectUser))) ==>
        outcome == AlreadySelecting && unchanged(sessions)
      ensures !old(HasLiveSession(sessions.storage, p.requester, Some(SelectUser))) ==>
        OpensSelection(old(sessions.storage), sessions.storage, outcome, p, now)
    {
      if sessions.UserHasSession(p.requester, Some(SelectUser)) {
        return AlreadySelecting;
      }
      var offered, keyboard := OfferCandidates(p.requester);
      var created := sessions.CreateSession(SelectUser, p.requester, p, p.prompt, now);
      if created.Failure? {
        return CommandFailed(p.prompt);
      }
      outcome := SelectionOffered(p.prompt, offered, keyboard);
    }

    /**
     * A candidate chosen on the selection prompt (`select_user`). A missing
     * session only retracts the prompt; an expired one is also deleted; a
     * choice by anyone but the requester changes nothing. Otherwise the
     * SELECT_USER session is deleted and a CONFIRM_REQUEST session, owned by
     * the selecting user and carrying the request and `selected_user_id`,
     * is opened under the confirmation prompt. The name lookup of the
     * selected user is not caught: an unknown user ends the handler after
     * the deletion.
     */
    method SelectUserCallback(prompt: MessageId, selecting: UserId, callbackData: string,
                      confirmPrompt: MessageId, now: int)
      returns (outcome: Outcome)
      requires Valid()
      requires IsDigits(callbackData)  // the handler is registered for `^\d+$`
      modifies sessions
      ensures Valid()
      ensures prompt !in old(sessions.storage) ==> outcome == NoLongerValid(prompt) && unchanged(sessions)
      ensures prompt in old(sessions.storage) ==>
        var s := old(sessions.storage)[prompt];
        var selected := DecimalToNat(callbackData);
        var rest := old(sessions.storage) - {prompt};
        if SessionIsExpired(s, now) then
          outcome == NoLongerValid(prompt) && sessions.storage == rest
        else if s.data.requester != selecting then
          outcome == NotRequester && unchanged(sessions)
        else if !users.UserExists(selected) then
          outcome == Fault && sessions.storage == rest
        else if confirmPrompt in rest || ConfirmRequest !in sessions.sessionTtls then
          outcome == CommandFailed(confirmPrompt) && sessions.storage == rest
        else
          && outcome == ConfirmationOffered(confirmPrompt)
          && sessions.storage == rest[confirmPrompt := Session(
               confirmPrompt, ConfirmRequest, selecting, now + sessions.sessionTtls[ConfirmRequest],
               Selected(s.data, confirmPrompt, selected))]
    {
      var found := sessions.GetSession(prompt);
      if found.Failure? {
        return NoLongerValid(prompt);
      }
      var s := found.value;
      if SessionIsExpired(s, now) {
        var _ := sessions.DeleteSession(s.id);
        return NoLongerValid(prompt);
      }
      var selected := DecimalToNat(callbackData);
      if s.data.requester != selecting {
        return NotRequester;
      }
      var _ := sessions.DeleteSession(s.id);
      var name := users.GetUserName(selected);
      if name.Failure? {
        return Fault;
      }
      var created := sessions.CreateSession(ConfirmRequest, selecting, Selected(s.data, confirmPrompt, selected),
                                            confirmPrompt, now);
      if created.Failure? {
        return CommandFailed(confirmPrompt);
      }
      outcome := ConfirmationOffered(confirmPrompt);
    }

    /**
     * CONFIRM or DECLINE on the confirmation prompt (`confirm_request`).
     * A missing session only retracts the prompt; an expired one is also
     * deleted; a refused choice changes nothing. An accepted choice deletes
     * the session first; then CONFIRM writes +1 (UP) or -1 (DOWN) for the
     * selected user with the stored reason, and DECLINE writes nothing. A
     * failed write is reported, and the session stays deleted; the name
     * lookup for the announcement, after the write, is not caught.
     */
    method ConfirmRequestCallback(prompt: MessageId, actor: UserId, option: ConfirmOption, now: int)
      returns (outcome: Outcome)
      requires Valid()
      modifies sessions, karma
      ensures Valid()
      ensures prompt !in old(sessions.storage) ==>
        outcome == NoLongerValid(prompt) && unchanged(sessions) && unchanged(karma)
      ensures prompt in old(sessions.storage) ==>
        var s := old(sessions.storage)[prompt];
        var rest := old(sessions.storage) - {prompt};
        if s.data.selected.None? then
          outcome == Fault && unchanged(sessions) && unchanged(karma)
        else if SessionIsExpired(s, now) then
          outcome == NoLongerValid(prompt) && sessions.storage == rest && unchanged(karma)
        else if Authorize(s.data.requester, s.data.selected.value, actor, option).Some? then
          && outcome == Refused(Authorize(s.data.requester, s.data.selected.value, actor, option).value)
          && unchanged(sessions) && unchanged(karma)
        else
          && sessions.storage == rest
          && (option == Decline ==> outcome == Declined && unchanged(karma))
          && (option == Confirm && s.data.selected.value !in old(karma.columns) ==>
                outcome == LedgerFailed && karma.columns == old(karma.columns))
          && (option == Confirm && s.data.selected.value in old(karma.columns) ==>
                var user := s.data.selected.value;
                && outcome == (if users.UserExists(user) then Committed(user, Amount(s.data.requestType), s.data.reason)
                               else Fault)
                && karma.columns == old(karma.columns)[user :=
                     old(karma.columns)[user] + [Row(s.data.reason, Amount(s.data.requestType))]])
    {
      var found := sessions.GetSession(prompt);
      if found.Failure? {
        return NoLongerValid(prompt);
      }
      var s := found.value;
      if s.data.selected.None? {
        return Fault;
      }
      var selected := s.data.selected.value;
      if SessionIsExpired(s, now) {
        var _ := sessions.DeleteSession(s.id);
        return NoLongerValid(prompt);
      }
      var refusal := Authorize(s.data.requester, selected, actor, option);
      if refusal.Some? {
        return Refused(refusal.value);
      }
      var _ := sessions.DeleteSession(s.id);
      if option == Decline {
        return Declined;
      }
      var written;
      if s.data.requestType == Up {
        written := karma.Up(selected, s.data.reason);
      } else {
        written := karma.Down(selected, s.data.reason);
      }
      if written.Failure? {
        return LedgerFailed;
      }
      var name := users.GetUserName(selected);
      if name.Failure? {
        return Fault;
      }
      outcome := Committed(selected, Amount(s.data.requestType), s.data.reason);
    }

    /**
     * The expiry task of session `id` firing: its callback retracts the
     * prompt the session is keyed by and tells the requester the request is no longer
     * valid, and the session is deleted.
     */
    method ExpireSession(id: MessageId) returns (outcome: Outcome)
      requires Valid() && id in sessions.pending
      modifies sessions
      ensures Valid()
      ensures outcome == NoLongerValid(id)
      ensures sessions.storage == old(sessions.storage) - {id}
    {
      var fired := sessions.FireExpiry(id);
      outcome := NoLongerValid(fired.data.prompt);
    }
  }
}
