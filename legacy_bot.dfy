/**
 * The first bot version (bot_manager.py), without the Telegram calls.
 *
 * `/up @user reason` and `/down @user reason` name the candidate by a text
 * mention and post one prompt with two buttons, `yes` and `no`; the prompt
 * id keys a record in the older store. A press on the prompt is judged
 * against the record: the requester may not approve and the mentioned user
 * may not reject. An accepted press is announced and the record deleted;
 * the ledger writes of this version are commented out, so nothing is
 * recorded.
 */
module LegacyBot {
  import opened Wrappers
  import opened Chat
  import opened Text
  import opened Keyboard
  import opened LegacySessionStore

  /** The two refusals of `confirm_callback_query`. */
  datatype Refusal = InitiatorApproval | CandidateRejection

  /** What a vote command does: no session without a mention, else one prompt and one record. */
  datatype VoteOutcome = NoMention | VoteOffered(prompt: MessageId)

  /** What a press on a prompt leads to. */
  datatype Decision =
    | Stale                                              // no longer valid: the prompt is retracted
    | Crash                                              // the handler raises
    | Refused(rule: Refusal)                             // the record stays
    | Approved(user: UserId, amount: int, reason: string)  // announced only, then the record is deleted
    | Rejected                                           // announced, then the record is deleted

  /**
   * The text mention of a vote command: the second entity of the message,
   * when there is one and it is a text mention.
   */
  function Mention(entities: seq<Entity>): (m: Option<Entity>)
    ensures m.Some? <==> |entities| >= 2 && entities[1].kind.TextMention?
    ensures m.Some? ==> m.value == entities[1]
  {
    if |entities| < 2 || !entities[1].kind.TextMention? then None else Some(entities[1])
  }

  /**
   * The reason of a vote: the text after the mention, stripped; unlike the
   * current bot it stays a (possibly empty) string.
   */
  function VoteReason(text: string, mention: Entity): (reason: string)
    ensures var tail := Drop(text, mention.offset + mention.length);
      && (reason == [] <==> AllSpace(tail))
      && (reason != [] ==> Trimmed(reason))
      && StripOffset(tail) + |reason| <= |tail|
      && tail[StripOffset(tail)..StripOffset(tail) + |reason|] == reason
      && (forall k :: 0 <= k < StripOffset(tail) ==> IsSpace(tail[k]))
      && (forall k :: StripOffset(tail) + |reason| <= k < |tail| ==> IsSpace(tail[k]))
  {
    Strip(Drop(text, mention.offset + mention.length))
  }

  /**
   * `confirm_callback_query` as written: a press on a prompt whose record
   * is gone retracts the prompt and then reads the missing record, which
   * raises; on a present record it decides as ConfirmDecision does.
   */
  function ConfirmAsWritten(session: Option<VoteSession>, actor: UserId, choice: string, now: int)
    : (d: Decision)
    ensures session.None? ==> d == Crash
    ensures session.Some? ==> d == ConfirmDecision(session, actor, choice, now)
  {
    if session.None? then Crash else ConfirmDecision(session, actor, choice, now)
  }

  /**
   * The decision the handler evidently intends: a missing or past-due
   * record is no longer valid; `yes` from the requester and `no` from the
   * mentioned user are refused; any other press is accepted, `yes` as an
   * approval and every other choice as a rejection.
   */
  function ConfirmDecision(session: Option<VoteSession>, actor: UserId, choice: string, now: int)
    : (d: Decision)
    ensures d != Crash
    ensures d == Stale <==> session.None? || now > session.value.expired
    ensures d.Approved? <==>
      session.Some? && now <= session.value.expired && choice == "yes" && actor != session.value.requestingUser
    ensures d.Approved? ==>
      d == Approved(session.value.votedUser, Amount(session.value.voteType), session.value.voteReason)
    ensures d == Rejected <==>
      && session.Some? && now <= session.value.expired && choice != "yes"
      && (choice == "no" ==> actor != session.value.votedUser)
    ensures d == Refused(InitiatorApproval) <==>
      session.Some? && now <= session.value.expired && choice == "yes" && actor == session.value.requestingUser
    ensures d == Refused(CandidateRejection) <==>
      session.Some? && now <= session.value.expired && choice == "no" && actor == session.value.votedUser
  {
    if session.None? || now > session.value.expired then Stale
    else
      var s := session.value;
      if s.requestingUser == actor && choice == "yes" then Refused(InitiatorApproval)
      else if s.votedUser == actor && choice == "no" then Refused(CandidateRejection)
      else if choice == "yes" then Approved(s.votedUser, Amount(s.voteType), s.voteReason)
      else Rejected
  }

  /** The discrepancy: on a missing record the handler as written raises where it means to retract. */
  lemma MissingRecordCrashes(actor: UserId, choice: string, now: int)
    ensures ConfirmAsWritten(None, actor, choice, now) == Crash
    ensures ConfirmDecision(None, actor, choice, now) == Stale
  {
  }

  /** Unlike the current bot, this version lets the mentioned user approve their own vote. */
  lemma CandidateMayApprove(s: VoteSession, now: int)
    requires now <= s.expired && s.votedUser != s.requestingUser
    ensures ConfirmDecision(Some(s), s.votedUser, "yes", now).Approved?
  {
  }

  /** The prompt's keyboard: one row holding the `yes` and the `no` button. */
  method ConfirmMarkup(approveLabel: string, rejectLabel: string) returns (layout: seq<seq<Button>>)
    ensures layout == [[Button(approveLabel, "yes"), Button(rejectLabel, "no")]]
  {
    var data := [("yes", approveLabel), ("no", rejectLabel)];
    layout := BuildReplyMarkup(data);
    var buttons := ButtonsOf(data);
    assert buttons == [Button(approveLabel, "yes"), Button(rejectLabel, "no")];
    assert |layout| == 1;
    assert layout[..0] == [];
    assert Flatten(layout) == layout[0];
    assert layout == [layout[0]];
  }

  class VoteBot {
    const sessions: SessionManager

    constructor(sessions: SessionManager)
      ensures this.sessions == sessions
    {
      this.sessions := sessions;
    }

    /**
     * `/up` or `/down` (`vote_command`): without a text mention as second
     * entity nothing is stored; otherwise a record keyed by the prompt holds
     * the requester, the mentioned user, the direction and the reason, with
     * `create_time = now`, replacing any record under that id.
     */
    method VoteCommand(voteType: Direction, requester: UserId, commandMessage: MessageId,
                       text: string, entities: seq<Entity>, prompt: MessageId, now: int)
      returns (outcome: VoteOutcome)
      requires sessions.Valid()
      modifies sessions
      ensures sessions.Valid()
      ensures Mention(entities).None? ==> outcome == NoMention && unchanged(sessions)
      ensures Mention(entities).Some? ==>
        var m := Mention(entities).value;
        && outcome == VoteOffered(prompt)
        && sessions.storage == old(sessions.storage)[prompt := VoteSession(
             prompt, now, now + sessions.sessionTtl, commandMessage, requester, m.kind.user,
             voteType, VoteReason(text, m))]
        && sessions.pending == old(sessions.pending) + multiset{prompt}
        && sessions.expiredCalls == old(sessions.expiredCalls)
    {
      var mention := Mention(entities);
      if mention.None? {
        return NoMention;
      }
      var reason := VoteReason(text, mention.value);
      sessions.Create(prompt, now, commandMessage, requester, mention.value.kind.user, voteType, reason);
      outcome := VoteOffered(prompt);
    }

    /**
     * A press on a prompt (`confirm_callback_query`), with the missing-record
     * case corrected to the no-longer-valid path. Only an approval or a
     * rejection deletes the record; a stale or refused press changes
     * nothing, so a past-due record stays stored.
     */
    method ConfirmCallback(prompt: MessageId, actor: UserId, choice: string, now: int)
      returns (d: Decision)
      requires sessions.Valid()
      modifies sessions
      ensures sessions.Valid()
      ensures d == ConfirmDecision(old(sessions.Get(prompt)), actor, choice, now)
      ensures (d.Approved? || d == Rejected) ==>
        && sessions.storage == old(sessions.storage) - {prompt}
        && sessions.pending == old(sessions.pending) - multiset{prompt}
        && sessions.expiredCalls == old(sessions.expiredCalls)
      ensures !(d.Approved? || d == Rejected) ==> unchanged(sessions)
    {
      d := ConfirmDecision(sessions.Get(prompt), actor, choice, now);
      if d.Approved? || d == Rejected {
        sessions.Delete(prompt);
      }
    }

    /**
     * One expiry task of a prompt firing: `on_expired` retracts the prompt
     * and the record stays stored.
     */
    method ExpireVote(prompt: MessageId) returns (d: Decision)
      requires sessions.Valid() && prompt in sessions.pending
      modifies sessions
      ensures sessions.Valid()
      ensures d == Stale
      ensures sessions.storage == old(sessions.storage)
      ensures sessions.pending == old(sessions.pending) - multiset{prompt}
      ensures sessions.expiredCalls == old(sessions.expiredCalls) + [prompt]
    {
      sessions.FireExpiry(prompt);
      d := Stale;
    }
  }
}
