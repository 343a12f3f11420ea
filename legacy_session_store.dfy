/**
 * The older session store (session_manager.py), used by the first bot
 * version: one TTL for every session, a record per vote prompt, and an
 * expiry task that only calls the session's `on_expired` callback.
 *
 * Unlike the current store, `create` on an existing id overwrites the
 * record without cancelling the earlier task, `delete` of an absent id does
 * nothing, `get` answers None, and an expiry never removes the record. The
 * scheduled tasks are a multiset of ids, because an overwritten session's
 * task stays scheduled beside the new one.
 */
module LegacySessionStore {
  import opened Wrappers
  import opened Chat

  type Id = MessageId

  /** The record stored for a vote prompt. */
  datatype VoteSession = VoteSession(
    id: Id,
    createTime: int,
    expired: int,
    commandMessage: MessageId,
    requestingUser: UserId,
    votedUser: UserId,
    voteType: Direction,
    voteReason: string)

  class SessionManager {
    var storage: map<Id, VoteSession>
    const sessionTtl: int
    /** One occurrence of an id per scheduled, not cancelled `on_expired` task created for it. */
    var pending: multiset<Id>
    /** The ids whose `on_expired` callback has run, in order. */
    var expiredCalls: seq<Id>

    /** Records are keyed by their ids. */
    ghost predicate Valid()
      reads this
    {
      forall id :: id in storage ==> storage[id].id == id
    }

    constructor(sessionTtl: int)
      ensures Valid()
      ensures this.sessionTtl == sessionTtl
      ensures storage == map[] && pending == multiset{} && expiredCalls == []
    {
      this.sessionTtl := sessionTtl;
      storage := map[];
      pending := multiset{};
      expiredCalls := [];
    }

    /**
     * `create`: stores the record under `id`, replacing any record already
     * there, with `expired = create_time + session_ttl`, and schedules one
     * more task; a replaced record's task is not cancelled.
     */
    method Create(id: Id, createTime: int, commandMessage: MessageId, requestingUser: UserId,
                  votedUser: UserId, voteType: Direction, voteReason: string)
      requires Valid()
      modifies this
      ensures Valid()
      ensures storage == old(storage)[id := VoteSession(id, createTime, createTime + sessionTtl,
                                                         commandMessage, requestingUser, votedUser,
                                                         voteType, voteReason)]
      ensures pending == old(pending) + multiset{id}
      ensures expiredCalls == old(expiredCalls)
    {
      pending := pending + multiset{id};
      storage := storage[id := VoteSession(id, createTime, createTime + sessionTtl, commandMessage,
                                           requestingUser, votedUser, voteType, voteReason)];
    }

    /**
     * `delete`: nothing happens for an absent id; otherwise the task of the
     * stored session is cancelled and only that record is removed.
     */
    method Delete(id: Id)
      requires Valid()
      modifies this
      ensures Valid()
      ensures id !in old(storage) ==> unchanged(this)
      ensures id in old(storage) ==>
        && storage == old(storage) - {id}
        && pending == old(pending) - multiset{id}
        && expiredCalls == old(expiredCalls)
    {
      if id !in storage {
        return;
      }
      pending := pending - multiset{id};
      storage := storage - {id};
    }

    /** `get`: the stored record, or None for an absent id. */
    function Get(id: Id): (r: Option<VoteSession>)
      reads this
      ensures r.Some? <==> id in storage
      ensures r.Some? ==> r.value == storage[id]
    {
      if id in storage then Some(storage[id]) else None
    }

    /**
     * One scheduled task for `id` waking up after `session_ttl`: it calls
     * `on_expired` and ends; the stored record, if any, stays.
     */
    method FireExpiry(id: Id)
      requires Valid() && id in pending
      modifies this
      ensures Valid()
      ensures storage == old(storage)
      ensures pending == old(pending) - multiset{id}
      ensures expiredCalls == old(expiredCalls) + [id]
    {
      pending := pending - multiset{id};
      expiredCalls := expiredCalls + [id];
    }
  }

  /**
   * Creating a session twice under one id and deleting it leaves no record
   * but one task still scheduled: the first task is never cancelled, and
   * when it fires, `on_expired` runs for a session that no longer exists.
   */
  method OverwriteLeavesOrphanTask(id: Id) returns (stored: bool, scheduled: nat, calls: seq<Id>)
    ensures !stored && scheduled == 1 && calls == [id]
  {
    var m := new SessionManager(600);
    m.Create(id, 0, 1, 10, 20, Up, "first");
    m.Create(id, 5, 2, 10, 30, Down, "second");
    m.Delete(id);
    stored, scheduled := id in m.storage, m.pending[id];
    m.FireExpiry(id);
    calls := m.expiredCalls;
  }
}
