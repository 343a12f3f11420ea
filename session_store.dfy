/**
 * The current session store (managers/session.py): sessions keyed by id,
 * a reverse index from each user to the ids of the sessions they own, one
 * pending expiry task per live session, and a TTL per session type.
 *
 * The asyncio task of a session is modelled by membership of its id in
 * `pending`; the task waking up is the explicit step FireExpiry. The clock
 * is the parameter `now`.
 */
module SessionStore {
  import opened Wrappers
  import opened Chat

  type Id = MessageId

  datatype SessionType = SelectUser | ConfirmRequest

  /** A stored session record; `D` is the caller's payload. */
  datatype Session<D> = Session(id: Id, kind: SessionType, owner: UserId, expireTime: int, data: D)

  datatype SessionError =
    | DuplicateSession(id: Id)      // SessionException on create
    | SessionNotFound(id: Id)       // SessionException on get / delete
    | TtlNotSet(kind: SessionType)  // SessionTypeException

  /** Every record is stored under its own id. */
  ghost predicate WellKeyed<D>(storage: map<Id, Session<D>>)
  {
    forall id :: id in storage ==> storage[id].id == id
  }

  /** The ids of the stored sessions owned by `u`. */
  function OwnedBy<D>(storage: map<Id, Session<D>>, u: UserId): set<Id>
  {
    set id | id in storage && storage[id].owner == u
  }

  /** The users that own at least one stored session. */
  function Owners<D>(storage: map<Id, Session<D>>): set<UserId>
  {
    set id | id in storage :: storage[id].owner
  }

  /**
   * The reverse index that `storage` determines: it maps exactly the users
   * owning a session, each to the exact set of ids of their sessions, so no
   * user is mapped to an empty set.
   */
  function IndexOf<D>(storage: map<Id, Session<D>>): (index: map<UserId, set<Id>>)
    ensures forall u :: u in index <==> u in Owners(storage)
    ensures forall u :: u in index ==> index[u] != {}
    ensures forall u, id :: u in index && id in index[u] <==> id in storage && storage[id].owner == u
  {
    var index := map u | u in Owners(storage) :: OwnedBy(storage, u);
    assert forall u :: u in index ==> index[u] != {} by {
      forall u | u in index ensures index[u] != {} {
        var id :| id in storage && storage[id].owner == u;
        assert id in OwnedBy(storage, u);
      }
    }
    index
  }

  /** `users_sessions[u].add(id)`, creating the set first when `u` has none. */
  function AddToIndex(index: map<UserId, set<Id>>, u: UserId, id: Id): map<UserId, set<Id>>
  {
    index[u := (if u in index then index[u] else {}) + {id}]
  }

  /** `users_sessions[u].remove(id)`, then `del users_sessions[u]` when it became empty. */
  function RemoveFromIndex(index: map<UserId, set<Id>>, u: UserId, id: Id): (r: map<UserId, set<Id>>)
    requires u in index
    ensures u in r <==> index[u] - {id} != {}
    ensures u in r ==> r[u] == index[u] - {id}
    ensures forall v :: v != u ==> (v in r <==> v in index)
    ensures forall v :: v in r && v != u ==> r[v] == index[v]
  {
    var rest := index[u] - {id};
    if rest == {} then index - {u} else index[u := rest]
  }

  /** Inserting a new session extends the index the way create_session does. */
  lemma {:induction false} IndexAfterInsert<D>(storage: map<Id, Session<D>>, s: Session<D>)
    requires s.id !in storage
    ensures IndexOf(storage[s.id := s]) == AddToIndex(IndexOf(storage), s.owner, s.id)
  {
    var lhs := IndexOf(storage[s.id := s]);
    var rhs := AddToIndex(IndexOf(storage), s.owner, s.id);
    forall u ensures (u in lhs <==> u in rhs) && (u in lhs ==> lhs[u] == rhs[u]) {
      OwnerAfterInsert(storage, s, u);
    }
    assert lhs.Keys == rhs.Keys;
  }

  /** After an insertion, each user's index entry is the one `set.add` leaves. */
  lemma OwnerAfterInsert<D>(storage: map<Id, Session<D>>, s: Session<D>, u: UserId)
    requires s.id !in storage
    ensures var lhs, rhs := IndexOf(storage[s.id := s]), AddToIndex(IndexOf(storage), s.owner, s.id);
      && (u in lhs <==> u in rhs)
      && (u in lhs ==> lhs[u] == rhs[u])
  {
    var after := storage[s.id := s];
    InIndexIffOwned(after, u);
    InIndexIffOwned(storage, u);
    if u == s.owner {
      assert OwnedBy(after, u) == OwnedBy(storage, u) + {s.id};
    } else {
      assert OwnedBy(after, u) == OwnedBy(storage, u);
    }
  }

  /** Removing a session shrinks the index the way delete_session does. */
  lemma {:induction false} IndexAfterRemove<D>(storage: map<Id, Session<D>>, id: Id)
    requires id in storage
    ensures storage[id].owner in IndexOf(storage)
    ensures IndexOf(storage - {id}) == RemoveFromIndex(IndexOf(storage), storage[id].owner, id)
  {
    var u0 := storage[id].owner;
    assert u0 in Owners(storage);
    var lhs := IndexOf(storage - {id});
    var rhs := RemoveFromIndex(IndexOf(storage), u0, id);
    forall u ensures (u in lhs <==> u in rhs) && (u in lhs ==> lhs[u] == rhs[u]) {
      OwnerAfterRemove(storage, id, u);
    }
    assert lhs.Keys == rhs.Keys;
  }

  /**
   * After a removal, a user keeps an index entry exactly when they still own
   * a session, and the entry is the one `set.remove` and `del` leave.
   */
  lemma OwnerAfterRemove<D>(storage: map<Id, Session<D>>, id: Id, u: UserId)
    requires id in storage
    ensures storage[id].owner in IndexOf(storage)
    ensures var lhs, rhs := IndexOf(storage - {id}), RemoveFromIndex(IndexOf(storage), storage[id].owner, id);
      && (u in lhs <==> u in rhs)
      && (u in lhs ==> lhs[u] == rhs[u])
  {
    var u0 := storage[id].owner;
    var after := storage - {id};
    assert u0 in Owners(storage);
    InIndexIffOwned(after, u);
    InIndexIffOwned(storage, u);
    if u == u0 {
      assert OwnedBy(after, u) == OwnedBy(storage, u) - {id};
    } else {
      assert OwnedBy(after, u) == OwnedBy(storage, u);
    }
  }

  /** A user has an index entry exactly when they own some stored session. */
  lemma InIndexIffOwned<D>(storage: map<Id, Session<D>>, u: UserId)
    ensures u in IndexOf(storage) <==> OwnedBy(storage, u) != {}
    ensures u in IndexOf(storage) ==> IndexOf(storage)[u] == OwnedBy(storage, u)
  {
    if OwnedBy(storage, u) != {} {
      var o := Pick(OwnedBy(storage, u));
      assert u in Owners(storage);
    }
  }

  /** Some element of a non-empty set. */
  lemma Pick<T>(s: set<T>) returns (x: T)
    requires s != {}
    ensures x in s
  {
    x :| x in s;
  }

  /** Whether any stored session of `u` (of type `t`, when given) exists. */
  ghost predicate HasLiveSession<D>(storage: map<Id, Session<D>>, u: UserId, filter: Option<SessionType>)
  {
    exists id :: id in storage && storage[id].owner == u && (filter.None? || storage[id].kind == filter.value)
  }

  /** `session_is_expired`: strictly past the expiry time. */
  function SessionIsExpired<D>(s: Session<D>, now: int): (expired: bool)
    ensures expired <==> s.expireTime < now
  {
    now > s.expireTime
  }

  class SessionManager<D> {
    var storage: map<Id, Session<D>>
    var usersSessions: map<UserId, set<Id>>
    const sessionTtls: map<SessionType, int>
    /** The ids whose expiry task is scheduled and not cancelled. */
    var pending: set<Id>

    /**
     * Records are keyed by their ids, the reverse index mirrors the records
     * exactly, and each live session has exactly one pending expiry task.
     */
    ghost predicate Valid()
      reads this
    {
      && WellKeyed(storage)
      && usersSessions == IndexOf(storage)
      && pending == storage.Keys
    }

    constructor(sessionTtls: map<SessionType, int>)
      ensures Valid()
      ensures this.sessionTtls == sessionTtls
      ensures storage == map[] && usersSessions == map[] && pending == {}
    {
      this.sessionTtls := sessionTtls;
      storage := map[];
      usersSessions := map[];
      pending := {};
    }

    /** `_get_session_ttl`: the configured TTL, or SessionTypeException when none is set. */
    function GetSessionTtl(kind: SessionType): (r: Result<int, SessionError>)
      ensures r.Success? <==> kind in sessionTtls
      ensures r.Success? ==> r.value == sessionTtls[kind]
      ensures r.Failure? ==> r.error == TtlNotSet(kind)
    {
      if kind in sessionTtls then Success(sessionTtls[kind]) else Failure(TtlNotSet(kind))
    }

    /**
     * `create_session`: fails on a duplicate id or a type without TTL and
     * then stores nothing; otherwise stores the record, indexes it under its
     * owner, schedules its expiry and returns the id unchanged.
     */
    method CreateSession(kind: SessionType, user: UserId, data: D, id: Id, now: int)
      returns (r: Result<Id, SessionError>)
      requires Valid()
      modifies this
      ensures Valid()
      ensures id in old(storage) ==> r == Failure(DuplicateSession(id)) && unchanged(this)
      ensures id !in old(storage) && kind !in sessionTtls ==> r == Failure(TtlNotSet(kind)) && unchanged(this)
      ensures id !in old(storage) && kind in sessionTtls ==>
        && r == Success(id)
        && storage == old(storage)[id := Session(id, kind, user, now + sessionTtls[kind], data)]
        && usersSessions == AddToIndex(old(usersSessions), user, id)
        && pending == old(pending) + {id}
    {
      if id in storage {
        return Failure(DuplicateSession(id));
      }
      var ttl := GetSessionTtl(kind);
      if ttl.Failure? {
        return Failure(ttl.error);
      }
      var s := Session(id, kind, user, now + ttl.value, data);
      IndexAfterInsert(storage, s);
      pending := pending + {id};
      storage := storage[id := s];
      var ids := if user in usersSessions then usersSessions[user] else {};
      usersSessions := usersSessions[user := ids + {id}];
      r := Success(id);
    }

    /** The common part of explicit deletion and of the expiry task's own cleanup. */
    method Remove(id: Id)
      requires Valid() && id in storage
      modifies this
      ensures Valid()
      ensures storage == old(storage) - {id}
      ensures usersSessions == RemoveFromIndex(old(usersSessions), old(storage)[id].owner, id)
      ensures pending == old(pending) - {id}
    {
      var session := storage[id];
      IndexAfterRemove(storage, id);
      storage := storage - {id};
      var rest := usersSessions[session.owner] - {session.id};
      if rest == {} {
        usersSessions := usersSessions - {session.owner};
      } else {
        usersSessions := usersSessions[session.owner := rest];
      }
      pending := pending - {id};
    }

    /**
     * `delete_session(id)` with `cancel_task=True`: fails when the id is
     * absent; otherwise cancels the expiry and removes this one session from
     * the records and from its owner's index entry, and nothing else.
     */
    method DeleteSession(id: Id) returns (r: Result<(), SessionError>)
      requires Valid()
      modifies this
      ensures Valid()
      ensures id !in old(storage) ==> r == Failure(SessionNotFound(id)) && unchanged(this)
      ensures id in old(storage) ==>
        && r == Success(())
        && storage == old(storage) - {id}
        && usersSessions == RemoveFromIndex(old(usersSessions), old(storage)[id].owner, id)
        && pending == old(pending) - {id}
    {
      if id !in storage {
        return Failure(SessionNotFound(id));
      }
      Remove(id);
      r := Success(());
    }

    /** `get_session`: the stored record, whether or not it is past due. */
    function GetSession(id: Id): (r: Result<Session<D>, SessionError>)
      reads this
      ensures id in storage <==> r.Success?
      ensures r.Success? ==> r.value == storage[id]
      ensures r.Failure? ==> r == Failure(SessionNotFound(id))
    {
      if id in storage then Success(storage[id]) else Failure(SessionNotFound(id))
    }

    /**
     * `user_has_session`: looks the user up in the reverse index and, with
     * a type filter, checks the types of the indexed sessions. Under Valid()
     * that is exactly "some stored session of this user (of that type)".
     */
    function UserHasSession(userId: UserId, filter: Option<SessionType>): (b: bool)
      requires Valid()
      reads this
      ensures b <==> HasLiveSession(storage, userId, filter)
    {
      if userId !in usersSessions then
        false
      else if filter.Some? then
        exists id :: id in usersSessions[userId] && storage[id].kind == filter.value
      else
        |usersSessions[userId]| > 0
    }

    /**
     * The expiry task of `id` waking up: the callback receives the stored
     * record (the callback's own failures are swallowed), then the session
     * is deleted without cancelling the task, which is the one running.
     */
    method FireExpiry(id: Id) returns (fired: Session<D>)
      requires Valid() && id in pending
      modifies this
      ensures Valid()
      ensures fired == old(storage)[id]
      ensures storage == old(storage) - {id}
      ensures usersSessions == RemoveFromIndex(old(usersSessions), fired.owner, id)
      ensures pending == old(pending) - {id}
    {
      fired := storage[id];
      Remove(id);
    }
  }
}
