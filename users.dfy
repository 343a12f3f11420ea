/**
 * The user directory (services/users.py): a fixed mapping from user ids,
 * written as decimal strings, to display names. Callers pass integer ids,
 * which the service normalises with `str()` before every lookup.
 */
module Users {
  import opened Wrappers
  import opened Chat
  import opened Text

  datatype UserError = UnknownUser(key: string)  // UserException

  /** Python truthiness of the optional `except_user`: None and 0 are falsy. */
  predicate Truthy(exceptUser: Option<UserId>)
    ensures Truthy(exceptUser) <==> exceptUser.Some? && NatToDecimal(exceptUser.value) != "0"
  {
    exceptUser.Some? && exceptUser.value != 0
  }

  class UsersService {
    const users: map<string, string>

    constructor(users: map<string, string>)
      ensures this.users == users
    {
      this.users := users;
    }

    /**
     * `get_all_users`: with a truthy `except_user`, a fresh mapping of exactly
     * the entries whose key differs from `str(except_user)`, values unchanged;
     * otherwise the whole mapping.
     */
    method GetAllUsers(exceptUser: Option<UserId>) returns (r: map<string, string>)
      ensures Truthy(exceptUser) ==> r.Keys == users.Keys - {NatToDecimal(exceptUser.value)}
      ensures forall k :: k in r ==> k in users && r[k] == users[k]
      ensures !Truthy(exceptUser) ==> r == users
    {
      if !Truthy(exceptUser) {
        return users;
      }
      var except := NatToDecimal(exceptUser.value);
      r := map[];
      var todo := users.Keys;
      while todo != {}
        invariant todo <= users.Keys
        invariant r.Keys == (users.Keys - todo) - {except}
        invariant forall k :: k in r ==> r[k] == users[k]
        decreases todo
      {
        var userId :| userId in todo;
        if userId != except {
          r := r[userId := users[userId]];
        }
        todo := todo - {userId};
      }
    }

    /** `get_user_name`: the name under `str(user_id)`, or UserException. */
    function GetUserName(userId: UserId): (r: Result<string, UserError>)
      ensures NatToDecimal(userId) in users <==> r.Success?
      ensures r.Success? ==> r.value == users[NatToDecimal(userId)]
      ensures r.Failure? ==> r.error == UnknownUser(NatToDecimal(userId))
    {
      var key := NatToDecimal(userId);
      if key !in users then Failure(UnknownUser(key)) else Success(users[key])
    }

    /** `user_exists`: `str(user_id)` is a key, that is, GetUserName does not fail. */
    predicate UserExists(userId: UserId)
      ensures UserExists(userId) <==> GetUserName(userId).Success?
    {
      NatToDecimal(userId) in users
    }
  }
}
