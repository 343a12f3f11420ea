/**
 * End-to-end runs of the approval workflow on small fixed states: users 1,
 * 2 and 3 are known, user 2 has a ledger column, both session kinds live
 * for 10 time units.
 */
module Scenarios {
  import opened Wrappers
  import opened Chat
  import opened Text
  import opened SessionStore
  import opened Users
  import opened Karma
  import opened Bot

  /** The directory of the runs: `str(id)` to a name. */
  function Directory(): map<string, string>
  {
    map["1" := "U1", "2" := "U2", "3" := "U3"]
  }

  /** A bot over an empty store, the directory above and an empty column for user 2. */
  method NewBot() returns (bot: BotManager)
    ensures fresh(bot) && fresh(bot.sessions) && fresh(bot.karma) && fresh(bot.users)
    ensures bot.Valid()
    ensures bot.sessions.storage == map[]
    ensures bot.sessions.sessionTtls == map[SelectUser := 10, ConfirmRequest := 10]
    ensures bot.karma.columns == map[2 := []]
    ensures bot.users.users == Directory()
  {
    var sessions := new SessionManager<Payload>(map[SelectUser := 10, ConfirmRequest := 10]);
    var karma := new KarmaService(map[2 := []], 2);
    var users := new UsersService(Directory());
    bot := new BotManager(sessions, karma, users);
  }

  /** The keys of the directory are `str()` of the ids 1, 2 and 3. */
  lemma DirectoryKeys()
    ensures NatToDecimal(1) == "1" && NatToDecimal(2) == "2" && NatToDecimal(3) == "3"
    ensures IsDigits("2") && DecimalToNat("2") == 2
  {
  }

  /**
   * User 1 sends an UP request as message 100 at time 0: the command, then
   * whitespace, then the reason. The prompt is message 101.
   */
  method Requested(command: string, sep: string, reason: string) returns (bot: BotManager)
    requires AllSpace(sep) && Trimmed(reason)
    ensures fresh(bot) && fresh(bot.sessions) && fresh(bot.karma)
    ensures bot.Valid()
    ensures bot.sessions.storage == map[101 := Session(101, SelectUser, 1, 10,
                                          Payload(1, 100, Up, Some(reason), 101, None))]
    ensures bot.sessions.sessionTtls == map[SelectUser := 10, ConfirmRequest := 10]
    ensures bot.karma.columns == map[2 := []]
    ensures bot.users.users == Directory()
  {
    bot := NewBot();
    ReasonAfterCommand(command, sep, reason);
    var requested := bot.RequestCommand(Up, 1, 100, command + sep + reason, Entity(BotCommand, 0, |command|), 101, 0);
  }

  /** After the request, user 1 selects user 2 at time 1; the confirmation prompt is message 102. */
  method RequestAndSelect(reason: string) returns (bot: BotManager)
    requires Trimmed(reason)
    ensures fresh(bot) && fresh(bot.sessions) && fresh(bot.karma)
    ensures bot.Valid()
    ensures bot.sessions.storage == map[102 := Session(102, ConfirmRequest, 1, 11,
                                          Payload(1, 100, Up, Some(reason), 102, Some(2)))]
    ensures bot.karma.columns == map[2 := []]
    ensures bot.users.users == Directory()
  {
    bot := Requested("/up", " ", reason);
    DirectoryKeys();
    var selected := bot.SelectUserCallback(101, 1, "2", 102, 1);
    assert map[101 := bot.sessions.storage[102]] - {101} == map[];
  }

  /** Scenario A, for any reason: user 3 confirms; user 2 gets +1 with that reason and no session is left. */
  method ThirdPartyConfirms(reason: string) returns (outcome: Outcome, ledger: map<UserId, seq<Row>>, live: set<Id>)
    requires Trimmed(reason)
    ensures outcome == Committed(2, 1, Some(reason))
    ensures ledger == map[2 := [Row(Some(reason), 1)]]
    ensures live == {}
  {
    var bot := RequestAndSelect(reason);
    DirectoryKeys();
    outcome := bot.ConfirmRequestCallback(102, 3, Confirm, 2);
    assert [] + [Row(Some(reason), 1)] == [Row(Some(reason), 1)];
    ledger, live := bot.karma.columns, bot.sessions.storage.Keys;
  }

  /** Scenario B: the requester confirms; refused, ledger untouched, session still live. */
  method RequesterConfirms(reason: string) returns (outcome: Outcome, ledger: map<UserId, seq<Row>>, live: set<Id>)
    requires Trimmed(reason)
    ensures outcome == Refused(SelfApproval)
    ensures ledger == map[2 := []]
    ensures live == {102}
  {
    var bot := RequestAndSelect(reason);
    outcome := bot.ConfirmRequestCallback(102, 1, Confirm, 2);
    ledger, live := bot.karma.columns, bot.sessions.storage.Keys;
  }

  /** Scenario C: the selected user confirms; refused, session still live. */
  method CandidateConfirms(reason: string) returns (outcome: Outcome, ledger: map<UserId, seq<Row>>, live: set<Id>)
    requires Trimmed(reason)
    ensures outcome == Refused(CandidateApproval)
    ensures ledger == map[2 := []]
    ensures live == {102}
  {
    var bot := RequestAndSelect(reason);
    outcome := bot.ConfirmRequestCallback(102, 2, Confirm, 2);
    ledger, live := bot.karma.columns, bot.sessions.storage.Keys;
  }

  /** The requester may decline: the session goes and nothing is written. */
  method RequesterDeclines(reason: string) returns (outcome: Outcome, ledger: map<UserId, seq<Row>>, live: set<Id>)
    requires Trimmed(reason)
    ensures outcome == Declined
    ensures ledger == map[2 := []]
    ensures live == {}
  {
    var bot := RequestAndSelect(reason);
    outcome := bot.ConfirmRequestCallback(102, 1, Decline, 2);
    ledger, live := bot.karma.columns, bot.sessions.storage.Keys;
  }

  /**
   * Scenario D: the SELECT_USER session of a request made at time 0, with
   * TTL 10, is live at 10 and past due at 11; its expiry fires once,
   * retracting the prompt, and leaves neither the session nor a pending
   * task behind.
   */
  method SelectionExpires(reason: string)
    returns (dueAt10: bool, dueAt11: bool, outcome: Outcome, live: set<Id>, pending: set<Id>)
    requires Trimmed(reason)
    ensures !dueAt10 && dueAt11
    ensures outcome == NoLongerValid(101)
    ensures live == {} && pending == {}
  {
    var bot := Requested("/up", " ", reason);
    var s := bot.sessions.storage[101];
    dueAt10, dueAt11 := SessionIsExpired(s, 10), SessionIsExpired(s, 11);
    outcome := bot.ExpireSession(101);
    live, pending := bot.sessions.storage.Keys, bot.sessions.pending;
  }

  /**
   * Scenario E: a second request from user 1 while the first selection is
   * open is refused, and user 1 still owns exactly one session.
   */
  method SecondRequestRefused(reason: string) returns (outcome: Outcome, owned: set<Id>)
    requires Trimmed(reason)
    ensures outcome == AlreadySelecting
    ensures owned == {101}
  {
    var bot := Requested("/up", " ", reason);
    assert bot.sessions.storage[101].owner == 1;
    outcome := bot.RequestCommand(Down, 1, 102, "/down", Entity(BotCommand, 0, 5), 103, 1);
    owned := bot.sessions.usersSessions[1];
  }
}
