/**
 * The repository's tests, replayed against the model: fresh collaborators, one
 * getUsers() whose outcome the stubbed `enqueue` delivers at once, then what
 * the API service, the DAO and the slot recorded.
 */
module Scenarios {
  import opened Wrappers
  import opened Users
  import opened Repository

  /** The list the success test stubs the API with. */
  function DummyUsers(): seq<User> {
    [User(1, "Test User")]
  }

  /**
   * A fetch on fresh collaborators: what the API service, the DAO and the
   * returned slot hold afterwards.
   */
  method FetchOnce(outcome: Outcome) returns (requests: nat, stored: seq<UserList>, emitted: Option<UserList>)
    ensures requests == 1
    ensures stored == SuccessBodies([outcome])
    ensures emitted == Some(Terminal(outcome))
  {
    var log := new EffectLog();
    var api := new ApiService(log);
    var dao := new UserDao(log);
    var repo := new UserRepository(api, dao);
    var live := repo.Fetch(outcome);
    requests, stored, emitted := api.requests, dao.inserted, live.value;
  }

  /** A successful response: the API is asked once, the DAO gets the list, the slot holds it. */
  method SuccessfulResponseStoresData() returns (requests: nat, stored: seq<UserList>, emitted: Option<UserList>)
    ensures requests == 1
    ensures stored == [Some(DummyUsers())]
    ensures emitted == Some(Some(DummyUsers()))
  {
    var o := Responded(Response(true, Some(DummyUsers())));
    requests, stored, emitted := FetchOnce(o);
    assert [o][..0] == [];
  }

  /** A connection failure: the API is asked once, the DAO gets nothing, the slot holds the empty list. */
  method ApiErrorStoresNothing() returns (requests: nat, stored: seq<UserList>, emitted: Option<UserList>)
    ensures requests == 1
    ensures stored == []
    ensures emitted == Some(Some([]))
  {
    requests, stored, emitted := FetchOnce(Failed);
    assert [Failed][..0] == [];
  }

  /** An error status with a body: the body is ignored, nothing is stored, the slot holds the empty list. */
  method ErrorStatusStoresNothing() returns (requests: nat, stored: seq<UserList>, emitted: Option<UserList>)
    ensures requests == 1
    ensures stored == []
    ensures emitted == Some(Some([]))
  {
    var o := Responded(Response(false, Some(DummyUsers())));
    requests, stored, emitted := FetchOnce(o);
    assert [o][..0] == [];
  }

  /** A successful response without a body: null reaches the DAO and the slot, not an empty list. */
  method NullBodyPassedThrough() returns (requests: nat, stored: seq<UserList>, emitted: Option<UserList>)
    ensures requests == 1
    ensures stored == [None]
    ensures emitted == Some(None)
  {
    var o := Responded(Response(true, None));
    requests, stored, emitted := FetchOnce(o);
    assert [o][..0] == [];
  }
}
