/**
 * UserRepository and its collaborators as objects whose fields change in place.
 *
 * ApiService and UserDao are recording stand-ins for the two injected
 * interfaces: they keep the calls made on them, which is all the repository
 * observes of them. UsersLiveData is the single-slot holder getUsers()
 * allocates. The three share one ghost EffectLog, and each of their
 * operations appends its own effect to it, so the order of the log is the
 * order in which the real calls were made.
 */
module Repository {
  import opened Wrappers
  import opened Users

  /** The order in which the API service, the DAO and the slots were acted on. */
  class EffectLog {
    ghost var events: seq<Effect>

    constructor ()
      ensures events == []
    {
      events := [];
    }
  }

  /** The injected `ApiService`: counts the calls it is asked for. */
  class ApiService {
    var requests: nat
    ghost const log: EffectLog

    constructor (ghost log: EffectLog)
      ensures requests == 0 && this.log == log
    {
      requests := 0;
      this.log := log;
    }

    /** `apiService.getUsers()`: hands out one call to be enqueued. */
    method GetUsers()
      modifies this, log
      ensures requests == old(requests) + 1
      ensures log.events == old(log.events) + [ApiCall]
    {
      requests := requests + 1;
      log.events := log.events + [ApiCall];
    }
  }

  /** The injected `UserDao`: records the argument of every insertUsers call. */
  class UserDao {
    var inserted: seq<UserList>
    ghost const log: EffectLog

    constructor (ghost log: EffectLog)
      ensures inserted == [] && this.log == log
    {
      inserted := [];
      this.log := log;
    }

    /** `userDao.insertUsers(users)`, with `users` possibly null. */
    method InsertUsers(users: UserList)
      modifies this, log
      ensures inserted == old(inserted) + [users]
      ensures log.events == old(log.events) + [Insert(users)]
    {
      inserted := inserted + [users];
      log.events := log.events + [Insert(users)];
    }
  }

  /**
   * `MutableLiveData<List<User>>`: `value` is `None` while nothing has been
   * written, and `Some(v)` once `v` (itself possibly null) has been written.
   * `writes` is every value written, in order.
   */
  class UsersLiveData {
    var value: Option<UserList>
    ghost var writes: seq<UserList>
    ghost const log: EffectLog

    ghost predicate Valid()
      reads this
    {
      value == if writes == [] then None else Some(writes[|writes| - 1])
    }

    constructor (ghost log: EffectLog)
      ensures Valid() && writes == [] && value == None && this.log == log
    {
      value := None;
      writes := [];
      this.log := log;
    }

    /** `usersLiveData.value = v`. */
    method SetValue(v: UserList)
      requires Valid()
      modifies this, log
      ensures Valid() && writes == old(writes) + [v] && value == Some(v)
      ensures log.events == old(log.events) + [Publish(v)]
    {
      value := Some(v);
      writes := writes + [v];
      log.events := log.events + [Publish(v)];
    }
  }

  class UserRepository {
    const api: ApiService
    const dao: UserDao

    /** The service and the DAO report to the same log. */
    ghost predicate Valid() {
      api.log == dao.log
    }

    constructor (api: ApiService, dao: UserDao)
      requires api.log == dao.log
      ensures Valid() && this.api == api && this.dao == dao
    {
      this.api := api;
      this.dao := dao;
    }

    /**
     * `getUsers()`: allocates an unset slot, asks the API for a call once,
     * and returns the slot together with the callback that `enqueue` registers.
     * Nothing is stored and nothing is published until the callback runs.
     */
    method GetUsers() returns (live: UsersLiveData, callback: UsersCallback)
      requires Valid()
      modifies api, api.log
      ensures api.log.events == old(api.log.events) + [ApiCall]
      ensures api.requests == old(api.requests) + 1
      ensures fresh(live) && live.Valid() && live.value == None && live.writes == [] && live.log == api.log
      ensures fresh(callback) && callback.repo == this && callback.live == live && callback.Valid()
    {
      live := new UsersLiveData(api.log);
      api.GetUsers();
      callback := new UsersCallback(this, live);
    }

    /**
     * getUsers() followed by the delivery of `outcome` to its callback, which is
     * how the stubbed `enqueue` behaves: the slot ends up holding exactly one
     * written value, the terminal one.
     */
    method Fetch(outcome: Outcome) returns (live: UsersLiveData)
      requires Valid()
      modifies api, dao, api.log
      ensures fresh(live) && live.Valid() && live.log == api.log
      ensures api.log.events == old(api.log.events) + CycleEffects(outcome)
      ensures live.writes == [Terminal(outcome)] && live.value == Some(Terminal(outcome))
      ensures api.requests == old(api.requests) + 1
      ensures dao.inserted == old(dao.inserted) + SuccessBodies([outcome])
    {
      var callback;
      live, callback := GetUsers();
      match outcome {
        case Responded(response) =>
          callback.OnResponse(response);
        case Failed =>
          callback.OnFailure();
      }
      HandlerPublishesOnce(outcome);
      if Succeeded(outcome) { SuccessStoresThenPublishesBody(outcome); } else { NoSuccessPublishesEmpty(outcome); }
    }
  }

  /** The anonymous `Callback<List<User>>` that getUsers() enqueues. */
  class UsersCallback {
    const repo: UserRepository
    const live: UsersLiveData

    /** The slot reports to the same log as the repository's collaborators. */
    ghost predicate Valid()
      reads live
    {
      repo.Valid() && live.log == repo.api.log && live.Valid()
    }

    constructor (repo: UserRepository, live: UsersLiveData)
      ensures this.repo == repo && this.live == live
    {
      this.repo := repo;
      this.live := live;
    }

    /**
     * `onResponse`: a successful response first hands its body to the DAO and
     * then publishes that same body; any other response publishes the empty
     * list and stores nothing. Either way exactly one value is written.
     */
    method OnResponse(response: Response)
      requires Valid()
      modifies repo.dao, live, live.log
      ensures Valid()
      ensures live.log.events == old(live.log.events) + HandlerEffects(Responded(response))
      ensures repo.dao.inserted == old(repo.dao.inserted) + (if response.isSuccessful then [response.body] else [])
      ensures live.writes == old(live.writes) + [if response.isSuccessful then response.body else Some([])]
    {
      if response.isSuccessful {
        repo.dao.InsertUsers(response.body);
        live.SetValue(response.body);
      } else {
        live.SetValue(Some([]));
      }
    }

    /** `onFailure`: publishes the empty list and stores nothing. */
    method OnFailure()
      requires Valid()
      modifies live, live.log
      ensures Valid()
      ensures live.log.events == old(live.log.events) + HandlerEffects(Failed)
      ensures live.writes == old(live.writes) + [Some([])]
    {
      live.SetValue(Some([]));
    }
  }
}
