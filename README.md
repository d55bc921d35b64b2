# UserRepository fetch pipeline, modelled in Dafny

The modelled system is a small Android data layer. `UserRepository.getUsers()`
creates an empty `MutableLiveData` slot and asks the injected `ApiService`
for one Retrofit call. It enqueues that call with a callback and returns the
slot straight away. When the call resolves, the callback does one of three
things:

- a successful response stores `response.body()` through
  `UserDao.insertUsers` and then writes that same body into the slot;
- an unsuccessful response (an error status) writes an empty list and stores
  nothing;
- a transport failure (`onFailure`) writes an empty list and stores nothing.

Files:

- `wrappers.dfy`: `Option`. `None` stands for Kotlin's `null`.
- `users.dfy` (module `Users`): the values (`User`, `Response`, `Outcome`) and
  the ordered log of the repository's effects (`ApiCall`, `Insert`,
  `Publish`). It defines what the handler does to that log (`HandlerEffects`),
  what a caller should end up seeing (`Terminal`, `SuccessBodies`), and the
  lemmas that connect the two, for one cycle and for any number of
  consecutive cycles.
- `repository.dfy` (module `Repository`): the objects. `ApiService` and
  `UserDao` stand in for the two injected interfaces and record the calls
  made on them. `UsersLiveData` is the single slot: `value == None` while
  unset, and `Some(v)` after a write, where `v` may itself be null. The three
  share one ghost `EffectLog`. `ApiService.GetUsers`, `UserDao.InsertUsers`
  and `UsersLiveData.SetValue` each append their own effect to it, so the log
  records the real calls in the order they happen.
  - `UserRepository.GetUsers` returns the fresh slot together with the
    `UsersCallback` that `enqueue` registers.
  - `OnResponse` and `OnFailure` are the two entry points of that callback.
    Each promises that the log grows by exactly `HandlerEffects` of its
    outcome. On success that means the DAO call comes before the slot write.
  - No member assumes the service or the DAO is used by this repository only.
    Other callers may act on them between calls.
- `scenarios.dfy` (module `Scenarios`): the repository's tests, replayed on
  fresh objects, plus the error-status and null-body cases.

A successful response with a null body is passed through unchanged: the DAO
receives null and the slot is set to null, not to an empty list
(UserRepository.kt:24, 26).

## Model

| member | source | states |
|---|---|---|
| `Users.HandlerEffects` | app/src/main/java/com/example/userapitesting/UserRepository.kt:21-36 | the callback's effects for an outcome: one or two effects, two exactly when the response is successful, and the last is always the publication of the terminal value |
| `Users.CycleEffects` | app/src/main/java/com/example/userapitesting/UserRepository.kt:14-39 | one getUsers() cycle starts with the API call and ends with the publication of the terminal value |
| `Users.SuccessStoresThenPublishesBody` | app/src/main/java/com/example/userapitesting/UserRepository.kt:22-26 | on success the handler inserts the body exactly once (null included, same elements in the same order), then publishes that same body, and makes no API call |
| `Users.NoSuccessPublishesEmpty` | app/src/main/java/com/example/userapitesting/UserRepository.kt:27-36 | an unsuccessful response or a failure inserts nothing and publishes exactly one empty list |
| `Users.HandlerPublishesOnce` | app/src/main/java/com/example/userapitesting/UserRepository.kt:20-37 | whatever the outcome, the handler writes exactly one value, which is the terminal value (the body on success, the empty list otherwise); it stores exactly the successful body; the insert comes directly before its publication |
| `Users.CycleContract` | app/src/main/java/com/example/userapitesting/UserRepository.kt:14-39 | one getUsers() cycle makes one API call, stores only a successful body, and publishes exactly one terminal value, with the insert directly before it |
| `Users.SessionApiCalls` | app/src/main/java/com/example/userapitesting/UserRepository.kt:18 | over n consecutive getUsers() cycles the API service is asked for exactly n calls |
| `Users.SessionInserts` | app/src/main/java/com/example/userapitesting/UserRepository.kt:22-24 | over consecutive cycles the DAO receives exactly the bodies of the successful responses, in order |
| `Users.SessionPublications` | app/src/main/java/com/example/userapitesting/UserRepository.kt:26-35 | over consecutive cycles there is exactly one write per cycle, and the i-th write is the i-th cycle's terminal value |
| `Users.SessionInsertThenPublish` | app/src/main/java/com/example/userapitesting/UserRepository.kt:24-26 | over consecutive cycles every insert is immediately followed by the publication of the same list |
| `Users.FailuresNeverInsert` | app/src/main/java/com/example/userapitesting/UserRepository.kt:27-36 | if no response is successful, the DAO is never called and every cycle publishes the empty list |
| `Repository.ApiService.GetUsers` | app/src/main/java/com/example/userapitesting/UserRepository.kt:9 | each request for a call adds one to the count and appends one API call to the log |
| `Repository.UserDao.InsertUsers` | app/src/main/java/com/example/userapitesting/UserRepository.kt:10 | each insert is recorded with its possibly-null argument, after the earlier ones, and appended to the log |
| `Repository.UsersLiveData.constructor` | app/src/main/java/com/example/userapitesting/UserRepository.kt:15 | a new slot is unset and has never been written |
| `Repository.UsersLiveData.SetValue` | app/src/main/java/com/example/userapitesting/UserRepository.kt:26 | a write sets the slot to the value, adds exactly one entry to its write history, and appends that publication to the log |
| `Repository.UserRepository.constructor` | app/src/main/java/com/example/userapitesting/UserRepository.kt:12 | the repository keeps the injected service and DAO, which report to one effect log |
| `Repository.UserRepository.GetUsers` | app/src/main/java/com/example/userapitesting/UserRepository.kt:14-20 | returns a fresh, unset slot and the callback bound to it; the log gains exactly one API call, so nothing is stored or published yet |
| `Repository.UserRepository.Fetch` | app/src/main/java/com/example/userapitesting/UserRepository.kt:14-39 | getUsers() followed by delivery of the outcome: the log gains exactly the cycle's effects in order, there is one API call, the DAO gains exactly the successful body, and the slot goes from unset to exactly one write of the terminal value |
| `Repository.UsersCallback.OnResponse` | app/src/main/java/com/example/userapitesting/UserRepository.kt:21-31 | the real calls append exactly the handler's effects to the log: on success the DAO receives the body and then the slot is written with it; otherwise only the empty list is written; exactly one write |
| `Repository.UsersCallback.constructor` | app/src/main/java/com/example/userapitesting/UserRepository.kt:20 | the callback object is bound to the repository and to the slot it will write |
| `Repository.UsersCallback.OnFailure` | app/src/main/java/com/example/userapitesting/UserRepository.kt:33-36 | the log gains only the publication of the empty list: the slot is written once, and the DAO and the API service are not called |
| `Scenarios.FetchOnce` | app/src/main/java/com/example/userapitesting/UserRepository.kt:14-39 | on fresh collaborators one fetch makes one API call, stores exactly the successful bodies, and leaves the slot holding the terminal value |
| `Scenarios.SuccessfulResponseStoresData` | app/src/test/java/com/example/userapitesting/UserRepositoryTest.kt:44-92 | a success with `[User(1, "Test User")]` calls the API once, inserts that list, and emits it |
| `Scenarios.ApiErrorStoresNothing` | app/src/test/java/com/example/userapitesting/UserRepositoryTest.kt:94-136 | a connection failure calls the API once, never inserts, and emits the empty list |
| `Scenarios.ErrorStatusStoresNothing` | app/src/main/java/com/example/userapitesting/UserRepository.kt:27-30 | an error status with a body never inserts and emits the empty list, whatever the body is |
| `Scenarios.NullBodyPassedThrough` | app/src/main/java/com/example/userapitesting/UserRepository.kt:24-26 | a success without a body inserts null and emits null, not an empty list |

## Left out

- `Call.enqueue` scheduling and callback threading: the callback is returned by `GetUsers`, and delivering an outcome is a call to `OnResponse` or `OnFailure`. `Fetch` models immediate delivery, which is what the tests' stubbed `enqueue` does.
- Retrofit's promise that each enqueued call resolves exactly once is not enforced on the callback. The model proves that each handler invocation performs exactly one write. It also proves that a fresh slot followed by one delivery ends with exactly one write.
- The `Call` object and the `call` and `Throwable` arguments of the handlers: the handlers never read them.
- LiveData observers (`observeForever`, `removeObserver`, replay of the latest value, main-thread delivery): they belong to a library that is not part of this model. Only the single value slot is kept.
- The persistence behind `UserDao.insertUsers`: it is treated as an opaque effect and recorded in a log.
- `Repository.UsersCallback.OnResponse`: assumes `insertUsers` returns normally. In the code the insert (UserRepository.kt:24) runs before the write (:26), so an insert that throws leaves the slot unset and the exception escapes `onResponse`. The one-write-per-cycle promise does not cover that case.
- The test scaffolding (MockWebServer, Mockito stubbing, `CountDownLatch`, `InstantTaskExecutorRule`) and the build configuration in `app/build.gradle.kts`.
