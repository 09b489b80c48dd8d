# ShizukuService client binding, modelled in Dafny

Shizuku lets an Android app call a privileged service running in another
process. `ShizukuService` is the app-side entry point. It holds the binder
received from that service, with the typed proxy derived from it, in two
static fields. It forwards each remote operation through that proxy. It also
builds the option bundles that ask the service to start or remove a "user
service": a component from the app that runs inside the privileged process.

This project models two parts of that class:

- **The connection cell** (`connection.dfy`, module `Connection`). The static
  fields become one instance of the class `ShizukuService`, with fields
  `binder: Binder?` and `service: Option<Proxy>`. `Conn` is the same pair as
  a value. `SetBinderStep` is the transition that `setBinder` makes, and
  `SetBinder` is proved to make exactly that transition. The invariant
  `Consistent` says a proxy is held exactly when a binder is, and that the
  proxy belongs to that binder. `Replay` runs a sequence of `setBinder`
  calls. The lemmas about it show that repeating the same binder acts like a
  single call, so the proxy changes at most once, and that after any non-empty
  sequence of calls from any consistent state (every state the constructor
  and `SetBinder` can reach) the state depends only on the last binder passed.
  `requireService`, `getBinder` and `pingBinder` are read-only queries.
  `transactRemote`, `addUserService` and `removeUserService` are modelled up
  to the point where they hand the request to the proxy.
- **The user-service options builder** (`user_service_options.dfy`, module
  `UserServiceOptions`). It is a class with the builder's fields and fluent
  setters that return `this`. `Build` fills a new `Bundle` one put at a
  time, and it is proved to produce what the function `Options` specifies.
  The contract of `Options` lists when the build fails and in which order the
  checks are made, which keys the bundle holds, and that it holds no other
  keys.

Supporting modules: `Results` (the exceptions `IllegalStateException` and
`NullPointerException` as an error value, and Java null as `Option`),
`Bundles` (`android.os.Bundle` as a class holding a `map<string, Value>`)
and `ApiConstants` (the request keys and the exception messages).

The opaque Android and library calls are modelled this way:

- `IBinder` is a class `Binder`. Its identity is Dafny reference equality,
  just as the source compares binders with `==`.
- `pingBinder` reads whether the endpoint is alive. That flag is set outside
  this library.
- `linkToDeath` modifies nothing and returns whether it succeeded. It fails
  exactly when the endpoint is dead. `SetBinder` ignores the outcome.
- `IShizukuService.Stub.asInterface` wraps the binder in a `Proxy`, and
  `asBinder` gives that binder back.
- `Context.getPackageName()` becomes a `packageName` parameter.
- `TextUtils.isEmpty` is the predicate `IsEmpty`: true for null and for the
  empty string.

`build()` accepts an empty process-name suffix: line 205 checks only for
null, and line 218 leaves out the process-name key.

## Model

| member | source | states |
|---|---|---|
| Connection.ShizukuService.constructor | api/src/main/java/moe/shizuku/api/ShizukuService.java:22-23 | both static fields start null: the unbound state, which satisfies the invariant |
| Connection.ShizukuService.SetBinder | api/src/main/java/moe/shizuku/api/ShizukuService.java:25-40 | keeps the invariant `service == null <==> binder == null`, and the new pair is exactly `SetBinderStep(old pair, b)`; the result of the death subscription has no effect on the state |
| Connection.SetBinderStep | api/src/main/java/moe/shizuku/api/ShizukuService.java:25-40 | afterwards the held binder is `b`; passing the binder already held changes nothing; passing null clears a bound state; a new non-null binder gets its derived proxy; a consistent state stays consistent |
| Connection.BoundTo | api/src/main/java/moe/shizuku/api/ShizukuService.java:28-33 | for every binder (or null) there is a consistent state holding it |
| Connection.ConsistentIsBoundTo | api/src/main/java/moe/shizuku/api/ShizukuService.java:28-33 | a consistent state is determined by its binder alone |
| Connection.Replay | api/src/main/java/moe/shizuku/api/ShizukuService.java:25-40 | after a non-empty sequence of setBinder calls the binder held is the last one passed, the invariant is kept, and from a consistent start the state is `BoundTo(last binder)`, whatever came before |
| Connection.ReplayHeldBinder | api/src/main/java/moe/shizuku/api/ShizukuService.java:26 | any number of setBinder calls with the binder already held change neither field and install no new proxy |
| Connection.RepeatedSetBinder | api/src/main/java/moe/shizuku/api/ShizukuService.java:26-33 | repeating setBinder(b) is the same as calling it once, and the proxy changes at most once over the repetition |
| Connection.ShizukuService.RequireService | api/src/main/java/moe/shizuku/api/ShizukuService.java:43-48 | fails with IllegalStateException("binder haven't been received") exactly when no binder is held (so always after setBinder(null)); otherwise returns the held proxy, which talks to the held binder; it changes nothing |
| Connection.ShizukuService.GetBinder | api/src/main/java/moe/shizuku/api/ShizukuService.java:51-53 | returns null exactly when requireService would fail, otherwise the binder behind the held proxy; no side effects |
| Connection.ShizukuService.PingBinder | api/src/main/java/moe/shizuku/api/ShizukuService.java:55-57 | false whenever no binder is held, never fails; with a binder, the binder's own ping answer |
| Connection.ShizukuService.TransactRemote | api/src/main/java/moe/shizuku/api/ShizukuService.java:88-90 | fails like requireService when unbound; otherwise the transaction goes to the held binder with the caller's data and flags unchanged |
| Connection.ShizukuService.AddUserService | api/src/main/java/moe/shizuku/api/ShizukuService.java:231-234 | sets or overwrites only the package-name key of the caller's own bundle, even when unbound, and keeps every other key; then fails like requireService or sends that same bundle to the held proxy |
| Connection.ShizukuService.RemoveUserService | api/src/main/java/moe/shizuku/api/ShizukuService.java:242-247 | a null id fails with NullPointerException before the connection is checked; then it fails like requireService; otherwise it sends a new bundle holding exactly the id and the package name |
| UserServiceOptions.Options | api/src/main/java/moe/shizuku/api/ShizukuService.java:203-222 | the build fails exactly when the standalone suffix, the id or the class name is null, checked in that order; on success the id, class name and debuggable flag are always present, the version code and recreate flag only when set, the process name exactly for a standalone process with a non-empty suffix, and no other key |
| UserServiceOptions.UserServiceOptionsBuilder.Build | api/src/main/java/moe/shizuku/api/ShizukuService.java:203-222 | returns a fresh bundle whose entries are `Options(fields)`, or the same exception `Options` names; the builder is not changed |
| UserServiceOptions.UserServiceOptionsBuilder.constructor | api/src/main/java/moe/shizuku/api/ShizukuService.java:164-174 | only the id is set; the optional fields are null and both flags false |
| UserServiceOptions.UserServiceOptionsBuilder.SetClassName | api/src/main/java/moe/shizuku/api/ShizukuService.java:176-179 | sets the class name (null allowed), changes no other field, returns the builder |
| UserServiceOptions.UserServiceOptionsBuilder.SetVersionCode | api/src/main/java/moe/shizuku/api/ShizukuService.java:181-184 | sets the version code, changes no other field, returns the builder |
| UserServiceOptions.UserServiceOptionsBuilder.SetAlwaysRecreate | api/src/main/java/moe/shizuku/api/ShizukuService.java:186-189 | sets the recreate flag, changes no other field, returns the builder |
| UserServiceOptions.UserServiceOptionsBuilder.UseMainProcess | api/src/main/java/moe/shizuku/api/ShizukuService.java:191-194 | selects the main process and leaves the suffix and the debuggable flag as they were |
| UserServiceOptions.UserServiceOptionsBuilder.UseStandaloneProcess | api/src/main/java/moe/shizuku/api/ShizukuService.java:196-201 | selects a standalone process and stores the suffix and the debuggable flag; the last placement call wins |

## Left out

- The remote operations `exit`, `sendUserService`, `newProcess`, `getUid`, `getVersion`, `checkPermission` and `getSELinuxContext`. Each one is a call to `requireService()` (modelled) followed by a one-line forward to the `IShizukuService` AIDL stub, which is not part of this model.
- What the remote side answers to `transactRemote`, `addUserService` and `removeUserService` (the reply parcel, the user-service binder, the "removed" flag). The model stops where the request is handed to the proxy.
- The transaction code `ShizukuApiConstants.BINDER_TRANSACTION_transact` that `transactRemote` sends (line 89): it is a fixed value defined in a file that is not part of this model, so `Transaction` records only the target, the data and the flags.
- `getLatestServiceVersion` returns `ShizukuApiConstants.SERVER_VERSION`, a constant defined in a file that is not part of this model.
- The death recipient `ShizukuProvider.DEATH_RECIPIENT` is defined in a file that is not part of this model. What it does when a binder dies is not modelled. A later `setBinder(null)` returns the cell to the unbound state (`SetBinderStep`).
- Thread safety: the static fields are unsynchronised in the source. The model is sequential.
- The text of the `ShizukuApiConstants.USER_SERVICE_ARG_*` keys: that class is not part of this model. The model uses distinct key strings and relies only on their being distinct.
- Connection.ShizukuService.SetBinder: the model does not say the proxy is a new object. `asInterface` is modelled as a value derived from the binder, so the identity of a Java proxy object is not captured, only which binder it wraps.
- `RemoteException` (transport faults) from `transact` (line 89) and from the `addUserService` and `removeUserService` stub calls (lines 233, 246): these happen after the point where the model stops, so `Success` from `TransactRemote`, `AddUserService` and `RemoveUserService` means the request was handed to the proxy, not that it completed.
- The `RemoteException` that `linkToDeath` can throw inside `setBinder` (line 36) is caught and ignored at line 37. The model represents it as `LinkToDeath` returning false, which `SetBinder` ignores.
