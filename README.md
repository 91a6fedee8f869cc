# ydbwrapper ORM core in Dafny

This project models the part of the `orm` package (orm/orm.go) that actually runs.

**The model cache.** `_modelCache` is the process-wide registry of model metadata. It holds:
- two name-to-`modelInfo` maps;
- the registration order;
- a `done` flag.

It is open until `BootStrap` seals it, and `NewOrm` always calls `BootStrap`. After sealing, `RegisterModel` and `RegisterModelWithPrefix` panic. While the cache is open, they call `registerModel(prefix, model, true)` once per model, in argument order. `registerModel` has an empty body, so registering changes neither map, nor the order, nor the flag.

**The insert path.** `orm.Insert` calls the alias's backend, `dbBase.Insert`. That calls `dbBase.InsertValue` with a fixed single-row column `name` and value `value`. `InsertValue` returns id 0 and no error. `dbBase.Insert` reports an error with id 0 and ignores the struct it is given. `orm.Insert` passes the pair on unchanged.

Files:
- `go_types.dfy` (module `GoTypes`): the Go values the core passes around. These are `int64`, nil-able values, `error`, `interface{}` values, and how a call ends (it returns, or it panics with an error).
- `registry.dfy` (module `Registry`): the model cache as the class `ModelCache`. Its methods are proved against the pure transition function `Step`. Lemmas about `Run`, a sequence of such calls, give the lifecycle: sealing cannot be undone, and a registration panics exactly when some earlier call sealed the cache.
- `orm.dfy` (module `Orm`): the `orm` handle, the `dbBaser` backend (one variant, `DbBase`), `NewOrm`, and the insert path and its helpers as functions.

A panic is modelled as the outcome `Panicked(Error(message))`, with the source's exact message. The panicking call changes no state. The class keeps a ghost history, `calls`, of the `registerModel` invocations. That history is the only trace registration leaves.

The code does less than the ORM's documented design, and the model follows the code:
- `Using` accepts every name, even inside a transaction.
- `Insert` does not write the generated key back into the model. The call to `setPk` is commented out.
- `InsertValue` builds and executes no statement.

## Model

| member | source | states |
|---|---|---|
| Registry.ModelCache.constructor | orm/orm.go:90-95 | the global cache starts with empty maps, no orders, not sealed, and no registrations |
| Registry.ModelCache.RegisterSingleModel | orm/orm.go:116-118 | `registerModel` records its invocation and changes neither map, the order nor `done` (its frame is the ghost history only) |
| Registry.ModelCache.RegisterModelWithPrefix | orm/orm.go:106-114 | on a sealed cache it panics with "RegisterModelWithPrefix must be run before BootStrap" and records nothing; otherwise it returns and has invoked `registerModel(prefix, m, true)` once per model, in argument order; it agrees with `Step` |
| Registry.ModelCache.RegisterModel | orm/orm.go:98-103 | on a sealed cache it panics with "RegisterModel must be run before BootStrap" and records nothing; otherwise it registers every model under the empty prefix, in order; it agrees with `Step` |
| Registry.ModelCache.BootStrap | orm/orm.go:198-206 | afterwards `done` holds; on a sealed cache it changes nothing (idempotent); it agrees with `Step` |
| Registry.RegisterCalls | orm/orm.go:111-113 | the invocations made for `models` number exactly `|models|`, and the i-th is `registerModel(prefix, models[i], true)` |
| Registry.Step | orm/orm.go:98-206 | no call changes the maps or the order; afterwards `done` holds iff it held before or the call was BootStrap/NewOrm; a registration panics iff the cache is sealed, and then leaves the state unchanged; otherwise it appends exactly its invocations; BootStrap/NewOrm never panic and change nothing once sealed |
| Registry.Run | orm/orm.go:98-206 | a run of calls reports one outcome per call |
| Registry.SealedStaysSealed | orm/orm.go:98-108 | from a sealed cache, any sequence of calls ends in the same state (still sealed, nothing recorded), and every registration in it panics |
| Registry.RunKeepsCatalog | orm/orm.go:106-118 | no sequence of calls changes the two maps or the registration order |
| Registry.RunSealedIff | orm/orm.go:198-224 | a run ends sealed iff the cache started sealed or the run contains BootStrap or NewOrm; so sealing is never undone |
| Registry.RegisterPanicsIff | orm/orm.go:98-114 | the j-th call of a run, if it is a registration, panics iff the cache started sealed or some earlier call was BootStrap or NewOrm |
| Registry.OpenRunRecordsCalls | orm/orm.go:106-118 | from an open cache, a run without BootStrap/NewOrm stays open, and records exactly its registrations' invocations, in order |
| Orm.NewHandle | orm/orm.go:208-224 | the new handle's alias has a `dbBase` backend and otherwise zero fields; the querier is nil and the handle is not in a transaction |
| Orm.NewOrm | orm/orm.go:215-224 | seals the model cache (as `BootStrap` does) and returns the handle `NewHandle` describes |
| Orm.InsertValue | orm/orm.go:282-286 | for every querier, metadata, mode, names and values: id 0 and no error |
| Orm.DbBaseInsertVia | orm/orm.go:247-260 | for any `InsertValue` it calls: it asks for exactly `isMulti = false`, names `["name"]` and values `["value"]`, whatever the struct; the error comes back verbatim; on error the id is 0, otherwise the id that call reported |
| Orm.DbBaseInsert | orm/orm.go:247-260 | is `DbBaseInsertVia` with `dbBase`'s own `InsertValue`, and so reports `(0, nil)` for every struct |
| Orm.BackendInsert | orm/orm.go:143 | the `DbBaser.Insert` call through the interface runs the `dbBase` implementation when the alias holds it |
| Orm.InsertVia | orm/orm.go:138-151 | for any backend: it passes the handle's querier, empty metadata and the model, and returns exactly the backend's `(id, err)`, on the error path and on the success path |
| Orm.Insert | orm/orm.go:138-151 | is `InsertVia` with the backend of the handle's alias: exactly what `BackendInsert` reports |
| Orm.InsertYieldsZero | orm/orm.go:138-151 | every insert through any handle reports `(0, nil)` |
| Orm.CollectValues | orm/orm.go:263-271 | no values, no auto fields, no error; the caller's names are left as they were |
| Orm.CollectFieldValue | orm/orm.go:274-278 | a nil value and no error for every field |
| Orm.Using | orm/orm.go:173-176 | never fails, whatever the name and whether or not the handle is in a transaction |

## Left out

- The `sync.RWMutex` that `BootStrap` holds (orm/orm.go:199-200): the model is sequential.
- `reflect.ValueOf` and `reflect.Indirect` (orm/orm.go:140-141): the model value itself stands for the reflected value, which nothing inspects.
- The `*time.Location` arguments and the alias's `TZ` and `*sql.DB` fields: they are passed through and never used.
- `dbQuerier` and its `database/sql` types (orm/interfaces.go:134-143): a querier is an opaque value, because no statement is executed.
- Every `orm` method whose body is `panic("implement me")` (`Read`, `ReadForUpdate`, `ReadOrCreate`, `InsertOrUpdate`, `InsertMulti`, `Update`, `Delete`, `LoadRelated`, `Begin`, `BeginTx`, `Commit`, `Rollback`, `DBStats`): they have no behaviour beyond panicking.
- The primary-key write-back promised in orm/interfaces.go:30: the code does not do it (orm/orm.go:148 is commented out).
- The `fields` and `fieldInfo` records (orm/orm.go:13-65) beyond a name and a column: the code never builds or reads them. The same holds for `modelInfo`'s reflected `model`, `fields` and `addrField`.
- The self-reference `dbBase.ins` set by `newdbBaseYotta`: nothing reads it.
- Nil handles, nil aliases and nil backends: only `NewOrm` creates a handle, and it always sets the alias and the backend.
- The difference between a nil slice and an empty one (`collectValues` returns a nil `autoFields` and an empty `values`): both are the empty sequence.
- A panic ends the process unless it is recovered. `Registry.Run` continues after a panicking call, as a caller that recovers would; the panicking call changes nothing.
- orm/interfaces.go is declarations only, and main.go is the program entry point that prints results: neither is part of this model.
