/** The ORM handle of orm/orm.go and the insert path it dispatches to:
    `orm.Insert` calls the alias's backend, `dbBase.Insert`, which calls
    `dbBase.InsertValue`. No statement is built or executed on this path. */
module Orm {
  import opened GoTypes
  import opened Registry

  /** The backend strategy (`dbBaser`); `dbBase` is its one implementation. */
  datatype DbBaser = DbBase

  /** A named connection profile (`alias`). The `*sql.DB` connection and the
      time zone are not modelled. */
  datatype Alias = Alias(
    name: string,
    driverName: string,
    dataSource: string,
    maxIdleConns: int,
    maxOpenConns: int,
    dbBaser: DbBaser,
    engine: string)

  /** A `dbQuerier`: a connection or a transaction, never looked into here. */
  datatype Querier = Querier(handle: nat)

  /** The `orm` handle: its alias, its querier (nil unless set) and whether it
      is inside a transaction. */
  datatype Handle = Handle(alias: Alias, db: Option<Querier>, isTx: bool)

  /** `&modelInfo{}`: the zero metadata that `orm.Insert` hands to the backend. */
  const EmptyModelInfo := ModelInfo("", "", "", "", false, [], false)

  /** The metadata of one struct field (`fieldInfo`), known by name and column;
      nothing in the core reads it. */
  datatype FieldInfo = FieldInfo(name: string, column: string)

  /** The `(int64, error)` pair an insert reports. */
  datatype InsertResult = InsertResult(id: int64, err: Option<Error>)

  /** What `collectValues` hands back: its three results, and the caller's
      `*names` afterwards (None when the caller passed a nil pointer). */
  datatype Collected = Collected(
    values: seq<Value>,
    autoFields: seq<string>,
    err: Option<Error>,
    names: Option<seq<string>>)

  /** What `collectFieldValue` hands back. */
  datatype FieldValue = FieldValue(value: Value, err: Option<Error>)

  /** The handle `NewOrm` returns: an alias holding only a fresh `dbBase`
      backend, no querier, not in a transaction. */
  function NewHandle(): (o: Handle)
    ensures o.alias.dbBaser == DbBase
    ensures o.alias.name == "" && o.alias.driverName == "" && o.alias.dataSource == ""
    ensures o.alias.maxIdleConns == 0 && o.alias.maxOpenConns == 0 && o.alias.engine == ""
    ensures o.db == None && !o.isTx
  {
    Handle(Alias("", "", "", 0, 0, DbBase, ""), None, false)
  }

  /** `NewOrm`: seals the model cache through `BootStrap`, then builds a handle. */
  method NewOrm(modelCache: ModelCache) returns (o: Handle)
    modifies modelCache`done
    ensures StepResult(modelCache.State(), Returned) == Step(old(modelCache.State()), NewOrmOp)
    ensures modelCache.done
    ensures o == NewHandle()
  {
    modelCache.BootStrap();
    o := NewHandle();
  }

  /** `dbBase.InsertValue`: whatever it is asked to insert, it reports id 0 and
      no error. */
  function InsertValue(b: DbBaser, q: Option<Querier>, mi: ModelInfo, isMulti: bool,
                       names: seq<string>, values: seq<Value>): (r: InsertResult)
    ensures r.id == 0 && r.err == None
  {
    match b
    case DbBase => InsertResult(0, None)
  }

  /** `dbBase.Insert` over any `InsertValue` it might call: it ignores the
      struct, asks `iv` for a single-row insert of the one column "name" with
      the one value "value", and reports what `iv` returns, with id 0 on error. */
  function DbBaseInsertVia(iv: (Option<Querier>, ModelInfo, bool, seq<string>, seq<Value>) -> InsertResult,
                           q: Option<Querier>, mi: ModelInfo, ind: Value): (r: InsertResult)
    // the error `iv` reports for that fixed row comes back verbatim ...
    ensures r.err == iv(q, mi, false, ["name"], [Str("value")]).err
    // ... with id 0 when it is an error, and with the id `iv` reported otherwise
    ensures r.err != None ==> r.id == 0
    ensures r.err == None ==> r.id == iv(q, mi, false, ["name"], [Str("value")]).id
  {
    var res := iv(q, mi, false, ["name"], [Str("value")]);
    if res.err != None then InsertResult(0, res.err) else res
  }

  /** `dbBase.Insert` with the `InsertValue` of `dbBase`: it reports id 0 and
      no error, whatever struct it is given. */
  function DbBaseInsert(q: Option<Querier>, mi: ModelInfo, ind: Value): (r: InsertResult)
    ensures r == DbBaseInsertVia((q', mi', isMulti, names, values) => InsertValue(DbBase, q', mi', isMulti, names, values), q, mi, ind)
    ensures r == InsertResult(0, None)
  {
    DbBaseInsertVia((q', mi', isMulti, names, values) => InsertValue(DbBase, q', mi', isMulti, names, values), q, mi, ind)
  }

  /** The call `DbBaser.Insert` through the `dbBaser` interface: it runs the
      `Insert` of the variant the alias holds. */
  function BackendInsert(b: DbBaser, q: Option<Querier>, mi: ModelInfo, ind: Value): (r: InsertResult)
    ensures b == DbBase ==> r == DbBaseInsert(q, mi, ind)
  {
    match b
    case DbBase => DbBaseInsert(q, mi, ind)
  }

  /** `orm.Insert` over any backend insert: it hands the handle's querier, empty
      metadata and the model to `backend`, and reports exactly the backend's id
      and error, on the error path as on the success path. No primary key is
      written back into the model. */
  function InsertVia(backend: (Option<Querier>, ModelInfo, Value) -> InsertResult,
                     o: Handle, md: Value): (r: InsertResult)
    ensures r == backend(o.db, EmptyModelInfo, md)
  {
    var res := backend(o.db, EmptyModelInfo, md);
    if res.err != None then InsertResult(res.id, res.err) else InsertResult(res.id, None)
  }

  /** `orm.Insert` with the backend of the handle's alias. */
  function Insert(o: Handle, md: Value): (r: InsertResult)
    ensures r == BackendInsert(o.alias.dbBaser, o.db, EmptyModelInfo, md)
  {
    InsertVia((q, mi, ind) => BackendInsert(o.alias.dbBaser, q, mi, ind), o, md)
  }

  /** Every insert through any handle reports id 0 and no error. */
  lemma InsertYieldsZero(o: Handle, md: Value)
    ensures Insert(o, md) == InsertResult(0, None)
  {
  }

  /** `dbBase.collectValues`: collects no values and no auto fields, reports no
      error, and leaves the caller's names as they were. */
  function CollectValues(mi: ModelInfo, ind: Value, cols: seq<string>, skipAuto: bool,
                         insert: bool, names: Option<seq<string>>): (r: Collected)
    ensures r.values == [] && r.autoFields == [] && r.err == None
    ensures r.names == names
  {
    Collected([], [], None, names)
  }

  /** `dbBase.collectFieldValue`: a nil value and no error, for every field. */
  function CollectFieldValue(mi: ModelInfo, fi: FieldInfo, ind: Value, insert: bool): (r: FieldValue)
    ensures r.value == Nil && r.err == None
  {
    FieldValue(Nil, None)
  }

  /** `orm.Using`: accepts every alias name, inside a transaction or not, and
      leaves the handle bound as it was. */
  function Using(o: Handle, name: string): (err: Option<Error>)
    ensures err == None
  {
    None
  }
}
