/** The process-wide model cache of orm/orm.go: two name-to-metadata maps, the
    registration order and the `done` flag that seals it. Registration is open
    until the first `BootStrap` (or `NewOrm`, which calls it); from then on every
    registration call panics. */
module Registry {
  import opened GoTypes

  /** The metadata kept per registered model (`modelInfo`). The reflected
      struct, its field table and its address are not modelled. */
  datatype ModelInfo = ModelInfo(
    pkg: string,
    name: string,
    fullName: string,
    table: string,
    manual: bool,
    uniques: seq<string>,
    isThrough: bool)

  /** One invocation `registerModel(prefix, model, b)`. */
  datatype RegisterCall = RegisterCall(prefix: string, model: Value, b: bool)

  /** The invocations that registering `models` under `prefix` makes: one per
      model, in argument order, each with `b == true`. */
  function RegisterCalls(prefix: string, models: seq<Value>): (cs: seq<RegisterCall>)
    ensures |cs| == |models|
    ensures forall i :: 0 <= i < |models| ==> cs[i] == RegisterCall(prefix, models[i], true)
  {
    if models == [] then []
    else RegisterCalls(prefix, models[..|models| - 1]) + [RegisterCall(prefix, models[|models| - 1], true)]
  }

  const RegisterModelMessage := "RegisterModel must be run before BootStrap"
  const RegisterModelWithPrefixMessage := "RegisterModelWithPrefix must be run before BootStrap"

  /** The abstract state of the model cache. `calls` is the history of
      `registerModel` invocations, which change nothing else. */
  datatype CacheState = CacheState(
    orders: seq<string>,
    cache: map<string, ModelInfo>,
    cacheByFullName: map<string, ModelInfo>,
    done: bool,
    calls: seq<RegisterCall>)
  {
    /** Both maps and the registration order agree with `t`. */
    predicate SameCatalog(t: CacheState) {
      orders == t.orders && cache == t.cache && cacheByFullName == t.cacheByFullName
    }
  }

  /** The package-level initialiser: empty maps, no orders, open. */
  const InitialState := CacheState([], map[], map[], false, [])

  /** The public calls that touch the model cache. */
  datatype Op =
    | RegisterModelOp(models: seq<Value>)
    | RegisterModelWithPrefixOp(prefix: string, models: seq<Value>)
    | BootStrapOp
    | NewOrmOp
  {
    predicate Registers() { RegisterModelOp? || RegisterModelWithPrefixOp? }
    predicate Seals() { BootStrapOp? || NewOrmOp? }
    /** The prefix the models end up registered under. */
    function Prefix(): string requires Registers() {
      if RegisterModelOp? then "" else prefix
    }
  }

  datatype StepResult = StepResult(state: CacheState, outcome: Outcome)

  function StepRegisterWithPrefix(s: CacheState, prefix: string, models: seq<Value>): StepResult {
    if s.done then StepResult(s, Panicked(Error(RegisterModelWithPrefixMessage)))
    else StepResult(s.(calls := s.calls + RegisterCalls(prefix, models)), Returned)
  }

  function StepBootStrap(s: CacheState): StepResult {
    if s.done then StepResult(s, Returned)
    else StepResult(s.(done := true), Returned)
  }

  /** The effect of one call on the model cache. */
  function Step(s: CacheState, op: Op): (r: StepResult)
    // no call adds to or removes from the catalog
    ensures r.state.SameCatalog(s)
    // sealing: only BootStrap and NewOrm set `done`, and nothing clears it
    ensures r.state.done == (s.done || op.Seals())
    // a registration panics exactly when the cache is sealed, and then changes nothing
    ensures op.Registers() ==> (r.outcome.Panicked? <==> s.done)
    ensures op.Registers() && s.done ==> r.state == s
    ensures op.Registers() && !s.done ==> r.state.calls == s.calls + RegisterCalls(op.Prefix(), op.models)
    // sealing never panics, makes no registrations, and is a no-op once sealed
    ensures op.Seals() ==> r.outcome == Returned && r.state.calls == s.calls
    ensures op.Seals() && s.done ==> r.state == s
  {
    match op
    case RegisterModelOp(models) =>
      if s.done then StepResult(s, Panicked(Error(RegisterModelMessage)))
      else StepRegisterWithPrefix(s, "", models)
    case RegisterModelWithPrefixOp(prefix, models) =>
      StepRegisterWithPrefix(s, prefix, models)
    case BootStrapOp =>
      StepBootStrap(s)
    case NewOrmOp =>
      StepBootStrap(s)
  }

  /** A run of calls: the final state and how each call ended. A panicking call
      leaves the cache as it was, and the run goes on as if it were recovered. */
  datatype Trace = Trace(final: CacheState, outcomes: seq<Outcome>)

  function Run(s: CacheState, ops: seq<Op>): (t: Trace)
    ensures |t.outcomes| == |ops|
    decreases |ops|
  {
    if ops == [] then Trace(s, [])
    else
      var r := Step(s, ops[0]);
      var rest := Run(r.state, ops[1..]);
      Trace(rest.final, [r.outcome] + rest.outcomes)
  }

  /** Once sealed, the cache stays sealed, and every later registration panics
      without recording an invocation. */
  lemma {:induction false} SealedStaysSealed(s: CacheState, ops: seq<Op>)
    requires s.done
    ensures Run(s, ops).final == s
    ensures forall j :: 0 <= j < |ops| && ops[j].Registers() ==> Run(s, ops).outcomes[j].Panicked?
    decreases |ops|
  {
    if ops != [] {
      var r := Step(s, ops[0]);
      SealedStaysSealed(r.state, ops[1..]);
      forall j | 0 <= j < |ops| && ops[j].Registers()
        ensures Run(s, ops).outcomes[j].Panicked?
      {
        if j > 0 {
          assert ops[1..][j - 1] == ops[j];
        }
      }
    }
  }

  /** No sequence of calls changes the two maps or the registration order. */
  lemma {:induction false} RunKeepsCatalog(s: CacheState, ops: seq<Op>)
    ensures Run(s, ops).final.SameCatalog(s)
    decreases |ops|
  {
    if ops != [] {
      RunKeepsCatalog(Step(s, ops[0]).state, ops[1..]);
    }
  }

  /** A run ends sealed exactly when the cache started sealed or the run
      contains a BootStrap or NewOrm. */
  lemma {:induction false} RunSealedIff(s: CacheState, ops: seq<Op>)
    ensures Run(s, ops).final.done <==> (s.done || exists i :: 0 <= i < |ops| && ops[i].Seals())
    decreases |ops|
  {
    if ops != [] {
      var s1 := Step(s, ops[0]).state;
      RunSealedIff(s1, ops[1..]);
      if exists i :: 0 <= i < |ops[1..]| && ops[1..][i].Seals() {
        var i :| 0 <= i < |ops[1..]| && ops[1..][i].Seals();
        assert ops[i + 1].Seals();
      }
      if exists i :: 0 <= i < |ops| && ops[i].Seals() {
        var i :| 0 <= i < |ops| && ops[i].Seals();
        if i > 0 {
          assert ops[1..][i - 1].Seals();
        }
      }
    }
  }

  /** The j-th call of a run, when it is a registration, panics exactly when the
      cache started sealed or some earlier call was a BootStrap or NewOrm. */
  lemma {:induction false} RegisterPanicsIff(s: CacheState, ops: seq<Op>, j: nat)
    requires j < |ops| && ops[j].Registers()
    ensures Run(s, ops).outcomes[j].Panicked? <==> (s.done || exists i :: 0 <= i < j && ops[i].Seals())
    decreases j
  {
    var s1 := Step(s, ops[0]).state;
    if j > 0 {
      assert ops[1..][j - 1] == ops[j];
      RegisterPanicsIff(s1, ops[1..], j - 1);
      if exists i :: 0 <= i < j - 1 && ops[1..][i].Seals() {
        var i :| 0 <= i < j - 1 && ops[1..][i].Seals();
        assert ops[i + 1].Seals();
      }
      if exists i :: 0 <= i < j && ops[i].Seals() {
        var i :| 0 <= i < j && ops[i].Seals();
        if i > 0 {
          assert ops[1..][i - 1].Seals();
        }
      }
    }
  }

  /** While the cache stays open, a run records exactly the invocations its
      registrations make, in order. */
  function RunCalls(ops: seq<Op>): seq<RegisterCall> {
    if ops == [] then []
    else (if ops[0].Registers() then RegisterCalls(ops[0].Prefix(), ops[0].models) else [])
         + RunCalls(ops[1..])
  }

  lemma {:induction false} OpenRunRecordsCalls(s: CacheState, ops: seq<Op>)
    requires !s.done
    requires forall i :: 0 <= i < |ops| ==> !ops[i].Seals()
    ensures Run(s, ops).final.calls == s.calls + RunCalls(ops)
    ensures !Run(s, ops).final.done
    decreases |ops|
  {
    if ops != [] {
      var s1 := Step(s, ops[0]).state;
      assert forall i :: 0 <= i < |ops[1..]| ==> ops[1..][i] == ops[i + 1];
      OpenRunRecordsCalls(s1, ops[1..]);
    }
  }

  /** `_modelCache`, the record behind the global `modelCache`. */
  class ModelCache {
    var orders: seq<string>
    var cache: map<string, ModelInfo>
    var cacheByFullName: map<string, ModelInfo>
    var done: bool
    /** The `registerModel` invocations made so far. */
    ghost var calls: seq<RegisterCall>

    ghost function State(): CacheState
      reads this
    {
      CacheState(orders, cache, cacheByFullName, done, calls)
    }

    /** The package-level initialisation of `modelCache`. */
    constructor ()
      ensures State() == InitialState
    {
      orders := [];
      cache := map[];
      cacheByFullName := map[];
      done := false;
      calls := [];
    }

    /** `registerModel`: records the invocation and changes nothing else. */
    method RegisterSingleModel(prefix: string, model: Value, b: bool)
      modifies this`calls
      ensures calls == old(calls) + [RegisterCall(prefix, model, b)]
    {
      calls := calls + [RegisterCall(prefix, model, b)];
    }

    method RegisterModelWithPrefix(prefix: string, models: seq<Value>) returns (r: Outcome)
      modifies this`calls
      ensures StepResult(State(), r) == Step(old(State()), RegisterModelWithPrefixOp(prefix, models))
      ensures old(done) ==> r == Panicked(Error(RegisterModelWithPrefixMessage)) && calls == old(calls)
      ensures !old(done) ==> r == Returned && calls == old(calls) + RegisterCalls(prefix, models)
    {
      if done {
        return Panicked(Error(RegisterModelWithPrefixMessage));
      }
      for i := 0 to |models|
        invariant calls == old(calls) + RegisterCalls(prefix, models[..i])
      {
        assert models[..i + 1][..i] == models[..i];
        RegisterSingleModel(prefix, models[i], true);
      }
      assert models[..|models|] == models;
      r := Returned;
    }

    method RegisterModel(models: seq<Value>) returns (r: Outcome)
      modifies this`calls
      ensures StepResult(State(), r) == Step(old(State()), RegisterModelOp(models))
      ensures old(done) ==> r == Panicked(Error(RegisterModelMessage)) && calls == old(calls)
      ensures !old(done) ==> r == Returned && calls == old(calls) + RegisterCalls("", models)
    {
      if done {
        return Panicked(Error(RegisterModelMessage));
      }
      r := RegisterModelWithPrefix("", models);
    }

    /** Seals the cache; a second call returns at once. The lock around it is
        not modelled. */
    method BootStrap()
      modifies this`done
      ensures StepResult(State(), Returned) == Step(old(State()), BootStrapOp)
      ensures done
      ensures old(done) ==> unchanged(this)
    {
      if done {
        return;
      }
      done := true;
    }
  }
}
