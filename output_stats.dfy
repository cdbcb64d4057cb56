/** The stats-logger registry and its per-thread dispatch chain.

    A process-wide, append-only list of loggers is built at start-up. Each
    worker thread then builds a store of thread-data handles by running the
    ThreadInit of every logger's module, and later walks the registry and
    its store in lock-step to deliver a stats table, to tear the store down
    and to print exit statistics. Module callables are outside this model:
    each call is recorded in a returned trace of `Call`s instead. */
module OutputStats {
  import opened Common

  type Name = string

  /** Identity of a logger's output context (`OutputCtx *`). */
  type OutputCtxId = nat

  /** Identity of a `StatsLogger` callable. */
  type FuncId = nat

  /** The stats table handed to every logger. */
  type StatsTable = map<string, int>

  /** What a module's ThreadInit returns when it is called. */
  datatype InitOutcome = InitOk | InitFailed

  /** The module-table entry for a name: its id, the outcome of its
      ThreadInit when it has one, and whether it has a ThreadDeinit and a
      ThreadExitPrintStats callable. */
  datatype ModuleDesc = ModuleDesc(
    id: nat,
    threadInit: Option<InitOutcome>,
    hasThreadDeinit: bool,
    hasThreadExitPrintStats: bool)

  type ModuleTable = map<Name, ModuleDesc>

  /** One registered logger instance: a module plus an output context.
      `logFunc` is None when a NULL callable was registered. */
  datatype Logger = Logger(logFunc: Option<FuncId>, outputCtx: OutputCtxId, name: Name, moduleId: nat)

  /** The thread data a module's ThreadInit hands back: made for thread
      `thread` by module `producer` from output context `outputCtx`. */
  datatype ThreadHandle = ThreadHandle(thread: nat, producer: Name, outputCtx: OutputCtxId)

  /** A call out of this core into a module or the allocator. */
  datatype Call =
    | ThreadInitCall(moduleName: Name, outputCtx: OutputCtxId)
    | LogCall(logFunc: FuncId, threadData: ThreadHandle, table: StatsTable)
    | ThreadDeinitCall(moduleName: Name, threadData: ThreadHandle)
    | StoreFree(threadData: ThreadHandle)
    | ExitPrintStatsCall(moduleName: Name, threadData: ThreadHandle)
  {
    /** A module callable that receives thread data gets data its own
        module produced. This compares module names only; which instance
        of the module the data belongs to is `ForOwnInstance`. */
    predicate MatchesOwner()
    {
      match this
      case ThreadDeinitCall(m, h) => h.producer == m
      case ExitPrintStatsCall(m, h) => h.producer == m
      case _ => true
    }
  }

  /** `TM_ECODE_OK`, `exit(EXIT_FAILURE)`, or a failed `BUG_ON`. */
  datatype Status = Ok | Fatal | Abort

  // ---------------------------------------------------------------------
  // The registry (the global `list`)

  class StatsLoggerList {
    var list: seq<Logger>

    constructor ()
      ensures list == []
    {
      list := [];
    }

    /** `OutputRegisterStatsLogger`: resolve the name, then append at the
        tail. Names are not deduplicated. */
    method Register(modules: ModuleTable, name: Name, logFunc: Option<FuncId>, outputCtx: OutputCtxId)
      returns (rc: int)
      modifies this
      ensures name !in modules ==> rc == -1 && list == old(list)
      ensures name in modules ==> rc == 0 && list == old(list) + [Logger(logFunc, outputCtx, name, modules[name].id)]
    {
      if name !in modules {
        return -1;
      }
      list := list + [Logger(logFunc, outputCtx, name, modules[name].id)];
      rc := 0;
    }

    /** `OutputStatsLoggersRegistered`. */
    function Registered(): (r: int)
      reads this
      ensures r == 1 <==> list != []
      ensures r == 0 <==> list == []
    {
      if list != [] then 1 else 0
    }

    /** `OutputStatsShutdown`: every entry is released and the list emptied. */
    method Shutdown()
      modifies this
      ensures list == []
    {
      list := [];
    }
  }

  // ---------------------------------------------------------------------
  // Specification of thread init

  /** The first `k` loggers' names all resolve in the module table. */
  predicate ResolvedUpTo(loggers: seq<Logger>, modules: ModuleTable, k: nat)
  {
    k <= |loggers| && forall i :: 0 <= i < k ==> loggers[i].name in modules
  }

  predicate Resolves(loggers: seq<Logger>, modules: ModuleTable)
  {
    ResolvedUpTo(loggers, modules, |loggers|)
  }

  /** The logger's module has a ThreadInit and it returns OK. */
  predicate InitSucceeds(l: Logger, modules: ModuleTable)
    requires l.name in modules
  {
    modules[l.name].threadInit == Some(InitOk)
  }

  predicate AllInitSucceed(loggers: seq<Logger>, modules: ModuleTable)
    requires Resolves(loggers, modules)
  {
    forall i :: 0 <= i < |loggers| ==> InitSucceeds(loggers[i], modules)
  }

  function HandleFor(tv: nat, l: Logger): ThreadHandle
  {
    ThreadHandle(tv, l.name, l.outputCtx)
  }

  /** The store thread `tv` holds after visiting the first `k` loggers. */
  function InitStore(tv: nat, loggers: seq<Logger>, modules: ModuleTable, k: nat): seq<ThreadHandle>
    requires ResolvedUpTo(loggers, modules, k)
  {
    if k == 0 then []
    else
      var l := loggers[k - 1];
      InitStore(tv, loggers, modules, k - 1) + (if InitSucceeds(l, modules) then [HandleFor(tv, l)] else [])
  }

  /** The ThreadInit calls made while visiting the first `k` loggers. */
  function InitCalls(loggers: seq<Logger>, modules: ModuleTable, k: nat): seq<Call>
    requires ResolvedUpTo(loggers, modules, k)
  {
    if k == 0 then []
    else
      var l := loggers[k - 1];
      InitCalls(loggers, modules, k - 1)
        + (if modules[l.name].threadInit.Some? then [ThreadInitCall(l.name, l.outputCtx)] else [])
  }

  /** Positions, among the first `k` loggers, of those whose ThreadInit
      succeeds, in increasing order. */
  function SucceedingIndices(loggers: seq<Logger>, modules: ModuleTable, k: nat): (idx: seq<nat>)
    requires ResolvedUpTo(loggers, modules, k)
    ensures forall j :: 0 <= j < |idx| ==> idx[j] < k && InitSucceeds(loggers[idx[j]], modules)
    ensures forall j, j' :: 0 <= j < j' < |idx| ==> idx[j] < idx[j']
    ensures forall i :: 0 <= i < k && InitSucceeds(loggers[i], modules) ==> i in idx
  {
    if k == 0 then []
    else SucceedingIndices(loggers, modules, k - 1) + (if InitSucceeds(loggers[k - 1], modules) then [k - 1] else [])
  }

  /** The lock-step pairing: store[i] is the thread data registry[i]'s
      module made, for every i, and nothing is left over on either side. */
  predicate Paired(tv: nat, loggers: seq<Logger>, store: seq<ThreadHandle>)
  {
    |store| == |loggers| && forall i :: 0 <= i < |loggers| ==> store[i] == HandleFor(tv, loggers[i])
  }

  /** A ThreadDeinit or ThreadExitPrintStats call hands its module the
      thread data made on thread `tv` for one of the first `k` logger
      instances, and that instance belongs to the module called: same
      module, same output context, same thread. Other calls pass trivially. */
  predicate ForOwnInstance(tv: nat, loggers: seq<Logger>, k: nat, c: Call)
  {
    (c.ThreadDeinitCall? || c.ExitPrintStatsCall?) ==>
      exists i :: 0 <= i < k && i < |loggers| && c.moduleName == loggers[i].name && c.threadData == HandleFor(tv, loggers[i])
  }

  // ---------------------------------------------------------------------
  // Thread init

  datatype InitResult = Initialized(store: seq<ThreadHandle>) | ModuleMissing(name: Name)

  /** `OutputStatsLogThreadInit` for thread `tv`: a handle is appended only
      when the module has a ThreadInit and it returns OK; an unresolvable
      logger name is fatal. */
  method ThreadInit(tv: nat, loggers: seq<Logger>, modules: ModuleTable) returns (r: InitResult, calls: seq<Call>)
    ensures r.Initialized? <==> Resolves(loggers, modules)
    ensures r.Initialized? ==>
      r.store == InitStore(tv, loggers, modules, |loggers|) && calls == InitCalls(loggers, modules, |loggers|)
    ensures r.ModuleMissing? ==> r.name !in modules && exists i :: 0 <= i < |loggers| && loggers[i].name == r.name
  {
    var store: seq<ThreadHandle> := [];
    calls := [];
    var i := 0;
    while i < |loggers|
      invariant ResolvedUpTo(loggers, modules, i)
      invariant store == InitStore(tv, loggers, modules, i)
      invariant calls == InitCalls(loggers, modules, i)
    {
      var l := loggers[i];
      if l.name !in modules {
        return ModuleMissing(l.name), calls;
      }
      var m := modules[l.name];
      if m.threadInit.Some? {
        calls := calls + [ThreadInitCall(l.name, l.outputCtx)];
        if m.threadInit.value == InitOk {
          store := store + [HandleFor(tv, l)];
        }
      }
      i := i + 1;
    }
    r := Initialized(store);
  }

  // ---------------------------------------------------------------------
  // What thread init builds

  /** The store never has more entries than the loggers visited. */
  lemma {:induction false} InitStoreBounded(tv: nat, loggers: seq<Logger>, modules: ModuleTable, k: nat)
    requires ResolvedUpTo(loggers, modules, k)
    ensures |InitStore(tv, loggers, modules, k)| <= k
  {
    if k > 0 {
      InitStoreBounded(tv, loggers, modules, k - 1);
    }
  }

  /** Entry j of the store is the handle of the j-th logger whose
      ThreadInit succeeded: the store keeps registry order and holds one
      entry for each such logger and for no other. */
  lemma {:induction false} InitStoreInRegistryOrder(tv: nat, loggers: seq<Logger>, modules: ModuleTable, k: nat)
    requires ResolvedUpTo(loggers, modules, k)
    ensures var store, idx := InitStore(tv, loggers, modules, k), SucceedingIndices(loggers, modules, k);
      |store| == |idx| && forall j :: 0 <= j < |idx| ==> store[j] == HandleFor(tv, loggers[idx[j]])
  {
    if k > 0 {
      InitStoreInRegistryOrder(tv, loggers, modules, k - 1);
      var store', idx' := InitStore(tv, loggers, modules, k - 1), SucceedingIndices(loggers, modules, k - 1);
      if InitSucceeds(loggers[k - 1], modules) {
        var store, idx := InitStore(tv, loggers, modules, k), SucceedingIndices(loggers, modules, k);
        assert store == store' + [HandleFor(tv, loggers[k - 1])];
        assert idx == idx' + [k - 1];
        forall j | 0 <= j < |idx|
          ensures store[j] == HandleFor(tv, loggers[idx[j]])
        {
          if j < |idx'| {
            assert store[j] == store'[j] && idx[j] == idx'[j];
          }
        }
      } else {
        assert InitStore(tv, loggers, modules, k) == store';
        assert SucceedingIndices(loggers, modules, k) == idx';
      }
    }
  }

  /** One logger among the first `k` whose ThreadInit is missing or fails
      makes the store strictly shorter than `k`. */
  lemma {:induction false} InitStoreShort(tv: nat, loggers: seq<Logger>, modules: ModuleTable, k: nat, bad: nat)
    requires ResolvedUpTo(loggers, modules, k)
    requires bad < k && !InitSucceeds(loggers[bad], modules)
    ensures |InitStore(tv, loggers, modules, k)| < k
  {
    if bad == k - 1 {
      InitStoreBounded(tv, loggers, modules, k - 1);
    } else {
      InitStoreShort(tv, loggers, modules, k - 1, bad);
    }
  }

  /** When every visited module's ThreadInit succeeds, the store pairs
      with the visited loggers one to one. */
  lemma {:induction false} InitStoreAllSucceed(tv: nat, loggers: seq<Logger>, modules: ModuleTable, k: nat)
    requires ResolvedUpTo(loggers, modules, k)
    requires forall i :: 0 <= i < k ==> InitSucceeds(loggers[i], modules)
    ensures Paired(tv, loggers[..k], InitStore(tv, loggers, modules, k))
  {
    if k > 0 {
      InitStoreAllSucceed(tv, loggers, modules, k - 1);
    }
  }

  /** The lock-step pairing holds after thread init exactly when every
      registered module has a ThreadInit and it returns OK. */
  lemma PairingIffAllInitSucceed(tv: nat, loggers: seq<Logger>, modules: ModuleTable)
    requires Resolves(loggers, modules)
    ensures Paired(tv, loggers, InitStore(tv, loggers, modules, |loggers|)) <==> AllInitSucceed(loggers, modules)
  {
    if AllInitSucceed(loggers, modules) {
      InitStoreAllSucceed(tv, loggers, modules, |loggers|);
      assert loggers[..|loggers|] == loggers;
    } else {
      var bad :| 0 <= bad < |loggers| && !InitSucceeds(loggers[bad], modules);
      InitStoreShort(tv, loggers, modules, |loggers|, bad);
    }
  }

  /** The drift: when the first logger whose ThreadInit succeeds sits at
      position `first`, store[0] holds that logger's thread data, so the
      lock-step walk hands it to registry[0]. */
  lemma StoreHeadFromFirstSuccess(tv: nat, loggers: seq<Logger>, modules: ModuleTable, first: nat)
    requires Resolves(loggers, modules)
    requires first < |loggers| && InitSucceeds(loggers[first], modules)
    requires forall i :: 0 <= i < first ==> !InitSucceeds(loggers[i], modules)
    ensures var store := InitStore(tv, loggers, modules, |loggers|);
      |store| >= 1 && store[0] == HandleFor(tv, loggers[first])
  {
    var idx := SucceedingIndices(loggers, modules, |loggers|);
    InitStoreInRegistryOrder(tv, loggers, modules, |loggers|);
    assert first in idx;
    var j :| 0 <= j < |idx| && idx[j] == first;
    assert idx[0] <= first;
    assert idx[0] == first;
  }

  // ---------------------------------------------------------------------
  // Dispatch

  /** `OutputStatsLog` returns OK: the registry is non-empty, the store has
      the same length and no registered callable is NULL. */
  predicate LogSucceeds(loggers: seq<Logger>, store: seq<ThreadHandle>)
  {
    loggers != [] && |store| == |loggers| && forall i :: 0 <= i < |loggers| ==> loggers[i].logFunc.Some?
  }

  /** `OutputStatsLog`: walks registry and store in lock-step and calls
      each logger's LogFunc with its thread data and the stats table. An
      empty list or store, a NULL LogFunc, and lists of different lengths
      are BUG_ON aborts; the calls made before an abort are kept. */
  method Log(loggers: seq<Logger>, store: seq<ThreadHandle>, table: StatsTable) returns (rc: Status, calls: seq<Call>)
    ensures rc == Ok <==> LogSucceeds(loggers, store)
    ensures rc != Ok ==> rc == Abort
    ensures |calls| <= |loggers| && |calls| <= |store|
    ensures forall i :: 0 <= i < |calls| ==>
      loggers[i].logFunc.Some? && calls[i] == LogCall(loggers[i].logFunc.value, store[i], table)
    ensures rc == Ok ==> |calls| == |loggers|
    ensures rc == Abort && |calls| < |loggers| && |calls| < |store| ==> loggers[|calls|].logFunc.None?
  {
    calls := [];
    if loggers == [] || store == [] {
      return Abort, calls;
    }
    var i := 0;
    while i < |loggers| && i < |store|
      invariant i <= |loggers| && i <= |store|
      invariant |calls| == i
      invariant forall j :: 0 <= j < i ==>
        loggers[j].logFunc.Some? && calls[j] == LogCall(loggers[j].logFunc.value, store[j], table)
      invariant i > 0 ==> (i == |loggers| <==> i == |store|)
    {
      if loggers[i].logFunc.None? {
        return Abort, calls;
      }
      calls := calls + [LogCall(loggers[i].logFunc.value, store[i], table)];
      i := i + 1;
      if (i == |loggers|) != (i == |store|) {
        return Abort, calls;
      }
    }
    rc := Ok;
  }

  /** With every module's ThreadInit succeeding and every LogFunc set, the
      store thread init builds makes dispatch succeed, and logger i is
      called with the thread data its own module made. */
  lemma InitThenLogSucceeds(tv: nat, loggers: seq<Logger>, modules: ModuleTable)
    requires Resolves(loggers, modules) && AllInitSucceed(loggers, modules)
    requires loggers != [] && forall i :: 0 <= i < |loggers| ==> loggers[i].logFunc.Some?
    ensures var store := InitStore(tv, loggers, modules, |loggers|);
      LogSucceeds(loggers, store) && Paired(tv, loggers, store)
  {
    PairingIffAllInitSucceed(tv, loggers, modules);
  }

  /** With any registered module lacking a ThreadInit or failing it, the
      store is too short and dispatch on it aborts. */
  lemma DriftAbortsLog(tv: nat, loggers: seq<Logger>, modules: ModuleTable)
    requires Resolves(loggers, modules) && !AllInitSucceed(loggers, modules)
    ensures !LogSucceeds(loggers, InitStore(tv, loggers, modules, |loggers|))
  {
    var bad :| 0 <= bad < |loggers| && !InitSucceeds(loggers[bad], modules);
    InitStoreShort(tv, loggers, modules, |loggers|, bad);
  }

  // ---------------------------------------------------------------------
  // Thread deinit and exit statistics

  function Min(a: nat, b: nat): nat { if a < b then a else b }

  /** The calls deinit makes for the first `k` pairs: the module's
      ThreadDeinit where it has one, then the store node is freed. */
  function DeinitCalls(loggers: seq<Logger>, store: seq<ThreadHandle>, modules: ModuleTable, k: nat): seq<Call>
    requires k <= |store| && ResolvedUpTo(loggers, modules, k)
  {
    if k == 0 then []
    else
      var l, h := loggers[k - 1], store[k - 1];
      DeinitCalls(loggers, store, modules, k - 1)
        + (if modules[l.name].hasThreadDeinit then [ThreadDeinitCall(l.name, h)] else [])
        + [StoreFree(h)]
  }

  /** `OutputStatsLogThreadDeinit`: visits min(|registry|, |store|) pairs;
      an unresolvable name is fatal. */
  method ThreadDeinit(loggers: seq<Logger>, store: seq<ThreadHandle>, modules: ModuleTable) returns (rc: Status, calls: seq<Call>)
    ensures rc == Ok <==> ResolvedUpTo(loggers, modules, Min(|loggers|, |store|))
    ensures rc != Ok ==> rc == Fatal
    ensures rc == Ok ==> calls == DeinitCalls(loggers, store, modules, Min(|loggers|, |store|))
  {
    calls := [];
    var i := 0;
    while i < |loggers| && i < |store|
      invariant i <= |loggers| && i <= |store|
      invariant ResolvedUpTo(loggers, modules, i)
      invariant calls == DeinitCalls(loggers, store, modules, i)
    {
      var l := loggers[i];
      if l.name !in modules {
        return Fatal, calls;
      }
      if modules[l.name].hasThreadDeinit {
        calls := calls + [ThreadDeinitCall(l.name, store[i])];
      }
      calls := calls + [StoreFree(store[i])];
      i := i + 1;
    }
    rc := Ok;
  }

  /** The thread data released by the `StoreFree` calls, in order. */
  function Freed(calls: seq<Call>): seq<ThreadHandle>
  {
    if calls == [] then []
    else
      var c := calls[|calls| - 1];
      Freed(calls[..|calls| - 1]) + (if c.StoreFree? then [c.threadData] else [])
  }

  lemma {:induction false} FreedAppend(a: seq<Call>, b: seq<Call>)
    ensures Freed(a + b) == Freed(a) + Freed(b)
  {
    if b == [] {
      assert a + b == a;
    } else {
      assert (a + b)[..|a + b| - 1] == a + b[..|b| - 1];
      FreedAppend(a, b[..|b| - 1]);
    }
  }

  /** The calls deinit makes for one pair release exactly that pair's entry. */
  lemma FreedDeinitStep(name: Name, h: ThreadHandle, hasThreadDeinit: bool)
    ensures Freed((if hasThreadDeinit then [ThreadDeinitCall(name, h)] else []) + [StoreFree(h)]) == [h]
  {
    var deinit := if hasThreadDeinit then [ThreadDeinitCall(name, h)] else [];
    var step := deinit + [StoreFree(h)];
    assert step[..|step| - 1] == deinit;
    assert Freed(deinit) == [] by {
      if hasThreadDeinit {
        assert deinit[..0] == [];
      }
    }
    assert Freed(step) == Freed(deinit) + [h];
  }

  /** Deinit frees each visited store node exactly once, in store order. */
  lemma {:induction false} DeinitFreesEachOnce(loggers: seq<Logger>, store: seq<ThreadHandle>, modules: ModuleTable, k: nat)
    requires k <= |store| && ResolvedUpTo(loggers, modules, k)
    ensures Freed(DeinitCalls(loggers, store, modules, k)) == store[..k]
  {
    if k > 0 {
      var l, h := loggers[k - 1], store[k - 1];
      var has := modules[l.name].hasThreadDeinit;
      var prev := DeinitCalls(loggers, store, modules, k - 1);
      var step := (if has then [ThreadDeinitCall(l.name, h)] else []) + [StoreFree(h)];
      assert DeinitCalls(loggers, store, modules, k) == prev + step;
      DeinitFreesEachOnce(loggers, store, modules, k - 1);
      FreedAppend(prev, step);
      FreedDeinitStep(l.name, h, has);
      assert store[..k] == store[..k - 1] + [h];
    }
  }

  /** Under the pairing, every ThreadDeinit receives the data its own
      logger instance's ThreadInit made: its module's, with that instance's
      output context. */
  lemma {:induction false} DeinitPairedOwners(tv: nat, loggers: seq<Logger>, store: seq<ThreadHandle>, modules: ModuleTable, k: nat)
    requires Paired(tv, loggers, store) && k <= |store| && ResolvedUpTo(loggers, modules, k)
    ensures forall j :: 0 <= j < |DeinitCalls(loggers, store, modules, k)| ==>
      DeinitCalls(loggers, store, modules, k)[j].MatchesOwner()
    ensures forall j :: 0 <= j < |DeinitCalls(loggers, store, modules, k)| ==>
      ForOwnInstance(tv, loggers, k, DeinitCalls(loggers, store, modules, k)[j])
  {
    if k > 0 {
      DeinitPairedOwners(tv, loggers, store, modules, k - 1);
      var l, h := loggers[k - 1], store[k - 1];
      assert h == HandleFor(tv, l);
      var prev := DeinitCalls(loggers, store, modules, k - 1);
      var tail := (if modules[l.name].hasThreadDeinit then [ThreadDeinitCall(l.name, h)] else []) + [StoreFree(h)];
      assert forall j :: 0 <= j < |tail| ==> tail[j].MatchesOwner() && ForOwnInstance(tv, loggers, k, tail[j]);
      OwnInstanceWidens(tv, loggers, k - 1, prev);
      assert DeinitCalls(loggers, store, modules, k) == prev + tail;
    }
  }

  /** A call for one of the first `k` instances is for one of the first
      `k + 1`. */
  lemma OwnInstanceWidens(tv: nat, loggers: seq<Logger>, k: nat, calls: seq<Call>)
    requires forall j :: 0 <= j < |calls| ==> ForOwnInstance(tv, loggers, k, calls[j])
    ensures forall j :: 0 <= j < |calls| ==> ForOwnInstance(tv, loggers, k + 1, calls[j])
  {
    forall j | 0 <= j < |calls|
      ensures ForOwnInstance(tv, loggers, k + 1, calls[j])
    {
      if calls[j].ThreadDeinitCall? || calls[j].ExitPrintStatsCall? {
        var i :| 0 <= i < k && i < |loggers| && calls[j].moduleName == loggers[i].name && calls[j].threadData == HandleFor(tv, loggers[i]);
      }
    }
  }

  /** Without the pairing the walk misroutes thread data: when registry[0]
      has a ThreadDeinit but no successful ThreadInit, its ThreadDeinit is
      handed the data of the first logger whose ThreadInit succeeded. */
  lemma DriftMisroutesDeinit(tv: nat, loggers: seq<Logger>, modules: ModuleTable, first: nat)
    requires Resolves(loggers, modules)
    requires 0 < first < |loggers| && InitSucceeds(loggers[first], modules)
    requires forall i :: 0 <= i < first ==> !InitSucceeds(loggers[i], modules)
    requires modules[loggers[0].name].hasThreadDeinit && loggers[0].name != loggers[first].name
    ensures var store := InitStore(tv, loggers, modules, |loggers|);
      |store| >= 1 &&
      var calls := DeinitCalls(loggers, store, modules, 1);
      calls[0] == ThreadDeinitCall(loggers[0].name, HandleFor(tv, loggers[first])) && !calls[0].MatchesOwner()
  {
    StoreHeadFromFirstSuccess(tv, loggers, modules, first);
  }

  /** The ThreadExitPrintStats calls for the first `k` pairs. */
  function ExitPrintStatsCalls(loggers: seq<Logger>, store: seq<ThreadHandle>, modules: ModuleTable, k: nat): seq<Call>
    requires k <= |store| && ResolvedUpTo(loggers, modules, k)
  {
    if k == 0 then []
    else
      var l, h := loggers[k - 1], store[k - 1];
      ExitPrintStatsCalls(loggers, store, modules, k - 1)
        + (if modules[l.name].hasThreadExitPrintStats then [ExitPrintStatsCall(l.name, h)] else [])
  }

  /** `OutputStatsLogExitPrintStats`: the same lock-step walk as deinit,
      calling ThreadExitPrintStats where present. Registry and store are
      values here, so neither can change. */
  method ThreadExitPrintStats(loggers: seq<Logger>, store: seq<ThreadHandle>, modules: ModuleTable) returns (rc: Status, calls: seq<Call>)
    ensures rc == Ok <==> ResolvedUpTo(loggers, modules, Min(|loggers|, |store|))
    ensures rc != Ok ==> rc == Fatal
    ensures rc == Ok ==> calls == ExitPrintStatsCalls(loggers, store, modules, Min(|loggers|, |store|))
  {
    calls := [];
    var i := 0;
    while i < |loggers| && i < |store|
      invariant i <= |loggers| && i <= |store|
      invariant ResolvedUpTo(loggers, modules, i)
      invariant calls == ExitPrintStatsCalls(loggers, store, modules, i)
    {
      var l := loggers[i];
      if l.name !in modules {
        return Fatal, calls;
      }
      if modules[l.name].hasThreadExitPrintStats {
        calls := calls + [ExitPrintStatsCall(l.name, store[i])];
      }
      i := i + 1;
    }
    rc := Ok;
  }

  /** At most one exit-stats call per visited pair; under the pairing each
      receives the data its own logger instance's ThreadInit made, and
      each call is for a module that provides the callable. */
  lemma {:induction false} ExitPrintStatsPaired(tv: nat, loggers: seq<Logger>, store: seq<ThreadHandle>, modules: ModuleTable, k: nat)
    requires k <= |store| && ResolvedUpTo(loggers, modules, k)
    ensures var calls := ExitPrintStatsCalls(loggers, store, modules, k);
      |calls| <= k &&
      (forall j :: 0 <= j < |calls| ==>
         calls[j].ExitPrintStatsCall? && calls[j].moduleName in modules && modules[calls[j].moduleName].hasThreadExitPrintStats) &&
      (Paired(tv, loggers, store) ==> forall j :: 0 <= j < |calls| ==> calls[j].MatchesOwner()) &&
      (Paired(tv, loggers, store) ==> forall j :: 0 <= j < |calls| ==> ForOwnInstance(tv, loggers, k, calls[j]))
  {
    if k > 0 {
      ExitPrintStatsPaired(tv, loggers, store, modules, k - 1);
      if Paired(tv, loggers, store) {
        OwnInstanceWidens(tv, loggers, k - 1, ExitPrintStatsCalls(loggers, store, modules, k - 1));
        assert store[k - 1] == HandleFor(tv, loggers[k - 1]);
      }
    }
  }
}
