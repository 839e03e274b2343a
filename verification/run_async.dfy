/**
 * The asynchronous entry point `run(functionName, parameter, script, api, callback)`:
 * argument checks, a work request owning its own VM, the API object's functions
 * registered in that VM, one queued work item, `onWork` running the script and
 * `onWorkDone` delivering `(hasError, returnValue)` to the callback once and
 * freeing the request.
 *
 * The event loop is sequential here: a queued request is run by `OnWork` and
 * completed by `OnWorkDone`, once each.
 */
module AsyncEntry {
  import opened Registry
  import opened Vm
  import opened HostArgs
  import SyncEntry

  /** One call of a completion callback: the callback and its two arguments. */
  datatype Delivery = Delivery(callback: JsValue, hasError: bool, value: string)

  /** The state one asynchronous run carries from `run` through `onWork` to `onWorkDone`. */
  class WorkRequest {
    const vm: DuktapeVM
    /** The API functions the request keeps a handle on, in registration order. */
    var apiCallbackFunctions: seq<JsValue>
    const functionName: string
    const parameters: string
    const script: string
    const callback: JsValue
    var hasError: bool
    var returnValue: string

    /** A request with its own freshly registered VM, no error and an empty return value. */
    constructor (functionName: string, parameters: string, script: string, callback: JsValue, cache: CallbackCache)
      modifies cache
      ensures this.functionName == functionName && this.parameters == parameters && this.script == script
      ensures this.callback == callback
      ensures !hasError && returnValue == "" && apiCallbackFunctions == []
      ensures fresh(vm) && fresh(vm.ctx) && vm.cache == cache && vm.ctx.live && vm.globals == {}
      ensures cache.table == old(cache.table)[vm.ctx := map[]]
    {
      vm := new DuktapeVM(cache);
      apiCallbackFunctions := [];
      this.functionName := functionName;
      this.parameters := parameters;
      this.script := script;
      this.callback := callback;
      hasError := false;
      returnValue := "";
    }
  }

  /** The part of the host event loop the entry point uses: queued work and completed deliveries. */
  class EventLoop {
    var pending: set<WorkRequest>
    var delivered: seq<Delivery>

    constructor ()
      ensures pending == {} && delivered == []
    {
      pending := {};
      delivered := [];
    }

    /** `uv_queue_work`: the request will be run and completed later. */
    method QueueWork(req: WorkRequest)
      modifies this
      ensures pending == old(pending) + {req}
      ensures delivered == old(delivered)
    {
      pending := pending + {req};
    }
  }

  /** The argument checks of run, in order; None when the arguments pass them. */
  function CheckArgs(args: seq<JsValue>): (r: Option<Outcome>)
    ensures r.None? <==>
      |args| >= 5 && args[0].JsString? && args[1].JsString? && args[2].JsString? && args[4].JsFunction?
    ensures |args| < 5 ==> r == Some(Threw(TypeError, WrongNumberOfArguments))
    ensures |args| >= 5 && r.Some? ==> r == Some(Threw(TypeError, WrongArguments))
  {
    if |args| < 5 then Some(Threw(TypeError, WrongNumberOfArguments))
    else if !args[0].JsString? || !args[1].JsString? || !args[2].JsString? || !args[4].JsFunction? then
      Some(Threw(TypeError, WrongArguments))
    else None
  }

  /** What run(args) itself returns or throws: undefined once the work is queued. */
  function RunOutcome(args: seq<JsValue>): (out: Outcome)
    ensures out.Threw? && out.kind == TypeError <==> CheckArgs(args).Some?
    ensures out == Threw(Error, ApiDefinitionError) <==>
      CheckArgs(args).None? && !ApiValid(ApiProps(args[3]))
    ensures out == ReturnedUndefined <==> CheckArgs(args).None? && ApiValid(ApiProps(args[3]))
  {
    match CheckArgs(args)
    case Some(rejected) => rejected
    case None => if !ApiValid(ApiProps(args[3])) then Threw(Error, ApiDefinitionError) else ReturnedUndefined
  }

  /** The one delivery an accepted run(args) ends with, when the engine behaves as `engine`. */
  function RunDelivery(args: seq<JsValue>, engine: Engine): (d: Delivery)
    requires RunOutcome(args) == ReturnedUndefined
    ensures d.callback == args[4]
    ensures var r := RunSpec(engine, Trampolines(ApiTable(ApiProps(args[3]))), args[0].s, args[1].s, args[2].s);
      d.hasError == (r.errorCode != 0) && d.value == r.value
  {
    var r := RunSpec(engine, Trampolines(ApiTable(ApiProps(args[3]))), args[0].s, args[1].s, args[2].s);
    Delivery(args[4], r.errorCode != 0, r.value)
  }

  /**
   * run as written: the work request (and so its VM) is created before the API
   * loop, and the API error exit returns without freeing it, so its context
   * stays registered with the entries registered before the bad one.
   */
  method RunAsWritten(args: seq<JsValue>, cache: CallbackCache, loop: EventLoop)
    returns (out: Outcome, req: WorkRequest?)
    modifies cache, loop
    ensures out == RunOutcome(args)
    ensures req != null <==> CheckArgs(args).None?
    ensures req == null ==> cache.table == old(cache.table)
    ensures req != null ==>
      var k := FirstInvalid(ApiProps(args[3]));
      var entries := ApiTable(ApiProps(args[3])[..k]);
      && fresh(req) && fresh(req.vm.ctx) && req.vm.ctx.live
      && cache.table == old(cache.table)[req.vm.ctx := entries]
      && req.apiCallbackFunctions == ValuesOf(ApiProps(args[3])[..k])
    ensures out == ReturnedUndefined ==> loop.pending == old(loop.pending) + {req}
    ensures out != ReturnedUndefined ==> loop.pending == old(loop.pending)
    ensures loop.delivered == old(loop.delivered)
  {
    if |args| < 5 {
      return Threw(TypeError, WrongNumberOfArguments), null;
    }
    if !args[0].JsString? || !args[1].JsString? || !args[2].JsString? || !args[4].JsFunction? {
      return Threw(TypeError, WrongArguments), null;
    }
    var ok;
    req, ok := NewRequest(args, cache);
    if !ok {
      return Threw(Error, ApiDefinitionError), req;
    }
    loop.QueueWork(req);
    out := ReturnedUndefined;
  }

  /**
   * run with the API error exit freeing the request it created, as every other
   * exit that does not queue it should: a rejected call leaves the cache as it
   * was.  `req` is the queued request, or null.
   */
  method Run(args: seq<JsValue>, cache: CallbackCache, loop: EventLoop)
    returns (out: Outcome, req: WorkRequest?)
    modifies cache, loop
    ensures out == RunOutcome(args)
    ensures req != null <==> out == ReturnedUndefined
    ensures req == null ==> cache.table == old(cache.table) && loop.pending == old(loop.pending)
    ensures req != null ==>
      var props := ApiProps(args[3]);
      && fresh(req) && fresh(req.vm.ctx) && req.vm.ctx.live && req.vm.cache == cache
      && req.functionName == CStr(args[0].s) && req.parameters == CStr(args[1].s) && req.script == CStr(args[2].s)
      && req.callback == args[4] && !req.hasError && req.returnValue == ""
      && cache.table == old(cache.table)[req.vm.ctx := ApiTable(props)]
      && req.vm.globals == ApiTable(props).Keys
      && req.apiCallbackFunctions == ValuesOf(props)
      && loop.pending == old(loop.pending) + {req}
    ensures loop.delivered == old(loop.delivered)
  {
    if |args| < 5 {
      return Threw(TypeError, WrongNumberOfArguments), null;
    }
    if !args[0].JsString? || !args[1].JsString? || !args[2].JsString? || !args[4].JsFunction? {
      return Threw(TypeError, WrongArguments), null;
    }
    var ok;
    req, ok := NewRequest(args, cache);
    if !ok {
      var props := ApiProps(args[3]);
      UnregisterAfterSet(old(cache.table), req.vm.ctx, ApiTable(props[..FirstInvalid(props)]));
      assert req.vm.ctx.live;
      req.vm.Destroy();
      return Threw(Error, ApiDefinitionError), null;
    }
    assert FirstInvalid(ApiProps(args[3])) == |ApiProps(args[3])| && ApiProps(args[3])[..|ApiProps(args[3])|] == ApiProps(args[3]);
    loop.QueueWork(req);
    out := ReturnedUndefined;
  }

  /**
   * The part of run after the argument checks and before queueing: a new
   * request for the call, then the API loop over argument 3.
   */
  method NewRequest(args: seq<JsValue>, cache: CallbackCache) returns (req: WorkRequest, ok: bool)
    requires CheckArgs(args).None?
    modifies cache
    ensures ok == ApiValid(ApiProps(args[3]))
    ensures var props := ApiProps(args[3]);
      var k := FirstInvalid(props);
      && fresh(req) && fresh(req.vm.ctx) && req.vm.ctx.live && req.vm.cache == cache
      && req.functionName == CStr(args[0].s) && req.parameters == CStr(args[1].s) && req.script == CStr(args[2].s)
      && req.callback == args[4] && !req.hasError && req.returnValue == ""
      && cache.table == old(cache.table)[req.vm.ctx := ApiTable(props[..k])]
      && req.vm.globals == ApiTable(props[..k]).Keys
      && req.apiCallbackFunctions == ValuesOf(props[..k])
  {
    var functionName, parameters, script := CStr(args[0].s), CStr(args[1].s), CStr(args[2].s);
    req := new WorkRequest(functionName, parameters, script, args[4], cache);
    assert req.vm.ctx.live;
    ok := PrepareApi(req, args[3]);
    assert req.vm.ctx.live;
    var props := ApiProps(args[3]);
    var entries := ApiTable(props[..FirstInvalid(props)]);
    SetTwice(old(cache.table), req.vm.ctx, map[], entries);
  }

  /**
   * The API loop of run: when `api` is an object, each entry is checked, its
   * function kept by the request and registered in the request's VM, up to the
   * first bad entry.
   */
  method PrepareApi(req: WorkRequest, api: JsValue) returns (ok: bool)
    requires req.vm.ctx in req.vm.cache.table && req.vm.cache.table[req.vm.ctx] == map[]
    requires req.vm.globals == {} && req.apiCallbackFunctions == []
    modifies req, req.vm, req.vm.cache
    ensures ok == ApiValid(ApiProps(api))
    ensures var k := FirstInvalid(ApiProps(api));
      && req.apiCallbackFunctions == ValuesOf(ApiProps(api)[..k])
      && req.vm.cache.table == old(req.vm.cache.table)[req.vm.ctx := ApiTable(ApiProps(api)[..k])]
      && req.vm.globals == ApiTable(ApiProps(api)[..k]).Keys
    ensures req.hasError == old(req.hasError) && req.returnValue == old(req.returnValue)
  {
    ok := true;
    if IsObject(api) {
      var kept;
      ok, kept := InstallApi(req.vm, api.props);
      req.apiCallbackFunctions := kept;
    } else {
      assert ApiProps(api)[..0] == [];
      assert old(req.vm.cache.table)[req.vm.ctx := map[]] == old(req.vm.cache.table);
    }
  }

  /** onWork: runs the request's script in its VM and records whether it failed and its text. */
  method OnWork(req: WorkRequest, engine: Engine)
    modifies req
    ensures var r := RunSpec(engine, HostView(req.vm.cache.table, req.vm.ctx, req.vm.globals),
                             req.functionName, req.parameters, req.script);
      req.hasError == (r.errorCode != 0) && req.returnValue == r.value
    ensures req.apiCallbackFunctions == old(req.apiCallbackFunctions)
  {
    var ret := req.vm.Run(req.functionName, req.parameters, req.script, engine);
    req.hasError := ret.errorCode != 0;
    req.returnValue := ret.value;
  }

  /**
   * onWorkDone: calls the request's callback once with `(hasError, returnValue)`,
   * the text handed over as a C string, then frees the request, which destroys
   * its VM and so unregisters its context.
   */
  method OnWorkDone(req: WorkRequest, loop: EventLoop)
    requires req in loop.pending && req.vm.ctx.live
    modifies loop, req.vm.cache, req.vm.ctx
    ensures loop.delivered == old(loop.delivered) + [Delivery(req.callback, req.hasError, CStr(req.returnValue))]
    ensures loop.pending == old(loop.pending) - {req}
    ensures req.vm.cache.table == Unregistered(old(req.vm.cache.table), req.vm.ctx)
    ensures !req.vm.ctx.live
  {
    loop.delivered := loop.delivered + [Delivery(req.callback, req.hasError, CStr(req.returnValue))];
    loop.pending := loop.pending - {req};
    req.vm.Destroy();
  }

  /**
   * One accepted run followed by the event loop running its work and its
   * completion: the callback receives exactly one delivery, the run's
   * `(errorCode != 0, value)`, and the cache ends as it started.
   */
  method RunToCompletion(args: seq<JsValue>, cache: CallbackCache, loop: EventLoop, engine: Engine)
    returns (out: Outcome)
    modifies cache, loop
    ensures out == RunOutcome(args)
    ensures cache.table == old(cache.table)
    ensures loop.pending == old(loop.pending)
    ensures out == ReturnedUndefined ==> loop.delivered == old(loop.delivered) + [RunDelivery(args, engine)]
    ensures out != ReturnedUndefined ==> loop.delivered == old(loop.delivered)
  {
    var req;
    out, req := Run(args, cache, loop);
    if req != null {
      var props := ApiProps(args[3]);
      HostOfApi(cache.table, req.vm.ctx, ApiTable(props));
      RunSpecOnCStrings(engine, Trampolines(ApiTable(props)), args[0].s, args[1].s, args[2].s);
      OnWork(req, engine);
      assert CStr(req.returnValue) == req.returnValue;
      assert req.vm.ctx.live && req in loop.pending;
      OnWorkDone(req, loop);
      UnregisterAfterSet(old(cache.table), req.vm.ctx, ApiTable(props));
    }
  }

  /** A call rejected by the argument checks throws a TypeError and queues nothing, whatever else it carries. */
  lemma RejectedBeforeWork(args: seq<JsValue>)
    requires CheckArgs(args).Some?
    ensures RunOutcome(args).Threw? && RunOutcome(args).kind == TypeError
    ensures |args| < 5 ==> RunOutcome(args).message == WrongNumberOfArguments
    ensures |args| >= 5 ==> RunOutcome(args).message == WrongArguments
  {
  }

  /**
   * The four-argument form `run(name, parameter, script, callback)` is rejected
   * for its length, and a five-argument call whose last argument is not a
   * function is rejected as "Wrong arguments".
   */
  lemma FourArgumentFormRejected(name: string, parameter: string, script: string, callback: JsValue, api: JsValue)
    ensures RunOutcome([JsString(name), JsString(parameter), JsString(script), callback])
      == Threw(TypeError, WrongNumberOfArguments)
    ensures !callback.JsFunction? ==>
      RunOutcome([JsString(name), JsString(parameter), JsString(script), api, callback])
        == Threw(TypeError, WrongArguments)
  {
  }

  /**
   * The two entry points agree: for arguments run accepts, runSync on the
   * first four throws exactly when the delivery reports an error, with the
   * same text, and otherwise returns that text.
   */
  lemma SyncAndAsyncAgree(args: seq<JsValue>, engine: Engine)
    requires RunOutcome(args) == ReturnedUndefined
    ensures var d := RunDelivery(args, engine);
      SyncEntry.RunSyncSpec(args[..4], engine) == if d.hasError then Threw(Error, d.value) else Returned(d.value)
  {
    assert Arg(args[..4], 3) == args[3];
  }

  /**
   * A script whose `test` returns `exclamate('hello')`, run asynchronously with
   * the API `{exclamate: p => p + "!"}`, delivers `(false, "hello!")`.
   */
  lemma ApiCallbackDelivered(eval: (string, Host) -> SafeCall, encode: Value -> SafeCall, script: string,
                             done: Callback)
    requires forall h :: eval(CStr(script), h).rc == ExecSuccess
    ensures var args := [JsString("test"), JsString(""), JsString(script), JsObject(SyncEntry.ExampleApi()), JsFunction(done, [])];
      && RunOutcome(args) == ReturnedUndefined
      && RunDelivery(args, Engine(eval, SyncEntry.CallsExclamate, encode)) == Delivery(JsFunction(done, []), false, "hello!")
  {
    var args := [JsString("test"), JsString(""), JsString(script), JsObject(SyncEntry.ExampleApi()), JsFunction(done, [])];
    SyncEntry.ExampleTable();
    assert CheckArgs(args).None? && ApiProps(args[3]) == SyncEntry.ExampleApi();
    SyncEntry.ExampleRun(eval, encode, script);
  }

  /**
   * The API error exit of run as written: a call whose API object has a
   * non-function value throws, queues nothing, and yet leaves one more context
   * registered than before.
   */
  method LeakWitness() returns (out: Outcome, before: nat, after: nat, queued: nat)
    ensures out == Threw(Error, ApiDefinitionError)
    ensures before == 0 && after == 1 && queued == 0
  {
    var cache := new CallbackCache();
    var loop := new EventLoop();
    var args := [JsString("test"), JsString(""), JsString(""),
                 JsObject([Property(JsString("exclamate"), JsNumber)]), JsFunction(_ => "", [])];
    assert !ValidEntry(args[3].props[0]);
    before := |cache.table|;
    var req;
    out, req := RunAsWritten(args, cache, loop);
    after := |cache.table|;
    queued := |loop.pending|;
  }

  /** The same call to the corrected run leaves no context registered. */
  method NoLeakWitness() returns (out: Outcome, before: nat, after: nat, queued: nat)
    ensures out == Threw(Error, ApiDefinitionError)
    ensures before == 0 && after == 0 && queued == 0
  {
    var cache := new CallbackCache();
    var loop := new EventLoop();
    var args := [JsString("test"), JsString(""), JsString(""),
                 JsObject([Property(JsString("exclamate"), JsNumber)]), JsFunction(_ => "", [])];
    assert !ValidEntry(args[3].props[0]);
    before := |cache.table|;
    var req;
    out, req := Run(args, cache, loop);
    after := |cache.table|;
    queued := |loop.pending|;
  }
}
