/**
 * The synchronous entry point `runSync(functionName, parameter, script[, api])`:
 * argument checks in a fixed order, a VM for the call, the API object's
 * functions registered as direct callbacks, and the run's result mapped to a
 * return value or a thrown Error.
 */
module SyncEntry {
  import opened Registry
  import opened Vm
  import opened HostArgs

  /** The argument checks of runSync, in order; None when the arguments pass them. */
  function CheckArgs(args: seq<JsValue>): (r: Option<Outcome>)
    ensures r.None? <==> |args| >= 3 && args[0].JsString? && args[1].JsString? && args[2].JsString?
    ensures |args| < 3 ==> r == Some(Threw(TypeError, WrongNumberOfArguments))
    ensures |args| >= 3 && r.Some? ==> r == Some(Threw(TypeError, WrongArguments))
  {
    if |args| < 3 then Some(Threw(TypeError, WrongNumberOfArguments))
    else if !args[0].JsString? || !args[1].JsString? || !args[2].JsString? then Some(Threw(TypeError, WrongArguments))
    else None
  }

  /** How runSync hands a run's result to its caller. */
  function ReportResult(r: Result): (out: Outcome)
    ensures out.Threw? <==> r.errorCode != 0
    ensures out.Threw? ==> out.kind == Error && out.message == r.value
    ensures !out.Threw? ==> out == Returned(r.value)
  {
    if r.errorCode != 0 then Threw(Error, r.value) else Returned(r.value)
  }

  /**
   * What runSync(args) returns or throws when the engine behaves as `engine`:
   * the script runs in a heap whose host globals are trampolines over the API
   * object's functions.
   */
  function RunSyncSpec(args: seq<JsValue>, engine: Engine): (out: Outcome)
    ensures CheckArgs(args).Some? ==> out == CheckArgs(args).value
    ensures CheckArgs(args).None? && !ApiValid(ApiProps(Arg(args, 3))) ==> out == Threw(Error, ApiDefinitionError)
    ensures out.Threw? && out.kind == TypeError <==> CheckArgs(args).Some?
    ensures out != ReturnedUndefined
  {
    match CheckArgs(args)
    case Some(rejected) => rejected
    case None =>
      var props := ApiProps(Arg(args, 3));
      if !ApiValid(props) then Threw(Error, ApiDefinitionError)
      else ReportResult(RunSpec(engine, Trampolines(ApiTable(props)), args[0].s, args[1].s, args[2].s))
  }

  /**
   * runSync: rejects bad arguments before any VM exists; otherwise builds a VM,
   * registers the API, runs, and tears the VM down on every exit, so the cache
   * is left as it was found.
   */
  method RunSync(args: seq<JsValue>, cache: CallbackCache, engine: Engine) returns (out: Outcome)
    modifies cache
    ensures out == RunSyncSpec(args, engine)
    ensures cache.table == old(cache.table)
  {
    if |args| < 3 {
      return Threw(TypeError, WrongNumberOfArguments);
    }
    if !args[0].JsString? || !args[1].JsString? || !args[2].JsString? {
      return Threw(TypeError, WrongArguments);
    }
    out := RunInNewVm(args, cache, engine);
  }

  /** The part of runSync after the argument checks: a VM that lives for the call and is then destroyed. */
  method RunInNewVm(args: seq<JsValue>, cache: CallbackCache, engine: Engine) returns (out: Outcome)
    requires CheckArgs(args).None?
    modifies cache
    ensures out == RunSyncSpec(args, engine)
    ensures cache.table == old(cache.table)
  {
    var vm := new DuktapeVM(cache);
    ghost var entries;
    out, entries := RunInVm(vm, args, engine);
    UnregisterAfterSet(old(cache.table), vm.ctx, entries);
    assert vm.ctx.live;
    vm.Destroy();
  }

  /**
   * The part of runSync between creating the VM and destroying it: the API
   * loop, then the run and its result mapping.  `entries` is what the VM's
   * context holds in the cache afterwards.
   */
  method RunInVm(vm: DuktapeVM, args: seq<JsValue>, engine: Engine) returns (out: Outcome, ghost entries: Entries)
    requires CheckArgs(args).None?
    requires vm.ctx in vm.cache.table && vm.cache.table[vm.ctx] == map[] && vm.globals == {}
    modifies vm, vm.cache
    ensures out == RunSyncSpec(args, engine)
    ensures vm.cache.table == old(vm.cache.table)[vm.ctx := entries]
  {
    var api := Arg(args, 3);
    var props := ApiProps(api);
    if IsObject(api) {
      var ok, _ := InstallApi(vm, api.props);
      if !ok {
        return Threw(Error, ApiDefinitionError), ApiTable(props[..FirstInvalid(props)]);
      }
    }
    assert FirstInvalid(props) == |props| && props[..|props|] == props;
    entries := ApiTable(props);
    assert vm.cache.table == old(vm.cache.table)[vm.ctx := entries] && vm.globals == entries.Keys;
    HostOfApi(vm.cache.table, vm.ctx, entries);
    // The three strings are read out of their V8 values as C strings.
    var name, parameter, script := CStr(args[0].s), CStr(args[1].s), CStr(args[2].s);
    var ret := vm.Run(name, parameter, script, engine);
    RunSpecOnCStrings(engine, Trampolines(entries), args[0].s, args[1].s, args[2].s);
    if ret.errorCode != 0 {
      out := Threw(Error, ret.value);
    } else {
      out := Returned(ret.value);
    }
  }

  /** A call rejected by the argument checks never reaches the engine, and only it throws a TypeError. */
  lemma RejectedBeforeRun(args: seq<JsValue>, e1: Engine, e2: Engine)
    ensures CheckArgs(args).Some? ==> RunSyncSpec(args, e1) == RunSyncSpec(args, e2)
    ensures RunSyncSpec(args, e1).Threw? && RunSyncSpec(args, e1).kind == TypeError <==> CheckArgs(args).Some?
  {
  }

  /** A bad API entry throws "Error in API-definition" and the script is never evaluated. */
  lemma BadApiSkipsScript(args: seq<JsValue>, e1: Engine, e2: Engine)
    requires CheckArgs(args).None? && !ApiValid(ApiProps(Arg(args, 3)))
    ensures RunSyncSpec(args, e1) == RunSyncSpec(args, e2) == Threw(Error, ApiDefinitionError)
  {
  }

  /** With good arguments, runSync throws exactly when the run reports an error, with the run's text. */
  lemma ThrowsIffRunFails(args: seq<JsValue>, e: Engine)
    requires CheckArgs(args).None? && ApiValid(ApiProps(Arg(args, 3)))
    ensures var r := RunSpec(e, Trampolines(ApiTable(ApiProps(Arg(args, 3)))), args[0].s, args[1].s, args[2].s);
      && (RunSyncSpec(args, e).Threw? <==> r.errorCode != 0)
      && (RunSyncSpec(args, e).Threw? ==> RunSyncSpec(args, e) == Threw(Error, r.value))
      && (!RunSyncSpec(args, e).Threw? ==> RunSyncSpec(args, e) == Returned(r.value))
  {
  }

  /** A non-string function name is rejected as "Wrong arguments" (`runSync(true, "", "")`). */
  lemma NonStringNameRejected(e: Engine)
    ensures RunSyncSpec([JsBoolean, JsString(""), JsString("")], e) == Threw(TypeError, WrongArguments)
  {
  }

  /** The API function of the example: `p => p + "!"`. */
  function Exclamate(p: string): string
  {
    p + "!"
  }

  /**
   * An engine's call step for a script whose function returns
   * `exclamate('hello')`: a ReferenceError unless the host provides `exclamate`.
   */
  function CallsExclamate(script: string, name: string, parameter: string, host: Host): SafeCall
  {
    if "exclamate" in host then SafeCall(ExecSuccess, Str(host["exclamate"]("hello")))
    else SafeCall(1, Obj(0, "ReferenceError: identifier 'exclamate' undefined"))
  }

  /** The example API object's one entry. */
  function ExampleApi(): seq<Property>
  {
    [Property(JsString("exclamate"), JsFunction(Exclamate, []))]
  }

  /**
   * A script whose `test` returns `exclamate('hello')`, run with the API
   * `{exclamate: p => p + "!"}`, yields "hello!".
   */
  lemma ApiCallbackReachesScript(eval: (string, Host) -> SafeCall, encode: Value -> SafeCall, script: string)
    requires forall h :: eval(CStr(script), h).rc == ExecSuccess
    ensures RunSyncSpec([JsString("test"), JsString(""), JsString(script), JsObject(ExampleApi())],
                        Engine(eval, CallsExclamate, encode))
      == Returned("hello!")
  {
    var args := [JsString("test"), JsString(""), JsString(script), JsObject(ExampleApi())];
    var engine := Engine(eval, CallsExclamate, encode);
    assert CheckArgs(args).None? && Arg(args, 3) == JsObject(ExampleApi()) && ApiValid(ExampleApi());
    ExampleTable();
    ExampleRun(eval, encode, script);
  }

  /** Registering the example API gives the table `{exclamate: Exclamate}`. */
  lemma ExampleTable()
    ensures ApiValid(ExampleApi()) && ApiTable(ExampleApi()) == map["exclamate" := Exclamate]
  {
    assert ExampleApi()[..0] == [];
    assert '\0' !in "exclamate";
  }

  /** The example script run against trampolines over `{exclamate: Exclamate}` returns "hello!". */
  lemma ExampleRun(eval: (string, Host) -> SafeCall, encode: Value -> SafeCall, script: string)
    requires forall h :: eval(CStr(script), h).rc == ExecSuccess
    ensures RunSpec(Engine(eval, CallsExclamate, encode), Trampolines(map["exclamate" := Exclamate]), "test", "", script)
      == Result(0, "hello!")
  {
    var host := Trampolines(map["exclamate" := Exclamate]);
    ExampleHostAnswers();
    assert CallsExclamate(CStr(script), CStr("test"), CStr(""), host) == SafeCall(ExecSuccess, Str("hello!"));
    ExampleSerialise(encode);
  }

  /** "hello!" holds no NUL, so it is returned whole. */
  lemma ExampleSerialise(encode: Value -> SafeCall)
    ensures Serialise(Str("hello!"), encode) == Result(0, "hello!")
  {
    ExclamateHello();
  }

  /** The trampoline over `Exclamate` answers "hello!" to "hello". */
  lemma ExampleHostAnswers()
    ensures Trampolines(map["exclamate" := Exclamate])["exclamate"]("hello") == "hello!"
  {
    ExclamateHello();
    TrampolinesPassCStrings(map["exclamate" := Exclamate], "exclamate", "hello");
  }

  /** The example texts hold no NUL, and `Exclamate` appends the bang. */
  lemma ExclamateHello()
    ensures '\0' !in "hello" && Exclamate("hello") == "hello!" && '\0' !in "hello!"
  {
  }
}
