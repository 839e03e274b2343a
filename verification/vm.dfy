/**
 * The engine wrapper: one scripting-engine heap, its registration in the
 * callback cache, the trampolines installed for host callbacks, and the
 * eval -> call -> serialise pipeline of `run`.
 *
 * The engine itself is an oracle.  Every protected engine call reports what
 * `duk_safe_call` reports: a return code (0 on success) and the value left on
 * top of the value stack (the result, or the error object on failure).
 */
module Vm {
  import opened Registry

  /**
   * A value on the engine's value stack, by type.  Where the engine alone
   * decides a value's string coercion (number formatting, an object's
   * toString, a function's source), the value carries that text.
   */
  datatype Value =
    | Bool(b: bool)
    | Num(text: string)
    | Str(s: string)
    | Obj(id: nat, text: string)   // an object that is neither a function nor null; `id` is its identity
    | Func(text: string)
    | Null
    | Undefined
    | Other(text: string)     // buffers, pointers, light functions

  /**
   * The engine's string coercion of a value (`duk_to_string`): a string is
   * itself, booleans, null and undefined are their keywords, and everything
   * else is the text the engine gives it.
   */
  function ToText(v: Value): (r: string)
    ensures v.Str? ==> r == v.s
    ensures v.Bool? ==> r == if v.b then "true" else "false"
    ensures v.Null? ==> r == "null"
    ensures v.Undefined? ==> r == "undefined"
    ensures v.Num? || v.Obj? || v.Func? || v.Other? ==> r == v.text
  {
    match v
    case Bool(b) => if b then "true" else "false"
    case Num(t) => t
    case Str(s) => s
    case Obj(_, t) => t
    case Func(t) => t
    case Null => "null"
    case Undefined => "undefined"
    case Other(t) => t
  }

  /**
   * The `std::string` built from a C string (`const char*`) holding `s`: the
   * prefix before the first NUL.  Every string crossing between the engine and
   * the host through `c_str()` or a `const char*` is cut this way.
   */
  function CStr(s: string): (r: string)
    ensures '\0' !in r
    ensures '\0' !in s ==> r == s
  {
    NulFreeUpTo(s);
    s[..NulAt(s)]
  }

  /** Where `strlen` stops on `s`: the index of its first NUL, or its length. */
  function NulAt(s: string): (k: nat)
    ensures k <= |s|
    ensures k < |s| ==> s[k] == '\0'
  {
    if s == [] || s[0] == '\0' then 0 else 1 + NulAt(s[1..])
  }

  /** No NUL comes before `NulAt(s)`. */
  lemma {:induction false} NulFreeUpTo(s: string)
    ensures '\0' !in s[..NulAt(s)]
  {
    if s != [] && s[0] != '\0' {
      NulFreeUpTo(s[1..]);
      assert s[..NulAt(s)] == [s[0]] + s[1..][..NulAt(s[1..])];
    }
  }

  /** The C string of `s` is the prefix of `s` that stops just before its first NUL. */
  lemma CStrCutsAtFirstNul(s: string)
    ensures CStr(s) <= s
    ensures '\0' in s ==> |CStr(s)| < |s| && s[|CStr(s)|] == '\0'
  {
  }

  /** What one protected engine call reports: its return code and the value it leaves on top. */
  datatype SafeCall = SafeCall(rc: int, top: Value)

  /** The return code of a protected call that did not throw. */
  const ExecSuccess := 0

  /** What script code sees of the host: each global host function, as a string-to-string closure. */
  type Host = map<string, Callback>

  /**
   * The engine as an oracle.  `eval(script, host)` evaluates a script in a fresh
   * heap whose globals include `host`; `call(script, name, parameter, host)` then
   * calls the global `name` with one string argument; `encode(v)` JSON-encodes a
   * value.  Every string reaches the engine as a C string.
   */
  datatype Engine = Engine(
    eval: (string, Host) -> SafeCall,
    call: (string, string, string, Host) -> SafeCall,
    encode: Value -> SafeCall)

  /** The outcome of `run`: errorCode 0 on success; `value` holds the result or the error text. */
  datatype Result = Result(errorCode: int, value: string)

  /** A freshly constructed result: errorCode 0 and an empty value. */
  const DefaultResult := Result(0, "")

  /** The result built at the error exit of `run` from a failed protected call. */
  function ErrorResult(c: SafeCall): (r: Result)
    requires c.rc != ExecSuccess
    ensures r.errorCode != 0 && r.errorCode == c.rc
    ensures r.value == CStr(ToText(c.top))
    ensures '\0' !in ToText(c.top) ==> r.value == ToText(c.top)
  {
    Result(c.rc, CStr(ToText(c.top)))
  }

  /** A type whose value `run` returns as its string coercion. */
  predicate IsPrimitive(v: Value)
  {
    v.Bool? || v.Num? || v.Str?
  }

  /**
   * How `run` turns the function's return value into its result: a boolean,
   * number or string becomes its string form, a non-null, non-function object
   * its JSON text (or the encoder's error), anything else "".  Each text is
   * read back as a C string.
   */
  function Serialise(top: Value, encode: Value -> SafeCall): (r: Result)
    ensures r.errorCode != 0 <==> top.Obj? && encode(top).rc != ExecSuccess
    ensures IsPrimitive(top) ==> r == Result(0, CStr(ToText(top)))
    ensures top.Obj? ==> r == Result(encode(top).rc, CStr(ToText(encode(top).top)))
    ensures !IsPrimitive(top) && !top.Obj? ==> r == DefaultResult
    ensures '\0' !in r.value
  {
    match top
    case Bool(_) => Result(0, CStr(ToText(top)))
    case Num(_) => Result(0, CStr(ToText(top)))
    case Str(_) => Result(0, CStr(ToText(top)))
    case Obj(_, _) =>
      var json := encode(top);
      if json.rc != ExecSuccess then ErrorResult(json) else Result(0, CStr(ToText(json.top)))
    case _ => DefaultResult
  }

  /**
   * The result of `run(name, parameter, script)` on an engine whose globals
   * include `host`; the three strings reach the engine as C strings.
   */
  function RunSpec(e: Engine, host: Host, name: string, parameter: string, script: string): (r: Result)
    ensures var evaluated := e.eval(CStr(script), host);
      evaluated.rc != ExecSuccess ==> r == ErrorResult(evaluated)
    ensures var called := e.call(CStr(script), CStr(name), CStr(parameter), host);
      e.eval(CStr(script), host).rc == ExecSuccess && called.rc != ExecSuccess ==> r == ErrorResult(called)
    ensures var called := e.call(CStr(script), CStr(name), CStr(parameter), host);
      r.errorCode != 0 <==>
        || e.eval(CStr(script), host).rc != ExecSuccess
        || called.rc != ExecSuccess
        || (called.top.Obj? && e.encode(called.top).rc != ExecSuccess)
    ensures '\0' !in r.value
  {
    var evaluated := e.eval(CStr(script), host);
    if evaluated.rc != ExecSuccess then ErrorResult(evaluated)
    else
      var called := e.call(CStr(script), CStr(name), CStr(parameter), host);
      if called.rc != ExecSuccess then ErrorResult(called)
      else Serialise(called.top, e.encode)
  }

  /** A run already given C strings is the run on the original texts: reading them as C strings twice changes nothing. */
  lemma RunSpecOnCStrings(e: Engine, host: Host, name: string, parameter: string, script: string)
    ensures RunSpec(e, host, CStr(name), CStr(parameter), CStr(script)) == RunSpec(e, host, name, parameter, script)
  {
    assert CStr(CStr(name)) == CStr(name) && CStr(CStr(parameter)) == CStr(parameter);
    assert CStr(CStr(script)) == CStr(script);
  }

  /**
   * What a trampoline makes of closure `f`: the argument's text is read as a C
   * string before `f` sees it, and `f`'s answer is pushed back as a C string.
   */
  function Trampoline(f: Callback): (g: Callback)
    ensures forall p :: g(p) == CStr(f(CStr(p)))
  {
    p => CStr(f(CStr(p)))
  }

  /**
   * What script code sees of the host in a heap whose globals `globals` hold
   * trampolines: each one carries its own name as `__callbackName` and
   * dispatches through the cache under that name.
   */
  function HostView(t: Table, ctx: Context, globals: set<string>): (h: Host)
    ensures h.Keys == globals
    ensures forall n, p :: n in globals ==> h[n](p) == CStr(Invoke(t, ctx, n, CStr(p)))
    ensures forall n, p :: n in globals ==> '\0' !in h[n](p)
  {
    map n | n in globals :: Trampoline(Dispatch(t, ctx, n))
  }

  /** What script code sees when the globals are the names of `entries`, each a trampoline over its closure. */
  function Trampolines(entries: Entries): (h: Host)
    ensures h.Keys == entries.Keys
    ensures forall n, p :: n in entries ==> h[n](p) == CStr(entries[n](CStr(p)))
  {
    map n | n in entries :: Trampoline(entries[n])
  }

  /** Text with no NUL, answered with text with no NUL, passes through a trampoline unchanged. */
  lemma TrampolinesPassCStrings(entries: Entries, n: string, p: string)
    requires n in entries && '\0' !in p && '\0' !in entries[n](p)
    ensures n in Trampolines(entries) && Trampolines(entries)[n](p) == entries[n](p)
  {
  }

  /**
   * The trampoline every host global runs: the callback name is the text of the
   * function's `__callbackName` property, its one argument is coerced to a
   * string, and the cache's answer is returned to the script as a string; each
   * of the three passes through a C string.
   */
  method CallbackHandler(cache: CallbackCache, ctx: Context, callbackName: string, arg: Value)
    returns (ret: Value)
    ensures ret.Str? && '\0' !in ret.s
    ensures var name, parameter := CStr(callbackName), CStr(ToText(arg));
      ctx in cache.table && name in cache.table[ctx] ==> ret.s == CStr(cache.table[ctx][name](parameter))
    ensures var name := CStr(callbackName);
      !(ctx in cache.table && name in cache.table[ctx]) ==> ret == Str("")
    ensures '\0' !in callbackName ==> ret.s == HostView(cache.table, ctx, {callbackName})[callbackName](ToText(arg))
  {
    var name := CStr(callbackName);
    var parameter := CStr(ToText(arg));
    var retVal := cache.DoCallback(ctx, name, parameter);
    ret := Str(CStr(retVal));
  }

  class DuktapeVM {
    const ctx: Context
    const cache: CallbackCache
    /** The names of the globals holding a trampoline (each with its own name as `__callbackName`). */
    var globals: set<string>

    /** Creates a heap and registers its context in the cache. */
    constructor (cache: CallbackCache)
      modifies cache
      ensures this.cache == cache && fresh(ctx) && ctx.live && globals == {}
      ensures ctx !in old(cache.table)
      ensures cache.table == old(cache.table)[ctx := map[]]
    {
      var heap := new Context();
      this.ctx := heap;
      this.cache := cache;
      globals := {};
      new;
      cache.RegisterContext(heap);
    }

    /** Unregisters the context, and only then destroys the heap. */
    method Destroy()
      requires ctx.live
      modifies cache, ctx
      ensures cache.table == Unregistered(old(cache.table), ctx)
      ensures ctx !in cache.table && !ctx.live
    {
      cache.UnregisterContext(ctx);
      ctx.live := false;
    }

    /**
     * Installs a trampoline as the global named by `name` read as a C string
     * (its `__callbackName` is that same text) and stores `cb` in the cache under
     * the whole `name` (first wins).
     */
    method RegisterCallback(name: string, cb: Callback)
      modifies this, cache
      ensures globals == old(globals) + {CStr(name)}
      ensures cache.table == Added(old(cache.table), ctx, name, cb)
    {
      globals := globals + {CStr(name)};
      cache.AddCallback(ctx, name, cb);
    }

    /** Evaluates `script`, calls global `name` with `parameter`, and serialises what it returns. */
    method Run(name: string, parameter: string, script: string, engine: Engine) returns (res: Result)
      ensures res == RunSpec(engine, HostView(cache.table, ctx, globals), name, parameter, script)
    {
      var host := HostView(cache.table, ctx, globals);
      res := DefaultResult;
      var rc := ExecSuccess;
      var top: Value;
      label steps: {
        // Eval script
        var evaluated := engine.eval(CStr(script), host);
        rc, top := evaluated.rc, evaluated.top;
        if rc != ExecSuccess {
          break steps;
        }
        // Call the function
        var called := engine.call(CStr(script), CStr(name), CStr(parameter), host);
        rc, top := called.rc, called.top;
        if rc != ExecSuccess {
          break steps;
        }
        // Serialise the output
        if IsPrimitive(top) {
          res := res.(value := CStr(ToText(top)));
        } else if top.Obj? {
          var json := engine.encode(top);
          rc, top := json.rc, json.top;
          if rc != ExecSuccess {
            break steps;
          }
          res := res.(value := CStr(ToText(top)));
        } else {
          res := res.(value := "");
        }
        return;
      }
      // The error exit: the error object's text and the return code.
      res := res.(value := CStr(ToText(top)), errorCode := rc);
    }
  }

  /** When evaluation fails, the function is never called: the result does not depend on `call` or `encode`. */
  lemma EvalFailureSkipsCall(e1: Engine, e2: Engine, host: Host, name: string, parameter: string, script: string)
    requires e1.eval(CStr(script), host) == e2.eval(CStr(script), host)
    requires e1.eval(CStr(script), host).rc != ExecSuccess
    ensures RunSpec(e1, host, name, parameter, script) == RunSpec(e2, host, name, parameter, script)
    ensures RunSpec(e1, host, name, parameter, script).errorCode == e1.eval(CStr(script), host).rc
  {
  }

  /** When the call fails (a missing or non-callable global included), nothing is serialised. */
  lemma CallFailureSkipsSerialise(e1: Engine, e2: Engine, host: Host, name: string, parameter: string, script: string)
    requires e1.eval(CStr(script), host) == e2.eval(CStr(script), host)
    requires e1.call(CStr(script), CStr(name), CStr(parameter), host)
          == e2.call(CStr(script), CStr(name), CStr(parameter), host)
    requires e1.eval(CStr(script), host).rc == ExecSuccess
    requires e1.call(CStr(script), CStr(name), CStr(parameter), host).rc != ExecSuccess
    ensures RunSpec(e1, host, name, parameter, script) == RunSpec(e2, host, name, parameter, script)
  {
  }

  /**
   * A function that returns its parameter unchanged gives back the parameter as
   * far as its first NUL, so exactly the parameter when it holds none.
   */
  lemma EchoRoundTrip(e: Engine, host: Host, name: string, parameter: string, script: string)
    requires e.eval(CStr(script), host).rc == ExecSuccess
    requires e.call(CStr(script), CStr(name), CStr(parameter), host) == SafeCall(ExecSuccess, Str(CStr(parameter)))
    ensures RunSpec(e, host, name, parameter, script) == Result(0, CStr(parameter))
    ensures '\0' !in parameter ==> RunSpec(e, host, name, parameter, script) == Result(0, parameter)
  {
  }

  /** A returned string holding a NUL comes back cut before it: `'a\u0000b'` gives "a". */
  lemma NulCutsResult(encode: Value -> SafeCall)
    ensures Serialise(Str("a\0b"), encode) == Result(0, "a")
  {
    assert CStr("a\0b") == ['a'] + CStr("\0b");
  }

  /** On success the error code keeps the value a new result starts with. */
  lemma SuccessKeepsDefaultCode(e: Engine, host: Host, name: string, parameter: string, script: string)
    requires e.eval(CStr(script), host).rc == ExecSuccess
    requires var called := e.call(CStr(script), CStr(name), CStr(parameter), host);
      called.rc == ExecSuccess && !(called.top.Obj? && e.encode(called.top).rc != ExecSuccess)
    ensures RunSpec(e, host, name, parameter, script).errorCode == DefaultResult.errorCode
  {
  }

  /**
   * A trampoline installed under a NUL-free `name` passes its argument's text to
   * the closure stored under `name`, and a second registration under the same
   * name keeps the first closure.
   */
  lemma RegisteredNameDispatches(t: Table, ctx: Context, globals: set<string>,
                                 name: string, cb1: Callback, cb2: Callback, arg: Value)
    requires ctx in t && name !in t[ctx] && '\0' !in name
    ensures var h := HostView(Added(t, ctx, name, cb1), ctx, globals + {CStr(name)});
      name in h && h[name](ToText(arg)) == CStr(cb1(CStr(ToText(arg))))
    ensures var t2 := Added(Added(t, ctx, name, cb1), ctx, name, cb2);
      var h := HostView(t2, ctx, globals + {CStr(name)} + {CStr(name)});
      h[name](ToText(arg)) == CStr(cb1(CStr(ToText(arg))))
  {
    assert CStr(name) == name;
    var t1 := Added(t, ctx, name, cb1);
    AddFirstWins(t, ctx, name, cb1, cb2);
    assert globals + {name} + {name} == globals + {name};
    var h := HostView(t1, ctx, globals + {name});
    assert h[name](ToText(arg)) == CStr(Invoke(t1, ctx, name, CStr(ToText(arg))));
  }

  /**
   * A name holding a NUL is stored whole in the cache, but its global and its
   * `__callbackName` are cut before the NUL, so in a context that holds nothing
   * under the cut name a script calling that global reaches no closure and
   * gets "".
   */
  lemma NulNameUnreachable(t: Table, ctx: Context, name: string, cb: Callback, p: string)
    requires ctx in t && CStr(name) !in t[ctx] && '\0' in name
    ensures var h := HostView(Added(t, ctx, name, cb), ctx, {CStr(name)});
      CStr(name) in h && h[CStr(name)](p) == ""
  {
    var t1 := Added(t, ctx, name, cb);
    assert CStr(name) != name;
    assert CStr(name) !in t1[ctx];
    var h := HostView(t1, ctx, {CStr(name)});
    assert h[CStr(name)](p) == CStr(Invoke(t1, ctx, CStr(name), CStr(p)));
  }
}
