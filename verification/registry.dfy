/**
 * The process-wide callback cache: execution context -> (callback name -> closure).
 *
 * A `Context` stands for one scripting-engine heap (`duk_context*`); its object
 * identity plays the part of the pointer used as the key.  The cache is a class
 * whose one field, `table`, the operations reassign, as the source updates its
 * map in place.  Every operation is specified by a pure function on tables, and
 * the lemmas at the end relate several operations.
 */
module Registry {

  /** A host closure taking and returning a string. */
  type Callback = string -> string

  /** One scripting-engine heap; `live` is false once the heap is destroyed. */
  class Context {
    var live: bool

    constructor ()
      ensures live
    {
      live := true;
    }
  }

  /** The callbacks registered for one context, by name. */
  type Entries = map<string, Callback>

  /** The whole cache: one entry table per registered context. */
  type Table = map<Context, Entries>

  /** `entries` with `name` bound to `cb`, unless `name` is already bound (first registration wins). */
  function AddFirst(entries: Entries, name: string, cb: Callback): (r: Entries)
    ensures r.Keys == entries.Keys + {name}
    ensures name in entries ==> r[name] == entries[name]
    ensures name !in entries ==> r[name] == cb
    ensures forall n :: n in entries ==> r[n] == entries[n]
  {
    if name in entries then entries else entries[name := cb]
  }

  /** The table after `registerContext(ctx)`. */
  function Registered(t: Table, ctx: Context): (r: Table)
    ensures r.Keys == t.Keys + {ctx}
    ensures r[ctx] == if ctx in t then t[ctx] else map[]
    ensures forall c :: c in t ==> r[c] == t[c]
  {
    if ctx in t then t else t[ctx := map[]]
  }

  /** The table after `unregisterContext(ctx)`. */
  function Unregistered(t: Table, ctx: Context): (r: Table)
    ensures r.Keys == t.Keys - {ctx}
    ensures forall c :: c in r ==> r[c] == t[c]
  {
    if ctx in t then t - {ctx} else t
  }

  /** The table after `addCallback(ctx, name, cb)`. */
  function Added(t: Table, ctx: Context, name: string, cb: Callback): (r: Table)
    ensures r.Keys == t.Keys
    ensures ctx in t ==> r[ctx] == AddFirst(t[ctx], name, cb)
    ensures forall c :: c in t && c != ctx ==> r[c] == t[c]
    ensures ctx !in t ==> r == t
  {
    if ctx in t then t[ctx := AddFirst(t[ctx], name, cb)] else t
  }

  /** The closure `doCallback(ctx, name, _)` runs: the registered one, or one that yields "". */
  function Dispatch(t: Table, ctx: Context, name: string): (f: Callback)
    ensures ctx in t && name in t[ctx] ==> f == t[ctx][name]
    ensures !(ctx in t && name in t[ctx]) ==> forall p :: f(p) == ""
  {
    if ctx in t && name in t[ctx] then t[ctx][name] else _ => ""
  }

  /** The string `doCallback(ctx, name, parameter)` returns. */
  function Invoke(t: Table, ctx: Context, name: string, parameter: string): (r: string)
    ensures ctx in t && name in t[ctx] ==> r == t[ctx][name](parameter)
    ensures ctx !in t ==> r == ""
    ensures ctx in t && name !in t[ctx] ==> r == ""
  {
    Dispatch(t, ctx, name)(parameter)
  }

  class CallbackCache {
    var table: Table

    constructor ()
      ensures table == map[]
    {
      table := map[];
    }

    /** Gives `ctx` an empty entry table unless it already has one. */
    method RegisterContext(ctx: Context)
      modifies this
      ensures table == Registered(old(table), ctx)
    {
      if ctx !in table {
        table := table[ctx := map[]];
      }
    }

    /** Drops `ctx` and its entry table, if present. */
    method UnregisterContext(ctx: Context)
      modifies this
      ensures table == Unregistered(old(table), ctx)
    {
      if ctx in table {
        table := table - {ctx};
      }
    }

    /** Stores `name -> cb` for a known `ctx` whose table does not hold `name` yet. */
    method AddCallback(ctx: Context, name: string, cb: Callback)
      modifies this
      ensures table == Added(old(table), ctx, name, cb)
    {
      if ctx in table {
        var entries := table[ctx];
        if name !in entries {
          table := table[ctx := entries[name := cb]];
        }
      }
    }

    /** Runs the closure registered for `ctx` and `name` on `parameter`; "" if there is none. */
    method DoCallback(ctx: Context, name: string, parameter: string) returns (r: string)
      ensures r == Invoke(table, ctx, name, parameter)
      ensures ctx in table && name in table[ctx] ==> r == table[ctx][name](parameter)
      ensures !(ctx in table && name in table[ctx]) ==> r == ""
    {
      r := "";
      if ctx in table {
        var entries := table[ctx];
        if name in entries {
          r := entries[name](parameter);
        }
      }
    }
  }

  /** registerContext is idempotent. */
  lemma RegisterIdempotent(t: Table, ctx: Context)
    ensures Registered(Registered(t, ctx), ctx) == Registered(t, ctx)
  {
  }

  /** After unregisterContext(ctx), every call through ctx yields "". */
  lemma InvokeAfterUnregister(t: Table, ctx: Context, name: string, parameter: string)
    ensures Invoke(Unregistered(t, ctx), ctx, name, parameter) == ""
  {
  }

  /** After registering ctx and adding name -> cb, a call through (ctx, name) runs the first closure stored under name. */
  lemma InvokeAfterAdd(t: Table, ctx: Context, name: string, cb: Callback, parameter: string)
    ensures var t' := Added(Registered(t, ctx), ctx, name, cb);
      Invoke(t', ctx, name, parameter)
        == if ctx in t && name in t[ctx] then t[ctx][name](parameter) else cb(parameter)
  {
  }

  /** A second addCallback under the same name changes nothing. */
  lemma AddFirstWins(t: Table, ctx: Context, name: string, cb1: Callback, cb2: Callback)
    ensures Added(Added(t, ctx, name, cb1), ctx, name, cb2) == Added(t, ctx, name, cb1)
  {
  }

  /** Adding under one name leaves every call under another name as it was. */
  lemma InvokeOtherName(t: Table, ctx: Context, name: string, other: string, cb: Callback, parameter: string)
    requires other != name
    ensures Invoke(Added(t, ctx, name, cb), ctx, other, parameter) == Invoke(t, ctx, other, parameter)
  {
  }

  /** No operation on ctx changes what a call through another context yields. */
  lemma OtherContextsUntouched(t: Table, ctx: Context, other: Context, name: string, cb: Callback,
                               n: string, parameter: string)
    requires other != ctx
    ensures Invoke(Registered(t, ctx), other, n, parameter) == Invoke(t, other, n, parameter)
    ensures Invoke(Unregistered(t, ctx), other, n, parameter) == Invoke(t, other, n, parameter)
    ensures Invoke(Added(t, ctx, name, cb), other, n, parameter) == Invoke(t, other, n, parameter)
  {
  }

  /** Adding to a context whose table was just set to `entries` sets it to `entries` with the addition. */
  lemma AddedAfterSet(t: Table, ctx: Context, entries: Entries, name: string, cb: Callback)
    ensures Added(t[ctx := entries], ctx, name, cb) == t[ctx := AddFirst(entries, name, cb)]
  {
  }

  /**
   * Setting a context's table twice keeps the second: a proof step for
   * filling a context registered empty, kept apart so that the maps'
   * extensionality is argued outside the callers' larger heaps.
   */
  lemma SetTwice(t: Table, ctx: Context, first: Entries, second: Entries)
    ensures t[ctx := first][ctx := second] == t[ctx := second]
  {
  }

  /** Unregistering a context that was added to `t` gives `t` back. */
  lemma UnregisterAfterSet(t: Table, ctx: Context, entries: Entries)
    requires ctx !in t
    ensures Unregistered(t[ctx := entries], ctx) == t
  {
  }
}
