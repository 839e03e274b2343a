/**
 * The host-side arguments of the two entry points, abstracted to their kinds,
 * the outcome an entry point reports to its caller, and the loop, common to
 * both entry points, that installs the API object's functions in a VM.
 */
module HostArgs {
  import opened Registry
  import opened Vm

  datatype Option<T> = None | Some(value: T)

  /**
   * A host (JavaScript) argument.  A function is known by the string-to-string
   * behaviour it shows when called with one string and its result converted to
   * a string; functions and plain objects carry their enumerable properties in
   * property order.
   */
  datatype JsValue =
    | JsString(s: string)
    | JsNumber
    | JsBoolean
    | JsFunction(call: Callback, props: seq<Property>)
    | JsObject(props: seq<Property>)
    | JsNull
    | JsUndefined

  /** One enumerable property of an object: its key (a string, or a number for an index) and its value. */
  datatype Property = Property(key: JsValue, value: JsValue)

  datatype ErrorKind = TypeError | Error

  /** What an entry point hands back to its caller: a string, undefined, or a thrown error. */
  datatype Outcome =
    | Returned(value: string)
    | ReturnedUndefined
    | Threw(kind: ErrorKind, message: string)

  const WrongNumberOfArguments := "Wrong number of arguments"
  const WrongArguments := "Wrong arguments"
  const ApiDefinitionError := "Error in API-definition"

  /** Argument `i`, or undefined past the end of the argument list. */
  function Arg(args: seq<JsValue>, i: nat): (v: JsValue)
    ensures i >= |args| ==> v == JsUndefined
    ensures i < |args| ==> v == args[i]
  {
    if i < |args| then args[i] else JsUndefined
  }

  predicate IsObject(v: JsValue)
  {
    v.JsObject? || v.JsFunction?
  }

  /** The API object's properties, or none when the argument is not an object. */
  function ApiProps(v: JsValue): (props: seq<Property>)
    ensures IsObject(v) ==> props == v.props
    ensures !IsObject(v) ==> props == []
  {
    if IsObject(v) then v.props else []
  }

  /** An API entry has a string key and a function value; anything else is an API-definition error. */
  predicate ValidEntry(p: Property)
    ensures ValidEntry(p) <==> p.key.JsString? && p.value.JsFunction?
  {
    p.key.JsString? && p.value.JsFunction?
  }

  predicate ApiValid(props: seq<Property>)
  {
    forall i :: 0 <= i < |props| ==> ValidEntry(props[i])
  }

  /** The index of the first entry the loop rejects, or |props| when there is none. */
  function FirstInvalid(props: seq<Property>): (k: nat)
    ensures k <= |props|
    ensures forall i :: 0 <= i < k ==> ValidEntry(props[i])
    ensures k < |props| ==> !ValidEntry(props[k])
    ensures k == |props| <==> ApiValid(props)
    ensures ApiValid(props[..k])
  {
    if |props| == 0 then 0
    else if !ValidEntry(props[0]) then 0
    else 1 + FirstInvalid(props[1..])
  }

  /** The names of a sequence of API entries, each read as a C string. */
  function KeysOf(props: seq<Property>): (names: set<string>)
    requires ApiValid(props)
  {
    set i | 0 <= i < |props| :: CStr(props[i].key.s)
  }

  /**
   * The callback table that registering `props` one by one, first registration
   * winning, builds; each key reaches the VM as a C string.
   */
  function ApiTable(props: seq<Property>): (r: Entries)
    requires ApiValid(props)
    ensures r.Keys == KeysOf(props)
  {
    if props == [] then map[]
    else
      var last := props[|props| - 1];
      var r := AddFirst(ApiTable(props[..|props| - 1]), CStr(last.key.s), last.value.call);
      assert KeysOf(props) == KeysOf(props[..|props| - 1]) + {CStr(last.key.s)} by {
        forall n | n in KeysOf(props) ensures n in KeysOf(props[..|props| - 1]) + {CStr(last.key.s)} {
          var i :| 0 <= i < |props| && CStr(props[i].key.s) == n;
          if i < |props| - 1 {
            assert props[..|props| - 1][i] == props[i];
          }
        }
      }
      r
  }

  /** The functions an API loop keeps a handle on, in order. */
  function ValuesOf(props: seq<Property>): (vs: seq<JsValue>)
    ensures |vs| == |props|
    ensures forall i :: 0 <= i < |props| ==> vs[i] == props[i].value
  {
    seq(|props|, i requires 0 <= i < |props| => props[i].value)
  }

  /**
   * An API entry is served by the first entry with the same name: a later
   * entry under a name already taken changes nothing.
   */
  lemma {:induction false} ApiTableFirstWins(props: seq<Property>, i: nat)
    requires ApiValid(props) && i < |props|
    requires forall j :: 0 <= j < i ==> CStr(props[j].key.s) != CStr(props[i].key.s)
    ensures CStr(props[i].key.s) in ApiTable(props)
    ensures ApiTable(props)[CStr(props[i].key.s)] == props[i].value.call
  {
    var init := props[..|props| - 1];
    if i < |props| - 1 {
      assert init[i] == props[i];
      forall j | 0 <= j < i ensures CStr(init[j].key.s) != CStr(init[i].key.s) {
        assert init[j] == props[j];
      }
      ApiTableFirstWins(init, i);
    }
  }

  /** In a heap whose only host globals are the API's names, script code sees a trampoline over each API closure. */
  lemma HostOfApi(t: Table, ctx: Context, entries: Entries)
    requires ctx in t && t[ctx] == entries
    ensures HostView(t, ctx, entries.Keys) == Trampolines(entries)
  {
    var h := HostView(t, ctx, entries.Keys);
    forall n | n in entries ensures h[n] == Trampolines(entries)[n] {
      assert Dispatch(t, ctx, n) == entries[n];
    }
  }

  /**
   * The API loop of both entry points: each entry in property order is
   * checked (string key, function value) and, if it passes, its function is
   * kept and registered in the VM under its key read as a C string; the first failing entry stops
   * the loop with `ok == false`, leaving the entries before it registered.
   */
  method InstallApi(vm: DuktapeVM, props: seq<Property>) returns (ok: bool, kept: seq<JsValue>)
    requires vm.ctx in vm.cache.table && vm.cache.table[vm.ctx] == map[] && vm.globals == {}
    modifies vm, vm.cache
    ensures ok == ApiValid(props)
    ensures var k := FirstInvalid(props);
      && kept == ValuesOf(props[..k])
      && vm.cache.table == old(vm.cache.table)[vm.ctx := ApiTable(props[..k])]
      && vm.globals == ApiTable(props[..k]).Keys
  {
    kept := [];
    var i := 0;
    assert old(vm.cache.table)[vm.ctx := ApiTable(props[..0])] == old(vm.cache.table);
    while i < |props|
      invariant 0 <= i <= |props|
      invariant ApiValid(props[..i])
      invariant kept == ValuesOf(props[..i])
      invariant vm.cache.table == old(vm.cache.table)[vm.ctx := ApiTable(props[..i])]
      invariant vm.globals == ApiTable(props[..i]).Keys
    {
      var key, value := props[i].key, props[i].value;
      if !key.JsString? || !value.JsFunction? {
        FirstInvalidAt(props, i);
        return false, kept;
      }
      kept := kept + [value];
      var name := CStr(key.s);
      assert CStr(name) == name;
      AddedAfterSet(old(vm.cache.table), vm.ctx, ApiTable(props[..i]), name, value.call);
      vm.RegisterCallback(name, value.call);
      ValidSnoc(props, i);
      TableSnoc(props, i);
      ValuesSnoc(props, i);
      i := i + 1;
    }
    assert props[..i] == props;
    ok := true;
  }

  lemma ValuesSnoc(props: seq<Property>, i: nat)
    requires i < |props|
    ensures ValuesOf(props[..i + 1]) == ValuesOf(props[..i]) + [props[i].value]
  {
  }

  lemma ValidSnoc(props: seq<Property>, i: nat)
    requires i < |props| && ApiValid(props[..i]) && ValidEntry(props[i])
    ensures ApiValid(props[..i + 1])
  {
  }

  lemma TableSnoc(props: seq<Property>, i: nat)
    requires i < |props| && ApiValid(props[..i + 1])
    ensures ApiTable(props[..i + 1]) == AddFirst(ApiTable(props[..i]), CStr(props[i].key.s), props[i].value.call)
  {
    assert props[..i + 1][..i] == props[..i];
  }

  lemma FirstInvalidAt(props: seq<Property>, i: nat)
    requires i < |props| && ApiValid(props[..i]) && !ValidEntry(props[i])
    ensures FirstInvalid(props) == i
  {
  }
}
