/**
 * Communication between the host's native code and a view's scripts:
 * evaluating a script (`Invoke`), calling a page function by name
 * (`InteropCall`), registering native callbacks (`RegisterJSListener`),
 * installing them into a loaded page (`BindJSCallbacks`), and the native
 * entry point every installed function leads to (`InvokeCppCallback`).
 *
 * A page's global scope is the `globals` map of its engine view. Work the
 * plugin hands to the engine thread runs inline; what the script engine
 * does with a script (its result, or an exception) is a parameter.
 */
module Communication {
  import opened Types
  import opened CoreState
  import Decimal

  // ----- Invoke -----

  /** What an `Invoke` leads to: whether the script was evaluated, and what the callback (if any) received. */
  datatype InvokeOutcome = InvokeOutcome(evaluated: bool, callbackArg: Option<string>)

  /**
   * `Invoke`: an unknown view answers `""` straight away. A known view
   * evaluates the script only once it is realized; the callback gets the
   * result, or `""` when there is no engine view or the evaluation throws
   * (`evaluation == None`). Without a callback nothing is answered.
   */
  function Invoke(views: map<ViewId, PrismaView>, viewId: ViewId, hasCallback: bool, evaluation: Option<string>): (o: InvokeOutcome)
    ensures o.callbackArg.Some? <==> hasCallback
    ensures o.evaluated <==> viewId in views && views[viewId].engine.Some?
    ensures hasCallback && o.evaluated && evaluation.Some? ==> o.callbackArg == Some(evaluation.value)
    ensures hasCallback && !(o.evaluated && evaluation.Some?) ==> o.callbackArg == Some("")
  {
    if viewId !in views then
      InvokeOutcome(false, if hasCallback then Some("") else None)
    else
      var evaluated := views[viewId].engine.Some?;
      var result := if evaluated && evaluation.Some? then evaluation.value else "";
      InvokeOutcome(evaluated, if hasCallback then Some(result) else None)
  }

  // ----- InteropCall -----

  datatype InteropOutcome =
    | NotDispatched                       // unknown or unrealized view
    | LookupThrew                         // reading the global raised a script exception
    | NoFunction                          // the global is missing or is not a function
    | Called(target: Global, arg: string) // the global was called with exactly one string argument

  predicate IsFunction(g: Global) {
    g.ScriptFunction? || g.NativeFunction?
  }

  /**
   * `InteropCall`: dispatches only to a realized view; then calls the
   * global `functionName` if, and only if, reading it did not throw and it
   * is a function, with `argument` as its single argument.
   */
  function InteropCall(views: map<ViewId, PrismaView>, viewId: ViewId, functionName: string, argument: string,
                       lookupThrows: bool): (o: InteropOutcome)
    ensures o.NotDispatched? <==> !(viewId in views && views[viewId].engine.Some?)
    ensures o.Called? <==>
      viewId in views && views[viewId].engine.Some? && !lookupThrows &&
      functionName in views[viewId].engine.value.globals && IsFunction(views[viewId].engine.value.globals[functionName])
    ensures o.Called? ==> o.target == views[viewId].engine.value.globals[functionName] && o.arg == argument
    ensures o.LookupThrew? ==> lookupThrows
  {
    if viewId !in views || views[viewId].engine.None? then NotDispatched
    else if lookupThrows then LookupThrew
    else
      var globals := views[viewId].engine.value.globals;
      if functionName in globals && IsFunction(globals[functionName]) then Called(globals[functionName], argument)
      else NoFunction
  }

  // ----- InvokeCppCallback -----

  /** How a native callback finishes. */
  datatype Completion = Returned | ThrewStd(what: string) | ThrewOther

  const UNKNOWN_CALLBACK_ERROR: string := "Unknown error in C++ callback"

  /** What a call into a bound native function does. Every path returns `undefined` to the script. */
  datatype CallbackOutcome =
    | NoData                                                    // the function carries no data object
    | IdRejected(error: Decimal.ParseError)                     // `std::stoull` throws on the id text
    | Dispatched(callback: nat, param: string, scriptError: Option<string>) // the registered callback ran
    | NotFound(message: string)                                 // nothing is registered under (id, name)

  /** The message a script sees when no callback is registered under (`viewId`, `name`). */
  function NotFoundMessage(name: string, viewId: ViewId): (m: string)
    ensures m == "C++ callback not found: " + name + " for view " + Decimal.ToString(viewId)
  {
    "C++ callback not found: " + name + " for view " + Decimal.ToString(viewId)
  }

  /**
   * `InvokeCppCallback`: reads the view id and name back from the
   * function's data, takes the first argument's string (or `""`), looks the
   * callback up at call time and runs it; an exception from the callback
   * becomes the script's error (`what()`, or a fixed message), and a
   * missing entry reports which name and view were asked for. `args` are
   * the arguments' string conversions (`None` where conversion fails).
   */
  function InvokeCppCallback(callbacks: map<(ViewId, string), JSCallbackData>, data: Option<ProxyData>,
                             args: seq<Option<string>>, completion: Completion): (o: CallbackOutcome)
    ensures data.None? <==> o.NoData?
    ensures o.IdRejected? <==> data.Some? && Decimal.Stoull(data.value.viewIdText).Failed?
    ensures data.Some? && Decimal.Stoull(data.value.viewIdText).Parsed? ==>
      var key := (Decimal.Stoull(data.value.viewIdText).value, data.value.name);
      (key in callbacks <==> o.Dispatched?) &&
      (o.Dispatched? ==> o.callback == callbacks[key].callback &&
                         o.param == (if |args| > 0 && args[0].Some? then args[0].value else "") &&
                         (o.scriptError.None? <==> completion.Returned?) &&
                         (completion.ThrewStd? ==> o.scriptError == Some(completion.what)) &&
                         (completion.ThrewOther? ==> o.scriptError == Some(UNKNOWN_CALLBACK_ERROR))) &&
      (o.NotFound? ==> o.message == NotFoundMessage(key.1, key.0))
  {
    if data.None? then NoData
    else
      var parsed := Decimal.Stoull(data.value.viewIdText);
      if parsed.Failed? then IdRejected(parsed.error)
      else
        var key := (parsed.value, data.value.name);
        var param := if |args| > 0 && args[0].Some? then args[0].value else "";
        if key in callbacks then
          var scriptError := match completion
            case Returned => None
            case ThrewStd(what) => Some(what)
            case ThrewOther => Some(UNKNOWN_CALLBACK_ERROR);
          Dispatched(callbacks[key].callback, param, scriptError)
        else NotFound(NotFoundMessage(key.1, key.0))
  }

  // ----- binding -----

  /** The function object `BindJSCallbacks` installs for `name` of view `viewId`. */
  function Proxy(viewId: ViewId, name: string): Global {
    NativeFunction(Some(ProxyData(Decimal.ToString(viewId), name)))
  }

  /** `globals` after installing one proxy per callback registered for `viewId`, under the callback's name. */
  function Bound(globals: map<string, Global>, callbacks: map<(ViewId, string), JSCallbackData>, viewId: ViewId): (g: map<string, Global>)
    ensures forall n :: n in g <==> n in globals || (viewId, n) in callbacks
    ensures forall n :: (viewId, n) in callbacks ==> g[n] == Proxy(viewId, n)
    ensures forall n :: n in globals && (viewId, n) !in callbacks ==> g[n] == globals[n]
  {
    var installed := map k | k in callbacks && k.0 == viewId :: k.1 := Proxy(viewId, k.1);
    assert forall n :: n in installed <==> (viewId, n) in callbacks by {
      forall n | (viewId, n) in callbacks ensures n in installed {
        var k := (viewId, n);
        assert k in callbacks && k.0 == viewId;
      }
    }
    globals + installed
  }

  /** Whether a view can take bindings: realized and done loading. */
  predicate ReadyForBinding(views: map<ViewId, PrismaView>, viewId: ViewId) {
    viewId in views && views[viewId].engine.Some? && views[viewId].isLoadingFinished
  }

  /** The registry entry of `viewId` with `Bound` applied to its page's globals. */
  function WithBindings(views: map<ViewId, PrismaView>, callbacks: map<(ViewId, string), JSCallbackData>, viewId: ViewId): map<ViewId, PrismaView>
    requires ReadyForBinding(views, viewId)
  {
    var v := views[viewId];
    views[viewId := v.(engine := Some(v.engine.value.(globals := Bound(v.engine.value.globals, callbacks, viewId))))]
  }

  /** The names of a list of callback entries. */
  function Names(list: seq<JSCallbackData>): set<string> {
    set d | d in list :: d.name
  }

  /**
   * The collection step of `BindJSCallbacks`: every entry registered for
   * `viewId`, each once (no two entries share a name).
   */
  method CollectCallbacks(r: Registry, viewId: ViewId) returns (list: seq<JSCallbackData>)
    requires r.Valid()
    ensures forall d :: d in list ==> d.viewId == viewId && (viewId, d.name) in r.jsCallbacks && r.jsCallbacks[(viewId, d.name)] == d
    ensures forall n :: n in Names(list) <==> (viewId, n) in r.jsCallbacks
    ensures forall i, j :: 0 <= i < j < |list| ==> list[i].name != list[j].name
  {
    list := [];
    var keys := r.jsCallbacks.Keys;
    while keys != {}
      invariant keys <= r.jsCallbacks.Keys
      invariant forall d :: d in list ==> d.viewId == viewId && (viewId, d.name) in r.jsCallbacks && r.jsCallbacks[(viewId, d.name)] == d
      invariant forall d :: d in list ==> (viewId, d.name) !in keys
      invariant forall i, j :: 0 <= i < j < |list| ==> list[i].name != list[j].name
      invariant forall n :: (viewId, n) in r.jsCallbacks && (viewId, n) !in keys ==> n in Names(list)
      decreases keys
    {
      var k :| k in keys;
      if k.0 == viewId {
        list := list + [r.jsCallbacks[k]];
        assert r.jsCallbacks[k] in list;
      }
      keys := keys - {k};
    }
  }

  /**
   * `BindJSCallbacks`: a view that is unknown, unrealized or still loading
   * is left alone. Otherwise each callback registered for the view is
   * installed as a global function of the page under its name (replacing
   * whatever was there), and no other global changes.
   */
  method BindJSCallbacks(r: Registry, viewId: ViewId)
    requires r.Valid()
    modifies r`views
    ensures r.Valid()
    ensures !ReadyForBinding(old(r.views), viewId) ==> r.views == old(r.views)
    ensures ReadyForBinding(old(r.views), viewId) ==> r.views == WithBindings(old(r.views), r.jsCallbacks, viewId)
  {
    if !ReadyForBinding(r.views, viewId) {
      return;
    }
    var list := CollectCallbacks(r, viewId);
    var v := r.views[viewId];
    var g0 := v.engine.value.globals;
    if list == [] {
      BoundByNames(g0, g0, r.jsCallbacks, viewId, {});
      return;
    }
    var g := InstallProxies(g0, list, viewId);
    BoundByNames(g, g0, r.jsCallbacks, viewId, Names(list));
    SetGlobals(r, viewId, g);
  }

  /** Replaces the page globals of a realized view; nothing else changes. */
  method SetGlobals(r: Registry, viewId: ViewId, g: map<string, Global>)
    requires r.Valid() && viewId in r.views && r.views[viewId].engine.Some?
    modifies r`views
    ensures r.Valid()
    ensures r.views == old(r.views)[viewId := old(r.views)[viewId].(engine := Some(old(r.views)[viewId].engine.value.(globals := g)))]
  {
    var v := r.views[viewId];
    r.views := r.views[viewId := v.(engine := Some(v.engine.value.(globals := g)))];
  }

  /** The binding loop of `BindJSCallbacks`: one proxy per listed entry, under the entry's name. */
  method InstallProxies(g0: map<string, Global>, list: seq<JSCallbackData>, viewId: ViewId) returns (g: map<string, Global>)
    requires forall d :: d in list ==> d.viewId == viewId
    ensures forall n :: n in g <==> n in g0 || n in Names(list)
    ensures forall n :: n in Names(list) ==> g[n] == Proxy(viewId, n)
    ensures forall n :: n in g0 && n !in Names(list) ==> g[n] == g0[n]
  {
    g := g0;
    var i := 0;
    while i < |list|
      invariant 0 <= i <= |list|
      invariant forall n :: n in g <==> n in g0 || n in Names(list[..i])
      invariant forall n :: n in Names(list[..i]) ==> g[n] == Proxy(viewId, n)
      invariant forall n :: n in g0 && n !in Names(list[..i]) ==> g[n] == g0[n]
    {
      var d := list[i];
      assert list[..i + 1] == list[..i] + [d];
      assert Names(list[..i + 1]) == Names(list[..i]) + {d.name};
      g := g[d.name := Proxy(d.viewId, d.name)];
      i := i + 1;
    }
    assert list[..i] == list;
  }

  /** Installing a proxy under each registered name of a view yields `Bound`. */
  lemma BoundByNames(g: map<string, Global>, g0: map<string, Global>, callbacks: map<(ViewId, string), JSCallbackData>,
                     viewId: ViewId, names: set<string>)
    requires forall n :: n in names <==> (viewId, n) in callbacks
    requires forall n :: n in g <==> n in g0 || n in names
    requires forall n :: n in names ==> g[n] == Proxy(viewId, n)
    requires forall n :: n in g0 && n !in names ==> g[n] == g0[n]
    ensures g == Bound(g0, callbacks, viewId)
  {
  }

  /**
   * `RegisterJSListener`: refused for an unknown view. Otherwise the entry
   * under (`viewId`, `name`) is set or replaced, no other entry changes,
   * and a realized view that has finished loading rebinds at once.
   */
  method RegisterJSListener(r: Registry, viewId: ViewId, name: string, callback: nat)
    requires r.Valid()
    modifies r`views, r`jsCallbacks
    ensures r.Valid()
    ensures viewId !in old(r.views) ==> r.views == old(r.views) && r.jsCallbacks == old(r.jsCallbacks)
    ensures viewId in old(r.views) ==> r.jsCallbacks == old(r.jsCallbacks)[(viewId, name) := JSCallbackData(viewId, name, callback)]
    ensures viewId in old(r.views) && !ReadyForBinding(old(r.views), viewId) ==> r.views == old(r.views)
    ensures ReadyForBinding(old(r.views), viewId) ==> r.views == WithBindings(old(r.views), r.jsCallbacks, viewId)
  {
    if viewId !in r.views {
      return;
    }
    r.jsCallbacks := r.jsCallbacks[(viewId, name) := JSCallbackData(viewId, name, callback)];
    if ReadyForBinding(r.views, viewId) {
      BindJSCallbacks(r, viewId);
    }
  }

  // ----- properties across the pieces -----

  /**
   * A page function installed by `BindJSCallbacks` finds its way back: the
   * id text it carries parses to its own view id, so a call to it runs the
   * callback registered under (view id, name) at the time of the call,
   * with the first argument.
   */
  lemma BoundProxyReachesCallback(callbacks: map<(ViewId, string), JSCallbackData>, viewId: ViewId, name: string, arg: string)
    requires (viewId, name) in callbacks
    ensures var o := InvokeCppCallback(callbacks, Proxy(viewId, name).data, [Some(arg)], Returned);
      o == Dispatched(callbacks[(viewId, name)].callback, arg, None)
  {
    Decimal.StoullToString(viewId);
  }

  /**
   * After a callback is unregistered (its view destroyed), a leftover page
   * function reports it as missing, naming the view by its own id.
   */
  lemma StaleProxyReportsMissing(callbacks: map<(ViewId, string), JSCallbackData>, viewId: ViewId, name: string,
                                 args: seq<Option<string>>, completion: Completion)
    requires (viewId, name) !in callbacks
    ensures InvokeCppCallback(callbacks, Proxy(viewId, name).data, args, completion) == NotFound(NotFoundMessage(name, viewId))
  {
    Decimal.StoullToString(viewId);
  }

  /**
   * `InteropCall` on a name bound by `BindJSCallbacks` calls the installed
   * proxy, which runs the callback registered for that view and name.
   */
  lemma InteropCallReachesBoundCallback(views: map<ViewId, PrismaView>, callbacks: map<(ViewId, string), JSCallbackData>,
                                        viewId: ViewId, name: string, arg: string)
    requires ReadyForBinding(views, viewId) && (viewId, name) in callbacks
    ensures var o := InteropCall(WithBindings(views, callbacks, viewId), viewId, name, arg, false);
      o == Called(Proxy(viewId, name), arg) &&
      InvokeCppCallback(callbacks, o.target.data, [Some(o.arg)], Returned) == Dispatched(callbacks[(viewId, name)].callback, arg, None)
  {
    BoundProxyReachesCallback(callbacks, viewId, name, arg);
  }
}
