/**
 * The engine's load events for one view, as they land on the registry
 * entry: loading starts or fails (not ready), loading finishes (ready, and
 * the view's callbacks are bound), the DOM is ready (the view's own
 * callback fires). Each handler is keyed by the id of the view it was
 * attached to and does nothing once that id has left the registry.
 */
module Listeners {
  import opened Types
  import opened CoreState
  import Communication

  /** Sets the `isLoadingFinished` flag of a registered view; an unknown id changes nothing. */
  method SetLoadingFinished(r: Registry, id: ViewId, finished: bool)
    requires r.Valid()
    modifies r`views
    ensures r.Valid()
    ensures id in old(r.views) ==> r.views == old(r.views)[id := old(r.views)[id].(isLoadingFinished := finished)]
    ensures id !in old(r.views) ==> r.views == old(r.views)
  {
    if id in r.views {
      r.views := r.views[id := r.views[id].(isLoadingFinished := finished)];
    }
  }

  /** `OnBeginLoading`: a registered view is back to loading. */
  method OnBeginLoading(r: Registry, id: ViewId)
    requires r.Valid()
    modifies r`views
    ensures r.Valid()
    ensures id in old(r.views) ==> r.views == old(r.views)[id := old(r.views)[id].(isLoadingFinished := false)]
    ensures id !in old(r.views) ==> r.views == old(r.views)
  {
    SetLoadingFinished(r, id, false);
  }

  /** `OnFailLoading`: a registered view is not ready. */
  method OnFailLoading(r: Registry, id: ViewId)
    requires r.Valid()
    modifies r`views
    ensures r.Valid()
    ensures id in old(r.views) ==> r.views == old(r.views)[id := old(r.views)[id].(isLoadingFinished := false)]
    ensures id !in old(r.views) ==> r.views == old(r.views)
  {
    SetLoadingFinished(r, id, false);
  }

  /**
   * `OnFinishLoading`: a registered view is ready, and (being realized) gets
   * every callback registered for it bound into its page.
   */
  method OnFinishLoading(r: Registry, id: ViewId)
    requires r.Valid()
    modifies r`views
    ensures r.Valid()
    ensures id !in old(r.views) ==> r.views == old(r.views)
    ensures id in old(r.views) ==>
      var loaded := old(r.views)[id := old(r.views)[id].(isLoadingFinished := true)];
      (Communication.ReadyForBinding(loaded, id) ==> r.views == Communication.WithBindings(loaded, r.jsCallbacks, id)) &&
      (!Communication.ReadyForBinding(loaded, id) ==> r.views == loaded)
  {
    if id in r.views {
      SetLoadingFinished(r, id, true);
      Communication.BindJSCallbacks(r, id);
    }
  }

  /**
   * `OnDOMReady`: the call it makes, if any — the view's DOM-ready callback
   * with the view's own id, when the view is registered and has one.
   */
  method OnDOMReady(r: Registry, id: ViewId) returns (call: Option<(nat, ViewId)>)
    ensures call.Some? <==> id in r.views && r.views[id].domReadyCallback.Some?
    ensures call.Some? ==> call.value == (r.views[id].domReadyCallback.value, id)
  {
    if id in r.views && r.views[id].domReadyCallback.Some? {
      return Some((r.views[id].domReadyCallback.value, id));
    }
    return None;
  }

  /**
   * Once a realized view finishes loading, a page call to any name
   * registered for it runs that name's callback.
   */
  lemma FinishLoadingBindsEveryCallback(views: map<ViewId, PrismaView>, callbacks: map<(ViewId, string), JSCallbackData>,
                                        id: ViewId, name: string, arg: string)
    requires id in views && views[id].engine.Some? && (id, name) in callbacks
    ensures var loaded := views[id := views[id].(isLoadingFinished := true)];
      Communication.ReadyForBinding(loaded, id) &&
      Communication.InteropCall(Communication.WithBindings(loaded, callbacks, id), id, name, arg, false) ==
        Communication.Called(Communication.Proxy(id, name), arg)
  {
    var loaded := views[id := views[id].(isLoadingFinished := true)];
    Communication.InteropCallReachesBoundCallback(loaded, callbacks, id, name, arg);
  }
}
