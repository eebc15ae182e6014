/**
 * The interface other plugins call. Every entry point first turns away
 * view id 0 and missing (null) arguments with a fixed answer, then hands
 * the call to the core. Text that is not valid UTF-8 is converted from the
 * system's ANSI code page first; both the validity test and the conversion
 * are Windows calls, so their answers are parameters here.
 *
 * A null C string is `None`; a callback pointer is `Some` of an opaque
 * callback number, or `None` when null.
 */
module API {
  import opened Types
  import opened CoreState
  import ViewManager
  import LegacyCore
  import Communication

  /** How a call to `CreateView` ends for its caller. */
  datatype CreateViewOutcome =
    | Returned(view: ViewId)
    | ProcessTerminated // an exception left a function declared not to throw

  /** The text handed on: unchanged when it is valid UTF-8, otherwise its conversion from the ANSI code page. */
  function Processed(text: string, isUtf8: bool, fromAnsi: string): (r: string)
    ensures r == text || r == fromAnsi
    ensures isUtf8 ==> r == text
  {
    if isUtf8 then text else fromAnsi
  }

  /**
   * `CreateView` as written: a null path gives 0 and creates nothing.
   * Otherwise the core's `Create` runs; when it fails it throws, and since
   * `CreateView` is declared `noexcept` the process is terminated. On
   * success the new id is looked up in the registry, where it always is,
   * and returned.
   */
  method CreateView(r: Registry, htmlPath: Option<string>, onDomReady: Option<nat>, newId: ViewId, rendererCreated: bool)
    returns (outcome: CreateViewOutcome)
    requires r.Valid() && newId != 0
    modifies r`views, r`coreInitialized, r`renderer
    ensures r.Valid()
    ensures htmlPath.None? ==> outcome == Returned(0) && r.views == old(r.views) && r.renderer == old(r.renderer) &&
                               r.coreInitialized == old(r.coreInitialized)
    ensures htmlPath.Some? && !old(r.coreInitialized) ==> r.renderer == rendererCreated
    ensures htmlPath.Some? ==> (outcome.ProcessTerminated? <==> !r.renderer)
    ensures outcome.ProcessTerminated? ==> r.views == old(r.views)
    ensures outcome.Returned? && htmlPath.Some? ==>
      outcome.view == newId && r.views == old(r.views)[newId := NewView(newId, ViewManager.VIEWS_URL_PREFIX + htmlPath.value, onDomReady)]
  {
    if htmlPath.None? {
      return Returned(0);
    }
    var created := LegacyCore.Create(r, htmlPath.value, onDomReady, newId, rendererCreated);
    if created.CreateFailed? {
      return ProcessTerminated;
    }
    assert created.id in r.views; // so the lookup's fallback to 0 is never taken
    return Returned(created.id);
  }

  /**
   * The first call of a plugin, with no renderer to be had, ends the
   * process instead of returning 0.
   */
  method FailedCreateTerminates(r: Registry, htmlPath: string, newId: ViewId) returns (outcome: CreateViewOutcome)
    requires r.Valid() && newId != 0 && !r.coreInitialized
    modifies r`views, r`coreInitialized, r`renderer
    ensures outcome == ProcessTerminated
  {
    outcome := CreateView(r, Some(htmlPath), None, newId, false);
  }

  /**
   * `CreateView` with the core's failure caught at the interface, as the
   * declaration promises: a failed creation returns 0 and leaves the
   * registry and the initialization flag as the core left them.
   */
  method CreateViewCaught(r: Registry, htmlPath: Option<string>, onDomReady: Option<nat>, newId: ViewId, rendererCreated: bool)
    returns (view: ViewId)
    requires r.Valid() && newId != 0
    modifies r`views, r`coreInitialized, r`renderer
    ensures r.Valid()
    ensures htmlPath.Some? && !old(r.coreInitialized) ==> r.renderer == rendererCreated
    ensures view == 0 <==> htmlPath.None? || !r.renderer
    ensures view != 0 ==>
      view == newId && view in r.views &&
      r.views == old(r.views)[newId := NewView(newId, ViewManager.VIEWS_URL_PREFIX + htmlPath.value, onDomReady)]
    ensures view == 0 ==> r.views == old(r.views)
    ensures view == 0 && htmlPath.Some? && !old(r.coreInitialized) ==> !r.coreInitialized
  {
    if htmlPath.None? {
      return 0;
    }
    var created := LegacyCore.Create(r, htmlPath.value, onDomReady, newId, rendererCreated);
    if created.CreateFailed? {
      return 0;
    }
    assert created.id in r.views;
    return created.id;
  }

  /** With the failure caught, the same first call returns 0 and the next call may initialize again. */
  method FailedCreateReturnsZero(r: Registry, htmlPath: string, newId: ViewId) returns (view: ViewId)
    requires r.Valid() && newId != 0 && !r.coreInitialized
    modifies r`views, r`coreInitialized, r`renderer
    ensures view == 0 && !r.coreInitialized && r.views == old(r.views)
  {
    view := CreateViewCaught(r, Some(htmlPath), None, newId, false);
  }

  /**
   * `Invoke`: nothing happens for view 0 or a null script, not even the
   * callback; otherwise the processed script goes to the core's `Invoke`.
   */
  function Invoke(views: map<ViewId, PrismaView>, view: ViewId, script: Option<string>, isUtf8: bool, fromAnsi: string,
                  hasCallback: bool, evaluation: Option<string>): (r: Option<(string, Communication.InvokeOutcome)>)
    ensures r.None? <==> view == 0 || script.None?
    ensures r.Some? && isUtf8 ==> r.value.0 == script.value
    ensures r.Some? ==> r.value.1 == Communication.Invoke(views, view, hasCallback, evaluation)
  {
    if view == 0 || script.None? then None
    else Some((Processed(script.value, isUtf8, fromAnsi), Communication.Invoke(views, view, hasCallback, evaluation)))
  }

  /**
   * The guard changes what a caller sees for view 0: the core would answer
   * the callback with `""`, the interface never calls it.
   */
  lemma ZeroViewNeverCallsBack(views: map<ViewId, PrismaView>, script: string, isUtf8: bool, fromAnsi: string,
                               evaluation: Option<string>)
    ensures Invoke(views, 0, Some(script), isUtf8, fromAnsi, true, evaluation).None?
    ensures 0 !in views ==> Communication.Invoke(views, 0, true, evaluation).callbackArg == Some("")
  {
  }

  /**
   * `InteropCall`: nothing happens for view 0 or a null name or argument;
   * otherwise the processed argument goes to the core's `InteropCall`.
   */
  function InteropCall(views: map<ViewId, PrismaView>, view: ViewId, functionName: Option<string>, argument: Option<string>,
                       isUtf8: bool, fromAnsi: string, lookupThrows: bool): (r: Option<Communication.InteropOutcome>)
    ensures r.None? <==> view == 0 || functionName.None? || argument.None?
    ensures r.Some? ==>
      r.value == Communication.InteropCall(views, view, functionName.value, Processed(argument.value, isUtf8, fromAnsi), lookupThrows)
  {
    if view == 0 || functionName.None? || argument.None? then None
    else Some(Communication.InteropCall(views, view, functionName.value, Processed(argument.value, isUtf8, fromAnsi), lookupThrows))
  }

  /** A valid UTF-8 argument reaches the page function exactly as the caller passed it. */
  lemma Utf8ArgumentArrivesUnchanged(views: map<ViewId, PrismaView>, view: ViewId, functionName: string, argument: string,
                                     fromAnsi: string, lookupThrows: bool)
    requires view != 0
    ensures var o := InteropCall(views, view, Some(functionName), Some(argument), true, fromAnsi, lookupThrows);
      o.Some? && (o.value.Called? ==> o.value.arg == argument)
  {
  }

  /**
   * `RegisterJSListener`: ignored for view 0 or a null name or callback;
   * otherwise the core's registration, which rebinds a realized, loaded
   * view at once.
   */
  method RegisterJSListener(r: Registry, view: ViewId, name: Option<string>, callback: Option<nat>)
    requires r.Valid()
    modifies r`views, r`jsCallbacks
    ensures r.Valid()
    ensures view == 0 || name.None? || callback.None? || view !in old(r.views) ==>
      r.views == old(r.views) && r.jsCallbacks == old(r.jsCallbacks)
    ensures view != 0 && name.Some? && callback.Some? && view in old(r.views) ==>
      r.jsCallbacks == old(r.jsCallbacks)[(view, name.value) := JSCallbackData(view, name.value, callback.value)]
    ensures view != 0 && name.Some? && callback.Some? && view in old(r.views) &&
            !Communication.ReadyForBinding(old(r.views), view) ==>
      r.views == old(r.views)
    ensures view != 0 && name.Some? && callback.Some? && Communication.ReadyForBinding(old(r.views), view) ==>
      r.views == Communication.WithBindings(old(r.views), r.jsCallbacks, view)
  {
    if view == 0 || name.None? || callback.None? {
      return;
    }
    Communication.RegisterJSListener(r, view, name.value, callback.value);
  }

  /** `HasFocus`: false for view 0, otherwise the engine's answer. */
  method HasFocus(r: Registry, view: ViewId) returns (focused: bool)
    requires r.Valid()
    ensures focused <==> view in r.views && EngineFocused(r.views[view])
    ensures view == 0 ==> !focused
  {
    if view == 0 {
      return false;
    }
    focused := ViewManager.HasFocus(r, view);
  }

  /**
   * `Focus`: false for view 0, otherwise the older core's `Focus`, which
   * also accepts a view that already has focus and then takes the pause a
   * second time (see `LegacyCore.PauseLeaks`).
   */
  method Focus(r: Registry, view: ViewId, pauseGame: bool) returns (ok: bool)
    requires r.Valid()
    modifies r`views, r`numPausesGame
    ensures r.Valid()
    ensures ok <==> view != 0 && !r.consoleOpen && view in old(r.views) && old(r.views)[view].engine.Some? &&
                    !old(r.views)[view].isHidden
    ensures !ok ==> r.views == old(r.views) && r.numPausesGame == old(r.numPausesGame)
    ensures ok ==>
      r.views.Keys == old(r.views).Keys &&
      ViewManager.FocusHolders(r.views) == {view} &&
      r.views[view] == old(r.views)[view].(engine := Some(old(r.views)[view].engine.value.(focused := true)),
                                           isPaused := old(r.views)[view].isPaused || pauseGame) &&
      (forall w :: w in old(r.views) && w != view && !EngineFocused(old(r.views)[w]) ==> r.views[w] == old(r.views)[w])
    ensures ok && ViewManager.FocusHolders(old(r.views)) <= {view} ==>
      r.numPausesGame == old(r.numPausesGame) + (if pauseGame then 1 else 0)
    ensures ok ==> forall w :: w in ViewManager.FocusHolders(old(r.views)) && w != view ==>
      var released := ViewManager.ReleaseFocus(old(r.views)[w], old(r.numPausesGame));
      r.views[w] == released.0 && r.numPausesGame == released.1 + (if pauseGame then 1 else 0)
  {
    if view == 0 {
      return false;
    }
    ok := LegacyCore.Focus(r, view, pauseGame);
  }

  /**
   * `Focus` as evidently intended: the same entry point routed to the newer
   * registry's `Focus`, which refuses a view that already has focus, so a
   * repeated call cannot take the pause twice (see `LegacyCore.PauseBalanced`).
   */
  method FocusChecked(r: Registry, view: ViewId, pauseGame: bool) returns (ok: bool)
    requires r.Valid()
    modifies r`views, r`numPausesGame
    ensures r.Valid()
    ensures ok <==> view != 0 && view in old(r.views) && old(r.views)[view].engine.Some? &&
                    !old(r.views)[view].engine.value.focused && !r.consoleOpen && !old(r.views)[view].isHidden
    ensures !ok ==> r.views == old(r.views) && r.numPausesGame == old(r.numPausesGame)
    ensures ok ==>
      r.views.Keys == old(r.views).Keys &&
      ViewManager.FocusHolders(r.views) == {view} &&
      r.views[view] == old(r.views)[view].(engine := Some(old(r.views)[view].engine.value.(focused := true)),
                                           isPaused := old(r.views)[view].isPaused || pauseGame) &&
      (forall w :: w in old(r.views) && w != view && !EngineFocused(old(r.views)[w]) ==> r.views[w] == old(r.views)[w])
    ensures ok && ViewManager.FocusHolders(old(r.views)) == {} ==>
      r.numPausesGame == old(r.numPausesGame) + (if pauseGame then 1 else 0)
    ensures ok ==> forall w :: w in ViewManager.FocusHolders(old(r.views)) ==>
      var released := ViewManager.ReleaseFocus(old(r.views)[w], old(r.numPausesGame));
      r.views[w] == released.0 && r.numPausesGame == released.1 + (if pauseGame then 1 else 0)
  {
    if view == 0 {
      return false;
    }
    ok := ViewManager.Focus(r, view, pauseGame);
  }

  /** `Unfocus`: nothing for view 0, otherwise the older core's `Unfocus`, which gives back the pause of any registered view. */
  method Unfocus(r: Registry, view: ViewId)
    requires r.Valid()
    modifies r`views, r`numPausesGame
    ensures r.Valid()
    ensures view == 0 || view !in old(r.views) ==> r.views == old(r.views) && r.numPausesGame == old(r.numPausesGame)
    ensures view != 0 && view in old(r.views) ==>
      var p := LegacyCore.ReleasePause(old(r.views)[view], old(r.numPausesGame));
      r.views == old(r.views)[view := p.0.(engine := ViewManager.FocusDropped(old(r.views)[view].engine))] &&
      r.numPausesGame == p.1
  {
    if view == 0 {
      return;
    }
    LegacyCore.Unfocus(r, view);
  }

  /** `GetScrollingPixelSize`: 28 for view 0, otherwise the view's step (28 for an unknown id). */
  method GetScrollingPixelSize(r: Registry, view: ViewId) returns (pixelSize: int)
    requires r.Valid()
    ensures view in r.views ==> pixelSize == r.views[view].scrollingPixelSize
    ensures view !in r.views ==> pixelSize == DEFAULT_SCROLLING_PIXEL_SIZE
    ensures pixelSize > 0
  {
    if view == 0 {
      return DEFAULT_SCROLLING_PIXEL_SIZE;
    }
    pixelSize := ViewManager.GetScrollingPixelSize(r, view);
  }

  /** `SetScrollingPixelSize`: nothing for view 0, otherwise the registry's setter. */
  method SetScrollingPixelSize(r: Registry, view: ViewId, pixelSize: int)
    requires r.Valid()
    modifies r`views
    ensures r.Valid()
    ensures view in old(r.views) ==>
      r.views == old(r.views)[view := old(r.views)[view].(scrollingPixelSize := if pixelSize <= 0 then FALLBACK_SCROLLING_PIXEL_SIZE else pixelSize)]
    ensures view !in old(r.views) ==> r.views == old(r.views)
  {
    if view == 0 {
      return;
    }
    ViewManager.SetScrollingPixelSize(r, view, pixelSize);
  }

  /** `IsValid`: false for view 0, otherwise whether the id is registered. */
  method IsValid(r: Registry, view: ViewId) returns (valid: bool)
    requires r.Valid()
    ensures valid <==> view in r.views
    ensures view == 0 ==> !valid
  {
    if view == 0 {
      return false;
    }
    valid := ViewManager.IsValid(r, view);
  }

  /**
   * `Destroy`: nothing for view 0, otherwise the registry's `Destroy`: a
   * focused view gives back its pause, then the view and its listeners go.
   */
  method Destroy(r: Registry, view: ViewId)
    requires r.Valid()
    modifies r`views, r`jsCallbacks, r`numPausesGame, r`trace
    ensures r.Valid()
    ensures r.views == old(r.views) - {view}
    ensures r.jsCallbacks == ViewManager.WithoutView(old(r.jsCallbacks), view)
    ensures view == 0 || view !in old(r.views) ==>
      r.views == old(r.views) && r.jsCallbacks == old(r.jsCallbacks) &&
      r.numPausesGame == old(r.numPausesGame) && r.trace == old(r.trace)
    ensures view != 0 && view in old(r.views) ==>
      r.numPausesGame == ViewManager.AfterUnfocus(old(r.views)[view], old(r.numPausesGame)).1 &&
      r.trace == old(r.trace) + (if EngineFocused(old(r.views)[view]) then [Unfocused(view)] else []) +
                 [RemovedFromRegistry(view), CallbacksPurged(view), EngineReleased(view), TexturesReleased(view)]
  {
    if view == 0 {
      return;
    }
    var _ := ViewManager.Destroy(r, view);
  }
}
