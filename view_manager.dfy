/**
 * The view registry's operations: creating a view with a z-order, showing
 * and hiding it, moving input focus (and the game pause that goes with it),
 * the scroll step and order settings, and destruction in a fixed order.
 *
 * Calls the plugin hands to the engine thread and waits for (`HasFocus`,
 * the engine cleanup in `Destroy`) run inline here; the engine's focus
 * state is the `focused` flag of the view's `EngineView`.
 */
module ViewManager {
  import opened Types
  import opened CoreState
  import CoreInit

  /** The directory new views load their page from. */
  const VIEWS_URL_PREFIX: string := "file:///Data/PrismaUI/views/"

  datatype CreateError =
    | RendererInitFailed       // this call initialized the core and no renderer came out of it
    | RendererUnexpectedlyNull // the core was already initialized, yet there is no renderer
  datatype CreateResult = Created(id: ViewId) | CreateFailed(error: CreateError)

  /** The views the engine reports as focused. */
  ghost function FocusHolders(views: map<ViewId, PrismaView>): set<ViewId> {
    set w | w in views && EngineFocused(views[w])
  }

  /**
   * The effect of `Unfocus` on a focused view: the engine view loses focus,
   * the view's pause (if it holds one) is given back to the host's counter,
   * which never goes below zero.
   */
  function ReleaseFocus(v: PrismaView, numPausesGame: nat): (r: (PrismaView, nat))
    requires v.engine.Some?
    ensures !EngineFocused(r.0) && !r.0.isPaused && r.0.engine.Some?
    ensures r.1 == if v.isPaused && numPausesGame > 0 then numPausesGame - 1 else numPausesGame
    ensures r.0 == v.(engine := r.0.engine, isPaused := false)
    ensures r.0.engine.value == v.engine.value.(focused := false)
  {
    var count := if v.isPaused && numPausesGame > 0 then numPausesGame - 1 else numPausesGame;
    (v.(engine := Some(v.engine.value.(focused := false)), isPaused := false), count)
  }

  /** The engine view with focus taken away (nothing when there is no engine view). */
  function FocusDropped(e: Option<EngineView>): (r: Option<EngineView>)
    ensures r.Some? <==> e.Some?
    ensures r.Some? ==> !r.value.focused && r.value == e.value.(focused := false)
  {
    if e.Some? then Some(e.value.(focused := false)) else None
  }

  /**
   * The scan of `Create` for the largest order in use, starting from -1:
   * the result bounds every order, and is -1 or some view's order.
   */
  method MaxOrder(r: Registry) returns (maxOrder: int)
    ensures maxOrder >= -1
    ensures forall id :: id in r.views ==> r.views[id].order <= maxOrder
    ensures maxOrder == -1 || exists id :: id in r.views && r.views[id].order == maxOrder
  {
    maxOrder := -1;
    var remaining := r.views.Keys;
    while remaining != {}
      invariant remaining <= r.views.Keys
      invariant maxOrder >= -1
      invariant forall id :: id in r.views && id !in remaining ==> r.views[id].order <= maxOrder
      invariant maxOrder == -1 || exists id :: id in r.views && r.views[id].order == maxOrder
      decreases remaining
    {
      var id :| id in remaining;
      if r.views[id].order > maxOrder {
        maxOrder := r.views[id].order;
      }
      remaining := remaining - {id};
    }
  }

  /**
   * `Create`: initializes the core on first use (an initialization that
   * yields no renderer is undone and reported), then files a visible,
   * unrealized view under `newId` that will load the page at
   * `VIEWS_URL_PREFIX + htmlPath`, on top of every existing view.
   * `newId` comes from the id generator, which never returns 0; an id that
   * is already taken has its entry replaced.
   */
  method Create(r: Registry, htmlPath: string, onDomReady: Option<nat>, newId: ViewId, init: CoreInit.InitOutcome)
    returns (result: CreateResult)
    requires r.Valid() && newId != 0
    modifies r`views, r`coreInitialized, r`graphics, r`gpuDriver, r`renderer
    ensures r.Valid()
    ensures result.CreateFailed? <==> !r.renderer
    ensures result.CreateFailed? ==> r.views == old(r.views)
    ensures result.CreateFailed? && !old(r.coreInitialized) ==> result.error == RendererInitFailed && !r.coreInitialized
    ensures result.CreateFailed? && old(r.coreInitialized) ==> result.error == RendererUnexpectedlyNull && r.coreInitialized
    ensures old(r.coreInitialized) ==> r.renderer == old(r.renderer) && r.gpuDriver == old(r.gpuDriver)
    ensures result.Created? ==>
      result.id == newId && r.coreInitialized && AddedOnTop(old(r.views), r.views, newId, VIEWS_URL_PREFIX + htmlPath, onDomReady)
  {
    if !r.coreInitialized {
      r.coreInitialized := true;
      CoreInit.InitializeCoreSystem(r, init);
      if !r.renderer {
        r.coreInitialized := false;
        return CreateFailed(RendererInitFailed);
      }
    } else if !r.renderer {
      return CreateFailed(RendererUnexpectedlyNull);
    }
    AddView(r, htmlPath, onDomReady, newId);
    result := Created(newId);
  }

  /**
   * `after` is `before` with a new default record for `path` filed under
   * `newId`, whose order is 0 in an empty registry, above every existing
   * order, and either 0 or exactly one above some existing order.
   */
  ghost predicate AddedOnTop(before: map<ViewId, PrismaView>, after: map<ViewId, PrismaView>, newId: ViewId,
                             path: string, onDomReady: Option<nat>)
  {
    after.Keys == before.Keys + {newId} &&
    (forall id :: id in before && id != newId ==> after[id] == before[id]) &&
    after[newId] == NewView(newId, path, onDomReady).(order := after[newId].order) &&
    (before == map[] ==> after[newId].order == 0) &&
    (forall id :: id in before ==> before[id].order < after[newId].order) &&
    (after[newId].order == 0 || exists id :: id in before && before[id].order == after[newId].order - 1)
  }

  /**
   * The second half of `Create`: the new record goes on top of every
   * existing view (order 0 in an empty registry, otherwise one above the
   * largest order, counting from -1).
   */
  method AddView(r: Registry, htmlPath: string, onDomReady: Option<nat>, newId: ViewId)
    requires r.Valid() && newId != 0
    modifies r`views
    ensures r.Valid()
    ensures AddedOnTop(old(r.views), r.views, newId, VIEWS_URL_PREFIX + htmlPath, onDomReady)
  {
    var view := NewView(newId, VIEWS_URL_PREFIX + htmlPath, onDomReady);
    if r.views == map[] {
      view := view.(order := 0);
    } else {
      var maxOrder := MaxOrder(r);
      view := view.(order := maxOrder + 1);
    }
    r.views := r.views[newId := view];
  }

  /** `IsHidden`: an unknown id counts as hidden. */
  method IsHidden(r: Registry, id: ViewId) returns (hidden: bool)
    ensures hidden <==> id !in r.views || r.views[id].isHidden
  {
    if id in r.views {
      return r.views[id].isHidden;
    }
    return true;
  }

  /** `IsValid`: whether the id names a registered view. */
  method IsValid(r: Registry, id: ViewId) returns (valid: bool)
    ensures valid <==> id in r.views
  {
    return id in r.views;
  }

  /** `HasFocus`: asks the engine; an unknown or unrealized view has no focus. */
  method HasFocus(r: Registry, id: ViewId) returns (focused: bool)
    ensures focused <==> id in r.views && r.views[id].engine.Some? && r.views[id].engine.value.focused
  {
    if id !in r.views {
      return false;
    }
    var engine := r.views[id].engine;
    return engine.Some? && engine.value.focused;
  }

  /** `Show`: only a registered hidden view changes, and only its `isHidden` flag. */
  method Show(r: Registry, id: ViewId)
    requires r.Valid()
    modifies r`views
    ensures r.Valid()
    ensures id in old(r.views) && old(r.views)[id].isHidden ==>
      r.views == old(r.views)[id := old(r.views)[id].(isHidden := false)]
    ensures !(id in old(r.views) && old(r.views)[id].isHidden) ==> r.views == old(r.views)
  {
    var hidden := IsHidden(r, id);
    if !hidden {
      return;
    }
    if id in r.views {
      r.views := r.views[id := r.views[id].(isHidden := false)];
    }
  }

  /**
   * `Hide`: a registered visible view is marked hidden and its engine view
   * loses focus; a hidden or unknown view is left alone. The view's pause,
   * if it holds one, is not given back.
   */
  method Hide(r: Registry, id: ViewId)
    requires r.Valid()
    modifies r`views
    ensures r.Valid()
    ensures id in old(r.views) && !old(r.views)[id].isHidden ==>
      r.views == old(r.views)[id := old(r.views)[id].(isHidden := true, engine := FocusDropped(old(r.views)[id].engine))]
    ensures !(id in old(r.views) && !old(r.views)[id].isHidden) ==> r.views == old(r.views)
  {
    var hidden := IsHidden(r, id);
    if hidden {
      return;
    }
    var v := r.views[id];
    r.views := r.views[id := v.(isHidden := true, engine := FocusDropped(v.engine))];
  }

  /**
   * The focus holders other than `id`, as collected by `Focus`; since the
   * engine reports focus for at most one view there is at most one.
   */
  method FocusedOthers(r: Registry, id: ViewId) returns (others: seq<ViewId>)
    requires r.Valid()
    ensures |others| <= 1
    ensures forall w :: w in others <==> w in r.views && w != id && EngineFocused(r.views[w])
  {
    others := [];
    var remaining := r.views.Keys;
    while remaining != {}
      invariant remaining <= r.views.Keys
      invariant forall w :: w in others <==> w in r.views && w !in remaining && w != id && EngineFocused(r.views[w])
      invariant |others| <= 1
      invariant others != [] ==> others[0] in r.views && others[0] !in remaining && EngineFocused(r.views[others[0]])
      decreases remaining
    {
      var w :| w in remaining;
      if w != id && EngineFocused(r.views[w]) {
        assert others == [];
        others := others + [w];
      }
      remaining := remaining - {w};
    }
  }

  /**
   * `Focus`: refused (returning false, changing nothing) when the view
   * already has focus, the console is open, the view is unknown or not yet
   * realized, or it is hidden. Otherwise the view that held focus is
   * unfocused first, the engine view gets focus, and with `pauseGame` the
   * host's pause counter goes up and the view records that it holds a pause.
   */
  method Focus(r: Registry, id: ViewId, pauseGame: bool) returns (ok: bool)
    requires r.Valid()
    modifies r`views, r`numPausesGame
    ensures r.Valid()
    ensures ok <==> id in old(r.views) && old(r.views)[id].engine.Some? && !old(r.views)[id].engine.value.focused &&
                    !r.consoleOpen && !old(r.views)[id].isHidden
    ensures !ok ==> r.views == old(r.views) && r.numPausesGame == old(r.numPausesGame)
    ensures ok ==>
      r.views.Keys == old(r.views).Keys &&
      FocusHolders(r.views) == {id} &&
      r.views[id] == old(r.views)[id].(engine := Some(old(r.views)[id].engine.value.(focused := true)),
                                       isPaused := old(r.views)[id].isPaused || pauseGame) &&
      (forall w :: w in old(r.views) && w != id && !EngineFocused(old(r.views)[w]) ==> r.views[w] == old(r.views)[w])
    ensures ok && FocusHolders(old(r.views)) == {} ==>
      r.numPausesGame == old(r.numPausesGame) + (if pauseGame then 1 else 0)
    ensures ok ==> forall w :: w in FocusHolders(old(r.views)) ==>
      var released := ReleaseFocus(old(r.views)[w], old(r.numPausesGame));
      r.views[w] == released.0 && r.numPausesGame == released.1 + (if pauseGame then 1 else 0)
  {
    var focused := HasFocus(r, id);
    if focused {
      return false;
    }
    if r.consoleOpen {
      return false;
    }
    if !(id in r.views && r.views[id].engine.Some?) {
      return false;
    }
    if r.views[id].isHidden {
      return false;
    }
    var others := FocusedOthers(r, id);
    assert others != [] ==> others[0] in FocusHolders(r.views);
    ghost var before := r.views;
    ghost var countBefore := r.numPausesGame;
    var j := 0;
    while j < |others|
      invariant 0 <= j <= |others| <= 1
      invariant r.Valid()
      invariant j == 0 ==> r.views == before && r.numPausesGame == countBefore
      invariant j == 1 ==> var released := ReleaseFocus(before[others[0]], countBefore);
        r.views == before[others[0] := released.0] && r.numPausesGame == released.1
    {
      Unfocus(r, others[j]);
      j := j + 1;
    }
    GrantFocus(r, id, pauseGame);
    return true;
  }

  /** The last step of a successful `Focus`, once no other view holds focus. */
  method GrantFocus(r: Registry, id: ViewId, pauseGame: bool)
    requires r.Valid() && id in r.views && r.views[id].engine.Some?
    requires forall w :: w in r.views && w != id ==> !EngineFocused(r.views[w])
    modifies r`views, r`numPausesGame
    ensures r.Valid()
    ensures FocusHolders(r.views) == {id}
    ensures r.views == old(r.views)[id := old(r.views)[id].(engine := Some(old(r.views)[id].engine.value.(focused := true)),
                                                             isPaused := old(r.views)[id].isPaused || pauseGame)]
    ensures r.numPausesGame == old(r.numPausesGame) + (if pauseGame then 1 else 0)
  {
    var v := r.views[id];
    v := v.(engine := Some(v.engine.value.(focused := true)));
    if pauseGame {
      r.numPausesGame := r.numPausesGame + 1;
      v := v.(isPaused := true);
    }
    r.views := r.views[id := v];
  }

  /**
   * `Unfocus`: a no-op unless the engine reports focus for the view;
   * otherwise the view's pause is given back (if it holds one and the
   * counter is positive) and the engine view loses focus.
   */
  method Unfocus(r: Registry, id: ViewId)
    requires r.Valid()
    modifies r`views, r`numPausesGame
    ensures r.Valid()
    ensures !(id in old(r.views) && EngineFocused(old(r.views)[id])) ==>
      r.views == old(r.views) && r.numPausesGame == old(r.numPausesGame)
    ensures id in old(r.views) && EngineFocused(old(r.views)[id]) ==>
      var released := ReleaseFocus(old(r.views)[id], old(r.numPausesGame));
      r.views == old(r.views)[id := released.0] && r.numPausesGame == released.1
  {
    var focused := HasFocus(r, id);
    if !focused {
      return;
    }
    var released := ReleaseFocus(r.views[id], r.numPausesGame);
    r.numPausesGame := released.1;
    r.views := r.views[id := released.0];
  }

  /**
   * As written, hiding a view that holds focus and a pause takes the engine
   * focus away but keeps the pause; `Unfocus` then finds no focus and does
   * nothing, so the host's pause counter stays one up with no view left to
   * give it back.
   */
  method HideKeepsPause(r: Registry, id: ViewId)
    requires r.Valid() && !r.consoleOpen
    requires id in r.views && r.views[id].engine.Some? && !r.views[id].isHidden && !r.views[id].isPaused
    requires FocusHolders(r.views) == {}
    modifies r`views, r`numPausesGame
    ensures r.Valid()
    ensures r.numPausesGame == old(r.numPausesGame) + 1
    ensures id in r.views && r.views[id].isHidden && r.views[id].isPaused && FocusHolders(r.views) == {}
  {
    assert id !in FocusHolders(r.views);
    var ok := Focus(r, id, true);
    Hide(r, id);
    assert FocusHolders(r.views) == {};
    Unfocus(r, id);
  }

  /**
   * `Hide` that gives focus back first: a view holding focus is unfocused,
   * returning its pause, and then hidden. Other views are untouched.
   */
  method HideReleasingFocus(r: Registry, id: ViewId)
    requires r.Valid()
    modifies r`views, r`numPausesGame
    ensures r.Valid()
    ensures id !in old(r.views) ==> r.views == old(r.views) && r.numPausesGame == old(r.numPausesGame)
    ensures id in old(r.views) ==>
      r.views.Keys == old(r.views).Keys && r.views[id].isHidden && !EngineFocused(r.views[id]) &&
      forall w :: w in old(r.views) && w != id ==> r.views[w] == old(r.views)[w]
    ensures id in old(r.views) && !EngineFocused(old(r.views)[id]) ==>
      r.numPausesGame == old(r.numPausesGame) && r.views[id].isPaused == old(r.views)[id].isPaused
    ensures id in old(r.views) && EngineFocused(old(r.views)[id]) ==>
      r.numPausesGame == ReleaseFocus(old(r.views)[id], old(r.numPausesGame)).1 && !r.views[id].isPaused
  {
    Unfocus(r, id);
    Hide(r, id);
  }

  /**
   * With `HideReleasingFocus`, focusing a view with a pause and hiding it
   * leaves the counter where it started and no view holding a pause.
   */
  method HidePauseBalanced(r: Registry, id: ViewId)
    requires r.Valid() && !r.consoleOpen
    requires id in r.views && r.views[id].engine.Some? && !r.views[id].isHidden && !r.views[id].isPaused
    requires FocusHolders(r.views) == {}
    modifies r`views, r`numPausesGame
    ensures r.Valid()
    ensures r.numPausesGame == old(r.numPausesGame)
    ensures id in r.views && r.views[id].isHidden && !r.views[id].isPaused && FocusHolders(r.views) == {}
  {
    var ok := Focus(r, id, true);
    HideReleasingFocus(r, id);
    assert FocusHolders(r.views) == {};
  }

  /** `SetScrollingPixelSize`: a positive step is stored, anything else stores 16; unknown ids are ignored. */
  method SetScrollingPixelSize(r: Registry, id: ViewId, pixelSize: int)
    requires r.Valid()
    modifies r`views
    ensures r.Valid()
    ensures id in old(r.views) ==>
      r.views == old(r.views)[id := old(r.views)[id].(scrollingPixelSize := if pixelSize <= 0 then FALLBACK_SCROLLING_PIXEL_SIZE else pixelSize)]
    ensures id !in old(r.views) ==> r.views == old(r.views)
  {
    if id in r.views {
      if pixelSize <= 0 {
        r.views := r.views[id := r.views[id].(scrollingPixelSize := FALLBACK_SCROLLING_PIXEL_SIZE)];
      } else {
        r.views := r.views[id := r.views[id].(scrollingPixelSize := pixelSize)];
      }
    }
  }

  /** `GetScrollingPixelSize`: the view's step, 28 for an unknown id; always positive. */
  method GetScrollingPixelSize(r: Registry, id: ViewId) returns (pixelSize: int)
    requires r.Valid()
    ensures id in r.views ==> pixelSize == r.views[id].scrollingPixelSize
    ensures id !in r.views ==> pixelSize == DEFAULT_SCROLLING_PIXEL_SIZE
    ensures pixelSize > 0
  {
    if id in r.views {
      return r.views[id].scrollingPixelSize;
    }
    return DEFAULT_SCROLLING_PIXEL_SIZE;
  }

  /** `SetOrder`: stores the order of a registered view; unknown ids are ignored. */
  method SetOrder(r: Registry, id: ViewId, order: int)
    requires r.Valid()
    modifies r`views
    ensures r.Valid()
    ensures id in old(r.views) ==> r.views == old(r.views)[id := old(r.views)[id].(order := order)]
    ensures id !in old(r.views) ==> r.views == old(r.views)
  {
    if id in r.views {
      r.views := r.views[id := r.views[id].(order := order)];
    }
  }

  /** `GetOrder`: the view's order, -1 for an unknown id. */
  method GetOrder(r: Registry, id: ViewId) returns (order: int)
    ensures id in r.views ==> order == r.views[id].order
    ensures id !in r.views ==> order == -1
  {
    if id in r.views {
      return r.views[id].order;
    }
    return -1;
  }

  /** The callback table without the entries of view `id`. */
  function WithoutView(callbacks: map<(ViewId, string), JSCallbackData>, id: ViewId): (r: map<(ViewId, string), JSCallbackData>)
    ensures forall k :: k in r <==> k in callbacks && k.0 != id
    ensures forall k :: k in r ==> r[k] == callbacks[k]
  {
    map k | k in callbacks && k.0 != id :: callbacks[k]
  }

  /**
   * The engine-side cleanup of a destroyed view: the engine view and its
   * listeners are dropped, the pixel buffer is emptied, and the loading and
   * new-frame flags are cleared.
   */
  function EngineCleanup(v: PrismaView): (r: PrismaView)
    ensures r.engine.None? && r.pixelBuffer == [] && r.bufferWidth == 0 && r.bufferHeight == 0 && r.bufferStride == 0
    ensures !r.isLoadingFinished && !r.newFrameReady
    ensures r.texture == v.texture && r.textureView == v.textureView && r.id == v.id
  {
    v.(engine := None, pixelBuffer := [], bufferWidth := 0, bufferHeight := 0, bufferStride := 0,
       isLoadingFinished := false, newFrameReady := false)
  }

  /** The device-side cleanup: both texture handles released; the sizes are reset only if there was something to release. */
  function DeviceCleanup(v: PrismaView): (r: PrismaView)
    ensures r.texture.None? && r.textureView.None? && !r.pendingResourceRelease
    ensures v.texture.Some? || v.textureView.Some? ==> r.textureWidth == 0 && r.textureHeight == 0
    ensures r.engine == v.engine && r.pixelBuffer == v.pixelBuffer && r.id == v.id
  {
    if v.texture.Some? || v.textureView.Some? then
      v.(texture := None, textureView := None, textureWidth := 0, textureHeight := 0, pendingResourceRelease := false)
    else
      v.(pendingResourceRelease := false)
  }

  /** The erase loop of `Destroy`: walks the callback table and erases every entry of view `id`. */
  method PurgeCallbacks(r: Registry, id: ViewId)
    modifies r`jsCallbacks
    ensures r.jsCallbacks == WithoutView(old(r.jsCallbacks), id)
  {
    var before := r.jsCallbacks;
    var keys := before.Keys;
    while keys != {}
      invariant keys <= before.Keys
      invariant r.jsCallbacks == map k | k in before && (k in keys || k.0 != id) :: before[k]
      decreases keys
    {
      var k :| k in keys;
      if k.0 == id {
        r.jsCallbacks := r.jsCallbacks - {k};
      }
      keys := keys - {k};
    }
  }

  /** A view as `Destroy` finds it once a focused view has been unfocused. */
  function AfterUnfocus(v: PrismaView, numPausesGame: nat): (r: (PrismaView, nat))
    ensures !EngineFocused(r.0) && r.1 <= numPausesGame
    ensures !EngineFocused(v) ==> r == (v, numPausesGame)
  {
    if EngineFocused(v) then ReleaseFocus(v, numPausesGame) else (v, numPausesGame)
  }

  /**
   * The registry half of `Destroy`, for a registered view: unfocus it if it
   * has focus, remove its entry, mark the detached record hidden, and erase
   * the view's callbacks.
   */
  method Detach(r: Registry, id: ViewId) returns (v: PrismaView)
    requires r.Valid() && id in r.views
    modifies r`views, r`jsCallbacks, r`numPausesGame, r`trace
    ensures r.Valid()
    ensures r.views == old(r.views) - {id}
    ensures r.jsCallbacks == WithoutView(old(r.jsCallbacks), id)
    ensures r.trace == old(r.trace) + (if EngineFocused(old(r.views)[id]) then [Unfocused(id)] else []) +
                       [RemovedFromRegistry(id), CallbacksPurged(id)]
    ensures var after := AfterUnfocus(old(r.views)[id], old(r.numPausesGame));
      v == after.0.(isHidden := true) && r.numPausesGame == after.1
  {
    var focused := HasFocus(r, id);
    if focused {
      Unfocus(r, id);
      r.trace := r.trace + [Unfocused(id)];
    }
    v := r.views[id];
    r.views := r.views - {id};
    r.trace := r.trace + [RemovedFromRegistry(id)];
    v := v.(isHidden := true);
    PurgeCallbacks(r, id);
    r.trace := r.trace + [CallbacksPurged(id)];
  }

  /**
   * `Destroy`: an unknown id changes nothing. Otherwise, in this order: a
   * focused view is unfocused, its entry is removed, every callback of the
   * view is erased (all others kept), the engine view is released, then the
   * device textures. The detached record is returned in its final state.
   */
  method Destroy(r: Registry, id: ViewId) returns (detached: Option<PrismaView>)
    requires r.Valid()
    modifies r`views, r`jsCallbacks, r`numPausesGame, r`trace
    ensures r.Valid()
    ensures id !in old(r.views) ==>
      detached.None? && r.views == old(r.views) && r.jsCallbacks == old(r.jsCallbacks) &&
      r.numPausesGame == old(r.numPausesGame) && r.trace == old(r.trace)
    ensures id in old(r.views) ==>
      var after := AfterUnfocus(old(r.views)[id], old(r.numPausesGame));
      r.views == old(r.views) - {id} &&
      r.jsCallbacks == WithoutView(old(r.jsCallbacks), id) &&
      r.numPausesGame == after.1 &&
      r.trace == old(r.trace) + (if EngineFocused(old(r.views)[id]) then [Unfocused(id)] else []) +
                 [RemovedFromRegistry(id), CallbacksPurged(id), EngineReleased(id), TexturesReleased(id)] &&
      detached == Some(DeviceCleanup(EngineCleanup(after.0.(isHidden := true))))
  {
    var valid := IsValid(r, id);
    if !valid {
      return None;
    }
    var v := Detach(r, id);
    v := EngineCleanup(v);
    r.trace := r.trace + [EngineReleased(id)];
    v := DeviceCleanup(v);
    r.trace := r.trace + [TexturesReleased(id)];
    return Some(v);
  }

  /** Destroying twice is the same as destroying once. */
  method DestroyTwice(r: Registry, id: ViewId)
    requires r.Valid()
    modifies r`views, r`jsCallbacks, r`numPausesGame, r`trace
    ensures r.Valid()
    ensures r.views == old(r.views) - {id} && id !in r.views
    ensures r.jsCallbacks == WithoutView(old(r.jsCallbacks), id)
  {
    var first := Destroy(r, id);
    var second := Destroy(r, id);
    assert second.None?;
  }
}
