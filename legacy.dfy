/**
 * The older, monolithic core that the public API header is wired to. Its
 * registry is the same map of view records; it differs from the newer
 * registry in three operations:
 *  - `Create` files the new view without giving it an order (it keeps the
 *    default 0), and its one-time initialization either yields a renderer
 *    or not;
 *  - `Focus` does not refuse a view that already has focus;
 *  - `Unfocus` gives back the pause of any registered view, realized or not,
 *    and unfocuses a realized engine view whether or not it reports focus.
 * Its `Destroy` takes the same steps as `ViewManager.Destroy`.
 */
module LegacyCore {
  import opened Types
  import opened CoreState
  import ViewManager

  /** The pause half of `Unfocus`: a held pause is given back, never taking the counter below zero. */
  function ReleasePause(v: PrismaView, numPausesGame: nat): (r: (PrismaView, nat))
    ensures !r.0.isPaused && r.0 == v.(isPaused := false)
    ensures v.isPaused && numPausesGame > 0 ==> r.1 + 1 == numPausesGame
    ensures !(v.isPaused && numPausesGame > 0) ==> r.1 == numPausesGame
  {
    if v.isPaused then (v.(isPaused := false), if numPausesGame > 0 then numPausesGame - 1 else 0)
    else (v, numPausesGame)
  }

  /** For a realized view, the legacy `Unfocus` has the same effect as the newer one on a focused view. */
  lemma ReleasePauseThenUnfocus(v: PrismaView, numPausesGame: nat)
    requires v.engine.Some?
    ensures var p := ReleasePause(v, numPausesGame);
      ViewManager.ReleaseFocus(v, numPausesGame) == (p.0.(engine := ViewManager.FocusDropped(v.engine)), p.1)
  {
  }

  /**
   * `Create`: the first call initializes the core; if that yields no
   * renderer the initialization is undone and the call fails. A later call
   * fails if there is no renderer. Otherwise a visible, unrealized view
   * with order 0 is filed under `newId`, to load `VIEWS_URL_PREFIX + htmlPath`.
   */
  method Create(r: Registry, htmlPath: string, onDomReady: Option<nat>, newId: ViewId, rendererCreated: bool)
    returns (result: ViewManager.CreateResult)
    requires r.Valid() && newId != 0
    modifies r`views, r`coreInitialized, r`renderer
    ensures r.Valid()
    ensures !old(r.coreInitialized) ==> r.renderer == rendererCreated
    ensures old(r.coreInitialized) ==> r.renderer == old(r.renderer) && r.coreInitialized
    ensures result.CreateFailed? <==> !r.renderer
    ensures result.CreateFailed? ==> r.views == old(r.views)
    ensures result.CreateFailed? && !old(r.coreInitialized) ==> result.error == ViewManager.RendererInitFailed && !r.coreInitialized
    ensures result.CreateFailed? && old(r.coreInitialized) ==> result.error == ViewManager.RendererUnexpectedlyNull
    ensures result.Created? ==>
      result.id == newId && r.coreInitialized &&
      r.views == old(r.views)[newId := NewView(newId, ViewManager.VIEWS_URL_PREFIX + htmlPath, onDomReady)]
  {
    if !r.coreInitialized {
      r.coreInitialized := true;
      r.renderer := rendererCreated;
      if !r.renderer {
        r.coreInitialized := false;
        return ViewManager.CreateFailed(ViewManager.RendererInitFailed);
      }
    } else if !r.renderer {
      return ViewManager.CreateFailed(ViewManager.RendererUnexpectedlyNull);
    }
    r.views := r.views[newId := NewView(newId, ViewManager.VIEWS_URL_PREFIX + htmlPath, onDomReady)];
    result := ViewManager.Created(newId);
  }

  /**
   * Unlike the newer `Create`, a view created here does not go on top: with
   * any view of positive order registered, the new view is drawn below it.
   */
  lemma CreatedNotOnTop(views: map<ViewId, PrismaView>, newId: ViewId, path: string, onDomReady: Option<nat>, w: ViewId)
    requires w in views && w != newId && views[w].order > 0
    ensures var after := views[newId := NewView(newId, path, onDomReady)];
      after[newId].order < after[w].order &&
      !ViewManager.AddedOnTop(views, after, newId, path, onDomReady)
  {
    var after := views[newId := NewView(newId, path, onDomReady)];
    assert w in views && views[w].order >= after[newId].order;
  }

  /**
   * `Unfocus`: a registered view gives back its pause (if it holds one and
   * the counter is positive); a realized one also has its engine view lose
   * focus. An unknown id changes nothing.
   */
  method Unfocus(r: Registry, id: ViewId)
    requires r.Valid()
    modifies r`views, r`numPausesGame
    ensures r.Valid()
    ensures id !in old(r.views) ==> r.views == old(r.views) && r.numPausesGame == old(r.numPausesGame)
    ensures id in old(r.views) ==>
      var p := ReleasePause(old(r.views)[id], old(r.numPausesGame));
      r.views == old(r.views)[id := p.0.(engine := ViewManager.FocusDropped(old(r.views)[id].engine))] &&
      r.numPausesGame == p.1
  {
    if id !in r.views {
      return;
    }
    var v := r.views[id];
    var p := ReleasePause(v, r.numPausesGame);
    r.numPausesGame := p.1;
    r.views := r.views[id := p.0.(engine := ViewManager.FocusDropped(v.engine))];
  }

  /**
   * `Focus`: refused (returning false, changing nothing) when the console is
   * open, the view is unknown or not yet realized, or it is hidden.
   * Otherwise every other view the engine reports as focused is unfocused,
   * the engine view gets focus, and with `pauseGame` the host's pause
   * counter goes up, whether or not the view already had focus and a pause.
   */
  method Focus(r: Registry, id: ViewId, pauseGame: bool) returns (ok: bool)
    requires r.Valid()
    modifies r`views, r`numPausesGame
    ensures r.Valid()
    ensures ok <==> !r.consoleOpen && id in old(r.views) && old(r.views)[id].engine.Some? && !old(r.views)[id].isHidden
    ensures !ok ==> r.views == old(r.views) && r.numPausesGame == old(r.numPausesGame)
    ensures ok ==>
      r.views.Keys == old(r.views).Keys &&
      ViewManager.FocusHolders(r.views) == {id} &&
      r.views[id] == old(r.views)[id].(engine := Some(old(r.views)[id].engine.value.(focused := true)),
                                       isPaused := old(r.views)[id].isPaused || pauseGame) &&
      (forall w :: w in old(r.views) && w != id && !EngineFocused(old(r.views)[w]) ==> r.views[w] == old(r.views)[w])
    ensures ok && ViewManager.FocusHolders(old(r.views)) <= {id} ==>
      r.numPausesGame == old(r.numPausesGame) + (if pauseGame then 1 else 0)
    ensures ok ==> forall w :: w in ViewManager.FocusHolders(old(r.views)) && w != id ==>
      var released := ViewManager.ReleaseFocus(old(r.views)[w], old(r.numPausesGame));
      r.views[w] == released.0 && r.numPausesGame == released.1 + (if pauseGame then 1 else 0)
  {
    if r.consoleOpen {
      return false;
    }
    if !(id in r.views && r.views[id].engine.Some?) {
      return false;
    }
    if r.views[id].isHidden {
      return false;
    }
    var others := ViewManager.FocusedOthers(r, id);
    assert others != [] ==> others[0] in ViewManager.FocusHolders(r.views) && others[0] != id;
    ghost var before := r.views;
    ghost var countBefore := r.numPausesGame;
    var j := 0;
    while j < |others|
      invariant 0 <= j <= |others| <= 1
      invariant r.Valid()
      invariant j == 0 ==> r.views == before && r.numPausesGame == countBefore
      invariant j == 1 ==> var released := ViewManager.ReleaseFocus(before[others[0]], countBefore);
        r.views == before[others[0] := released.0] && r.numPausesGame == released.1
    {
      ReleasePauseThenUnfocus(r.views[others[j]], r.numPausesGame);
      Unfocus(r, others[j]);
      j := j + 1;
    }
    ViewManager.GrantFocus(r, id, pauseGame);
    return true;
  }

  /**
   * As written, focusing a view twice with `pauseGame` and then unfocusing
   * it leaves the host's pause counter one above where it started, while no
   * view holds a pause any more: the game stays paused with nothing left to
   * release it.
   */
  method PauseLeaks(r: Registry, id: ViewId)
    requires r.Valid() && !r.consoleOpen
    requires id in r.views && r.views[id].engine.Some? && !r.views[id].isHidden
    requires ViewManager.FocusHolders(r.views) <= {id}
    modifies r`views, r`numPausesGame
    ensures r.numPausesGame == old(r.numPausesGame) + 1
    ensures r.views.Keys == old(r.views).Keys && forall w :: w in r.views ==> !r.views[w].isPaused || old(r.views)[w].isPaused
    ensures !r.views[id].isPaused
  {
    var first := Focus(r, id, true);
    assert ViewManager.FocusHolders(r.views) == {id};
    var second := Focus(r, id, true);
    Unfocus(r, id);
  }

  /**
   * With the newer `Focus`, which refuses a view that already has focus, the
   * same sequence leaves the counter where it started, for a view that held
   * no pause to begin with.
   */
  method PauseBalanced(r: Registry, id: ViewId)
    requires r.Valid() && !r.consoleOpen
    requires id in r.views && r.views[id].engine.Some? && !r.views[id].isHidden && !r.views[id].isPaused
    requires ViewManager.FocusHolders(r.views) <= {id}
    modifies r`views, r`numPausesGame
    ensures r.numPausesGame == old(r.numPausesGame)
    ensures r.views.Keys == old(r.views).Keys && !r.views[id].isPaused
  {
    var first := ViewManager.Focus(r, id, true);
    assert ViewManager.FocusHolders(r.views) == {id};
    var second := ViewManager.Focus(r, id, true);
    assert !second;
    ViewManager.Unfocus(r, id);
  }
}
