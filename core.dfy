/**
 * The per-frame hook and the shutdown of the core. Each frame the host's
 * own present runs first; then, once the core is initialized and the host
 * graphics are usable, the engine realizes the views still waiting for an
 * engine view, and the GPU driver replays the command list the engine left
 * for it. Shutdown destroys every view and releases the global objects.
 *
 * The engine's rendering itself, input processing and the sprite-batch
 * drawing of the views and the cursor are not modelled here.
 */
module Core {
  import opened Types
  import opened CoreState
  import GPUDriver
  import ViewManager

  /** What the path of a view whose engine view could not be made is set to. */
  const CREATION_FAILED: string := "[CREATION FAILED]"

  /** The stages of one frame, in the order they run. */
  datatype FrameStep = HostPresented | ViewsSwept | CommandsDrained

  /** A view the sweep picks up: no engine view yet, and a page to load. */
  predicate Pending(v: PrismaView) {
    v.engine.None? && v.htmlPathToLoad != ""
  }

  /**
   * The sweep's effect on one record, given the host graphics and whether
   * the engine hands back a view for it: a pending view on a screen of
   * non-zero size either gets a fresh, unfocused engine view with its
   * listeners attached, loading its page (and its path is cleared), or has
   * its path set to `CREATION_FAILED`.
   */
  function Realize(v: PrismaView, g: Graphics, created: bool): (r: PrismaView)
    ensures !Pending(v) || g.screenWidth == 0 || g.screenHeight == 0 ==> r == v
    ensures Pending(v) && g.screenWidth != 0 && g.screenHeight != 0 && created ==>
      !Pending(r) && r.htmlPathToLoad == "" && r == v.(engine := r.engine, htmlPathToLoad := "") &&
      r.engine.Some? && r.engine.value.url == v.htmlPathToLoad && !r.engine.value.focused &&
      r.engine.value.listenersAttached
    ensures Pending(v) && g.screenWidth != 0 && g.screenHeight != 0 && !created ==>
      Pending(r) && r == v.(htmlPathToLoad := CREATION_FAILED)
    ensures r.id == v.id && r.scrollingPixelSize == v.scrollingPixelSize && r.pendingOperations == v.pendingOperations &&
            r.queuedOperationsCount == v.queuedOperationsCount
    ensures EngineFocused(r) ==> EngineFocused(v)
  {
    if !Pending(v) || g.screenWidth == 0 || g.screenHeight == 0 then v
    else if created then
      v.(engine := Some(EngineView(false, v.htmlPathToLoad, true, map[], false)), htmlPathToLoad := "")
    else
      v.(htmlPathToLoad := CREATION_FAILED)
  }

  /** A realized view is left alone by every later sweep. */
  lemma RealizedOnce(v: PrismaView, g: Graphics, later: Graphics, created: bool)
    requires g.screenWidth != 0 && g.screenHeight != 0
    ensures Realize(Realize(v, g, true), later, created) == Realize(v, g, true)
  {
  }

  /**
   * A failed creation keeps the view pending, and the next sweep that
   * succeeds loads `CREATION_FAILED` as the page address, not the page the
   * view was created for.
   */
  lemma RetryLoadsMarker(v: PrismaView, g: Graphics)
    requires Pending(v) && g.screenWidth != 0 && g.screenHeight != 0
    ensures var failed := Realize(v, g, false);
      Pending(failed) && Realize(failed, g, true).engine.value.url == CREATION_FAILED
  {
  }

  /** The registry after the sweep has visited the ids outside `remaining`. */
  ghost function PartlyRealized(views: map<ViewId, PrismaView>, remaining: set<ViewId>, g: Graphics,
                                created: set<ViewId>): map<ViewId, PrismaView> {
    map id | id in views :: if id in remaining then views[id] else Realize(views[id], g, id in created)
  }

  /** Visiting one more id. */
  lemma RealizeStep(views: map<ViewId, PrismaView>, remaining: set<ViewId>, g: Graphics, created: set<ViewId>, id: ViewId)
    requires id in remaining && id in views
    ensures PartlyRealized(views, remaining - {id}, g, created) ==
            PartlyRealized(views, remaining, g, created)[id := Realize(views[id], g, id in created)]
  {
  }

  /** One visit of the sweep. */
  method RealizeOne(r: Registry, id: ViewId, created: bool)
    requires r.Valid() && id in r.views
    modifies r`views
    ensures r.Valid()
    ensures r.views == old(r.views)[id := Realize(old(r.views)[id], r.graphics, created)]
  {
    var v := r.views[id];
    var w := Realize(v, r.graphics, created);
    assert ViewOk(id, w) && (EngineFocused(w) ==> EngineFocused(v));
    r.views := r.views[id := w];
  }

  /**
   * The realization sweep: collects the pending views, then gives each an
   * engine view (when `created` names it) or marks it failed; a zero screen
   * size leaves every view as it was.
   */
  method Sweep(r: Registry, created: set<ViewId>)
    requires r.Valid()
    modifies r`views
    ensures r.Valid()
    ensures r.views.Keys == old(r.views).Keys
    ensures forall id :: id in r.views ==> r.views[id] == Realize(old(r.views)[id], r.graphics, id in created)
  {
    ghost var start := r.views;
    var toInitialize := set id | id in r.views && Pending(r.views[id]);
    assert r.views == PartlyRealized(start, toInitialize, r.graphics, created);
    while toInitialize != {}
      invariant r.Valid()
      invariant toInitialize <= start.Keys
      invariant r.views == PartlyRealized(start, toInitialize, r.graphics, created)
      decreases toInitialize
    {
      var id :| id in toInitialize;
      RealizeOne(r, id, id in created);
      RealizeStep(start, toInitialize, r.graphics, created, id);
      toInitialize := toInitialize - {id};
    }
  }

  /**
   * `D3DPresent`. The host's present always runs first. Nothing more
   * happens while the core is uninitialized; graphics that are not usable
   * are picked up again (`reinit`), and if they still are not usable the
   * frame ends there. With a renderer the pending views are swept; then, if
   * there is a driver with recorded commands, the list is replayed and
   * every binding saved beforehand is back in place afterwards. The
   * engine's render pass, which in the plugin runs between the sweep and
   * the replay and refills the command list, is taken to have run before
   * the call: the list replayed is the one pending on entry.
   */
  method Present(r: Registry, reinit: Graphics, created: set<ViewId>) returns (steps: seq<FrameStep>)
    requires r.Valid()
    modifies r`views, r`graphics, r.gpuDriver
    ensures r.Valid()
    ensures |steps| >= 1 && steps[0] == HostPresented
    ensures r.views.Keys == old(r.views).Keys
    ensures !old(r.coreInitialized) ==> r.graphics == old(r.graphics)
    ensures old(r.coreInitialized) ==> r.graphics == if GraphicsReady(old(r.graphics)) then old(r.graphics) else reinit
    ensures !(r.coreInitialized && GraphicsReady(r.graphics)) ==>
      steps == [HostPresented] && r.views == old(r.views) &&
      (r.gpuDriver != null ==> r.gpuDriver.commandList == old(r.gpuDriver.commandList) &&
                               r.gpuDriver.context == old(r.gpuDriver.context) && r.gpuDriver.calls == old(r.gpuDriver.calls))
    ensures r.coreInitialized && GraphicsReady(r.graphics) ==>
      var drained := r.gpuDriver != null && old(r.gpuDriver.commandList) != [];
      steps == [HostPresented] + (if r.renderer then [ViewsSwept] else []) + (if drained then [CommandsDrained] else []) &&
      (r.renderer ==> forall id :: id in r.views ==> r.views[id] == Realize(old(r.views)[id], r.graphics, id in created)) &&
      (!r.renderer ==> r.views == old(r.views)) &&
      (r.gpuDriver != null ==>
         r.gpuDriver.commandList == [] &&
         GPUDriver.Saved(r.gpuDriver.context) == GPUDriver.Saved(old(r.gpuDriver.context))) &&
      (drained ==>
         r.gpuDriver.calls == old(r.gpuDriver.calls) +
           GPUDriver.Replay(old(r.gpuDriver.context), old(r.gpuDriver.commandList), r.gpuDriver.objects,
                            r.gpuDriver.textures, r.gpuDriver.renderTargets, r.gpuDriver.geometry).1)
    ensures r.gpuDriver != null ==>
      r.gpuDriver.textures == old(r.gpuDriver.textures) && r.gpuDriver.renderTargets == old(r.gpuDriver.renderTargets) &&
      r.gpuDriver.geometry == old(r.gpuDriver.geometry)
  {
    steps := [HostPresented];
    if !r.coreInitialized {
      return;
    }
    if !GraphicsReady(r.graphics) {
      r.graphics := reinit;
      if !GraphicsReady(r.graphics) {
        return;
      }
    }
    if r.renderer {
      Sweep(r, created);
      steps := steps + [ViewsSwept];
    }
    if r.gpuDriver != null && r.gpuDriver.HasCommands() {
      r.gpuDriver.DrawCommandList();
      steps := steps + [CommandsDrained];
    }
  }

  /**
   * `Shutdown`: every view registered at the start is destroyed in turn,
   * then the driver, the renderer and the host graphics handles are
   * dropped and the core is marked uninitialized. No view and no callback
   * is left.
   */
  method Shutdown(r: Registry)
    requires r.Valid()
    modifies r`views, r`jsCallbacks, r`numPausesGame, r`trace, r`gpuDriver, r`graphics, r`renderer, r`coreInitialized
    ensures r.Valid()
    ensures r.views == map[] && r.jsCallbacks == map[]
    ensures r.gpuDriver == null && !r.renderer && !r.coreInitialized
    ensures !r.graphics.device && !r.graphics.context && !r.graphics.window &&
            !r.graphics.spriteBatch && !r.graphics.commonStates
    ensures old(r.trace) <= r.trace
    ensures forall id :: id in old(r.views) ==>
      RemovedFromRegistry(id) in r.trace && CallbacksPurged(id) in r.trace &&
      EngineReleased(id) in r.trace && TexturesReleased(id) in r.trace
  {
    ghost var start := r.views;
    var toDestroy := r.views.Keys;
    while toDestroy != {}
      invariant r.Valid()
      invariant r.views.Keys == toDestroy
      invariant old(r.trace) <= r.trace
      invariant forall id :: id in start && id !in toDestroy ==>
        RemovedFromRegistry(id) in r.trace && CallbacksPurged(id) in r.trace &&
        EngineReleased(id) in r.trace && TexturesReleased(id) in r.trace
      decreases toDestroy
    {
      var id :| id in toDestroy;
      var _ := ViewManager.Destroy(r, id);
      toDestroy := toDestroy - {id};
    }
    assert forall k :: k in r.jsCallbacks ==> k.0 in r.views;
    assert r.jsCallbacks.Keys == {};
    r.gpuDriver := null;
    r.graphics := r.graphics.(device := false, context := false, window := false, spriteBatch := false, commonStates := false);
    r.views := map[];
    r.renderer := false;
    r.coreInitialized := false;
  }
}
