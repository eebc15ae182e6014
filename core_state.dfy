/**
 * The core's shared state: the registry of views keyed by id, the table of
 * native callbacks scripts may call, the pause counter of the host UI, and
 * the handles the core keeps on the host device and the engine.
 *
 * A view record is a value (`PrismaView`) stored in the registry map; an
 * operation that changes a view writes a new record back under its key.
 * The engine's own view object is the optional `EngineView` inside the
 * record; it is `None` until the per-frame sweep realizes the view.
 */
module CoreState {
  import opened Types
  import GPUDriver

  /** `MAX_OPERATIONS_PER_VIEW`: the capacity of a view's operation queue. */
  const MAX_OPERATIONS_PER_VIEW: nat := 100
  /** The scroll step a new view starts with, and the one reported for an unknown id. */
  const DEFAULT_SCROLLING_PIXEL_SIZE: int := 28
  /** The scroll step stored when a caller asks for a step that is not positive. */
  const FALLBACK_SCROLLING_PIXEL_SIZE: int := 16

  /** The read-only `data` object a bound native function carries: its view id as text, and its name. */
  datatype ProxyData = ProxyData(viewIdText: string, name: string)

  /** A global of a page's script scope, as far as the core can tell values apart. */
  datatype Global =
    | ScriptFunction(fn: nat)                  // a function the page defined itself
    | NativeFunction(data: Option<ProxyData>)  // a function object made by `BindJSCallbacks`
    | NonFunction                              // any other value

  /** The engine's view object, once it exists. */
  datatype EngineView = EngineView(
    focused: bool,
    url: string,
    listenersAttached: bool,
    globals: map<string, Global>,
    surfaceDirty: bool)

  /** A queued view operation: an opaque task, and whether running it throws. */
  datatype Operation = Operation(task: nat, throws: bool)

  /**
   * One registry entry. The first group of fields is the record of the
   * header; the operation-queue fields at the end are the ones the queue
   * code relies on.
   */
  datatype PrismaView = PrismaView(
    id: ViewId,
    engine: Option<EngineView>,
    htmlPathToLoad: string,
    isHidden: bool,
    isLoadingFinished: bool,
    domReadyCallback: Option<nat>,
    scrollingPixelSize: int,
    isPaused: bool,
    order: int,
    texture: Option<Handle>,
    textureView: Option<Handle>,
    textureWidth: u32,
    textureHeight: u32,
    pixelBuffer: seq<byte>,
    bufferWidth: u32,
    bufferHeight: u32,
    bufferStride: u32,
    newFrameReady: bool,
    pendingResourceRelease: bool,
    pendingOperations: seq<Operation>,
    queuedOperationsCount: nat,
    isProcessingOperation: bool)

  /** A freshly made record with the header's defaults, waiting for the sweep to load `path`. */
  function NewView(id: ViewId, path: string, domReadyCallback: Option<nat>): (v: PrismaView)
    ensures v.id == id && v.htmlPathToLoad == path && v.domReadyCallback == domReadyCallback
    ensures v.engine.None? && !v.isHidden && !v.isLoadingFinished && !v.isPaused
    ensures v.scrollingPixelSize == DEFAULT_SCROLLING_PIXEL_SIZE && v.order == 0
    ensures v.texture.None? && v.textureView.None? && v.pixelBuffer == [] && !v.newFrameReady
    ensures v.pendingOperations == [] && v.queuedOperationsCount == 0 && !v.isProcessingOperation
  {
    PrismaView(id, None, path, false, false, domReadyCallback, DEFAULT_SCROLLING_PIXEL_SIZE, false, 0,
      None, None, 0, 0, [], 0, 0, 0, false, false, [], 0, false)
  }

  /** What the engine reports when asked whether a view has focus. */
  predicate EngineFocused(v: PrismaView) {
    v.engine.Some? && v.engine.value.focused
  }

  /** An entry of the native-callback table. */
  datatype JSCallbackData = JSCallbackData(viewId: ViewId, name: string, callback: nat)

  /** The host device as the core sees it after `InitGraphics`. */
  datatype Graphics = Graphics(
    device: bool,
    context: bool,
    spriteBatch: bool,
    commonStates: bool,
    window: bool,
    screenWidth: u32,
    screenHeight: u32)

  /** The condition under which a frame may draw anything. */
  predicate GraphicsReady(g: Graphics) {
    g.device && g.context && g.spriteBatch && g.commonStates && g.window && g.screenWidth != 0
  }

  /** Steps of view destruction, in the order they happen. */
  datatype Event =
    | Unfocused(id: ViewId)
    | RemovedFromRegistry(id: ViewId)
    | CallbacksPurged(id: ViewId)
    | EngineReleased(id: ViewId)
    | TexturesReleased(id: ViewId)

  class Registry {
    var views: map<ViewId, PrismaView>
    var jsCallbacks: map<(ViewId, string), JSCallbackData>
    var coreInitialized: bool
    /** Whether the engine's renderer exists. */
    var renderer: bool
    var graphics: Graphics
    var gpuDriver: GPUDriver.GPUDriver?
    /** Whether the host's console menu is open. */
    var consoleOpen: bool
    /** The host UI's count of outstanding game pauses. */
    var numPausesGame: nat
    /** The destruction steps taken so far. */
    ghost var trace: seq<Event>

    /**
     * Every entry is filed under its own id (never 0), has a positive scroll
     * step and a queue within capacity whose counter matches its length;
     * every callback is filed under its own (view id, name) and belongs to a
     * registered view; the engine
     * reports focus for at most one view.
     */
    ghost predicate Valid()
      reads this, gpuDriver
    {
      (forall id :: id in views ==> ViewOk(id, views[id])) &&
      (forall k :: k in jsCallbacks ==> k.0 in views && jsCallbacks[k].viewId == k.0 && jsCallbacks[k].name == k.1) &&
      (forall a, b :: a in views && b in views && EngineFocused(views[a]) && EngineFocused(views[b]) ==> a == b) &&
      (gpuDriver != null ==> gpuDriver.Valid())
    }

    /** The initial state: no views, no callbacks, nothing initialized. */
    constructor (consoleOpen: bool, numPausesGame: nat)
      ensures Valid()
      ensures views == map[] && jsCallbacks == map[] && !coreInitialized && !renderer && gpuDriver == null
      ensures this.consoleOpen == consoleOpen && this.numPausesGame == numPausesGame && trace == []
    {
      views := map[];
      jsCallbacks := map[];
      coreInitialized := false;
      renderer := false;
      graphics := Graphics(false, false, false, false, false, 0, 0);
      gpuDriver := null;
      this.consoleOpen := consoleOpen;
      this.numPausesGame := numPausesGame;
      trace := [];
    }
  }

  /** The per-entry part of the registry invariant. */
  predicate ViewOk(id: ViewId, v: PrismaView) {
    v.id == id && id != 0 && v.scrollingPixelSize > 0 &&
    |v.pendingOperations| <= MAX_OPERATIONS_PER_VIEW && v.queuedOperationsCount == |v.pendingOperations|
  }
}
