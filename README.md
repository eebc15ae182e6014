# PrismaUI core, modelled in Dafny

PrismaUI is an SKSE plugin that renders HTML views inside Skyrim. An
embedded web engine does the rendering, and the views are drawn over the
game through the Direct3D 11 present hook. This project models the core of
the plugin and proves properties of the model:

- **The view registry.** It is a map from 64-bit view ids to view records,
  plus the map of JavaScript listeners keyed by (view id, name). The
  game's pause counter sits beside them. `CoreState` holds the registry and
  `ViewManager` the view operations: create, show, hide, focus, unfocus,
  scroll size, order and destroy.
- **Two cores.** The newer core is the split-out `ViewManager`,
  `Communication` and `Listeners` files with the per-frame hook in
  `Core.cpp`. The older monolithic core (`Core/Core.cpp`) defines the
  `PrismaUI::Core` functions that the public API calls. `LegacyCore`
  models where its operations differ. `Staging` models its CPU-side pixel buffer, its texture upload and
  its texture release sweep.
- **Script communication.** `Communication` covers running a script, calling a
  global function, installing the native proxy functions for the registered
  listeners, and dispatching a proxy call back to its listener. `Decimal`
  models the `std::to_string`/`std::stoull` round trip of the view id
  carried by a proxy.
- **Load and DOM events.** `Listeners` models them.
- **The per-view operation queue.** `ViewOperationQueue` models it: bounded,
  first in first out, at most one operation in flight.
- **The engine thread.** `Executor` models it as a single-worker FIFO executor.
- **The GPU driver.** `GPUDriver` models the engine's driver: id issue,
  texture, render-buffer and geometry tables, and command-list replay
  with the device state saved and restored.
- **Key translation.** `SkyrimKeyHandler` covers game scan codes, and
  `WindowsKeyHandler` covers Windows virtual keys, key identifiers,
  modifiers and key events.
- **Initialization, frame and shutdown.** `CoreInit`, and `Core` for the
  present hook's realization sweep and command drain and for shutdown.
- **The exported API.** `API` is the guard layer of the exported interface.

Calls that the source hands to the engine thread and waits on run inline in
the model. Engine and device results that the plugin cannot decide appear
as parameters: whether a view or texture could be created, whether a map
succeeded, the value a script evaluated to, whether an exception was thrown.

## Model

| member | source | states |
|---|---|---|
| CoreState.NewView | src/PrismaUI/Core.h:45-71 | A new record carries its id, page and ready-callback. It is visible, unrealized, unpaused and unloaded, with scroll size 28 and order 0. It has no texture, buffer or queued operation |
| CoreState.Registry.constructor | src/PrismaUI/Core.cpp:15-35 | The core starts with no views and no listeners. It is uninitialized, with no renderer and no driver |
| CoreInit.InitializeCoreSystem | src/PrismaUI/Core.cpp:44-92 | The host graphics are recorded. With both a device and a context, a fresh driver with empty tables and an empty command list is made, and the renderer is whatever the engine gave. Without them, driver and renderer are untouched |
| ViewManager.MaxOrder | src/PrismaUI/ViewManager.cpp:36-44 | The result is at least -1 and bounds every view's order. It is attained by some view unless it is -1 |
| ViewManager.AddView | src/PrismaUI/ViewManager.cpp:24-48 | The new view is filed under its id, loading the views-folder URL of its path, with an order above every other view's; nothing else changes |
| ViewManager.Create | src/PrismaUI/ViewManager.cpp:9-53 | The first call initializes the core; if that yields no renderer it is undone (init-failed error). A later call without a renderer fails (unexpectedly-null error). Failure adds no view; success adds the view on top |
| ViewManager.IsHidden | src/PrismaUI/ViewManager.cpp:101-109 | True exactly for an unknown id or a hidden view |
| ViewManager.IsValid | src/PrismaUI/ViewManager.cpp:111-114 | True exactly for a registered id |
| ViewManager.HasFocus | src/PrismaUI/ViewManager.cpp:252-278 | True exactly when the view is registered, realized and its engine view reports focus |
| ViewManager.Show | src/PrismaUI/ViewManager.cpp:55-72 | A hidden registered view becomes visible; in every other case the registry is unchanged |
| ViewManager.Hide | src/PrismaUI/ViewManager.cpp:74-99 | A visible registered view becomes hidden and its engine view loses focus, keeping any pause; in every other case the registry is unchanged |
| ViewManager.HideKeepsPause | src/PrismaUI/ViewManager.cpp:74-99 | Focus with pause, hide, then unfocus: the counter ends one higher, and the hidden view still holds its pause with no view focused |
| ViewManager.HideReleasingFocus | src/PrismaUI/ViewManager.cpp:74-99 | A view holding focus is first released (focus, pause, counter), then hidden. Afterwards it is hidden without focus, and other views are untouched |
| ViewManager.HidePauseBalanced | src/PrismaUI/ViewManager.cpp:116-250 | Focus with pause, then the releasing hide: the counter is back where it started and the view holds no pause |
| ViewManager.FocusDropped | src/PrismaUI/ViewManager.cpp:214-216 | An engine view, if any, is kept but unfocused |
| ViewManager.ReleaseFocus | src/PrismaUI/ViewManager.cpp:203-216 | A realized view loses focus and its pause. The counter drops by one exactly when the view held a pause and the counter was positive |
| ViewManager.FocusedOthers | src/PrismaUI/ViewManager.cpp:134-152 | The list is exactly the other views whose engine view reports focus (at most one, since focus is exclusive) |
| ViewManager.GrantFocus | src/PrismaUI/ViewManager.cpp:158-178 | With no other focus holder, the view becomes the only holder, takes a pause if asked, and the counter rises by one for it |
| ViewManager.Focus | src/PrismaUI/ViewManager.cpp:116-192 | Succeeds exactly for a registered, realized, visible view without focus while the console is closed. On success the previous holder is released and the view is the only holder. Failure changes nothing |
| ViewManager.Unfocus | src/PrismaUI/ViewManager.cpp:194-250 | A view holding focus is released (focus, pause, counter); every other call changes nothing |
| ViewManager.SetScrollingPixelSize | src/PrismaUI/ViewManager.cpp:308-324 | A registered view gets the given size, or 16 when the size is not positive; an unknown id changes nothing |
| ViewManager.GetScrollingPixelSize | src/PrismaUI/ViewManager.cpp:326-334 | The view's size, 28 for an unknown id; always positive |
| ViewManager.SetOrder | src/PrismaUI/ViewManager.cpp:478-488 | A registered view gets the order; an unknown id changes nothing |
| ViewManager.GetOrder | src/PrismaUI/ViewManager.cpp:490-498 | The view's order, -1 for an unknown id |
| ViewManager.WithoutView | src/PrismaUI/ViewManager.cpp:371-382 | Exactly the listeners of other views remain, with their data |
| ViewManager.PurgeCallbacks | src/PrismaUI/ViewManager.cpp:367-388 | The listener map loses exactly the view's listeners |
| ViewManager.EngineCleanup | src/PrismaUI/ViewManager.cpp:395-418 | The engine view and the pixel buffer are gone and the loading and frame flags are cleared. The textures and the id are kept |
| ViewManager.DeviceCleanup | src/PrismaUI/ViewManager.cpp:447-473 | Texture and view are released and the release flag is cleared. The sizes are zeroed when there was something to release. The engine part is kept |
| ViewManager.AfterUnfocus | src/PrismaUI/ViewManager.cpp:344-347 | Afterwards the view has no focus and the counter has not grown; a view without focus is untouched |
| ViewManager.Detach | src/PrismaUI/ViewManager.cpp:344-388 | The view leaves the registry and its listeners are purged, after being unfocused if it held focus. The steps are recorded in that order |
| ViewManager.Destroy | src/PrismaUI/ViewManager.cpp:336-476 | An unknown id changes nothing. Otherwise the view leaves the registry and its listeners go. The unfocus, removal, purge, engine release and texture release are recorded in that order, and the detached record ends fully released |
| ViewManager.DestroyTwice | src/PrismaUI/ViewManager.cpp:336-342 | Destroying twice leaves the same registry and listener map as destroying once |
| LegacyCore.ReleasePause | src/PrismaUI/Core/Core.cpp:373-381 | The view ends unpaused; the counter drops by one exactly when a pause was held and the counter was positive |
| LegacyCore.ReleasePauseThenUnfocus | src/PrismaUI/Core/Core.cpp:370-421 | For a realized view, giving back the pause and dropping focus equals the newer core's release of a focused view |
| LegacyCore.Create | src/PrismaUI/Core/Core.cpp:109-141 | Same failure cases as the newer Create, but its initialization only takes the engine's renderer, recording no host graphics and making no GPU driver; on success the new record is filed with order 0 |
| LegacyCore.CreatedNotOnTop | src/PrismaUI/Core/Core.cpp:127-138 | With any view of positive order present, the new view is below it, so it is not added on top |
| LegacyCore.Unfocus | src/PrismaUI/Core/Core.cpp:370-421 | Any registered view gives back its pause and its engine view is unfocused; an unknown id changes nothing |
| LegacyCore.Focus | src/PrismaUI/Core/Core.cpp:297-368 | Succeeds for any registered, realized, visible view while the console is closed, even one that already has focus. The view becomes the only holder, and the counter rises again when a pause is asked for |
| LegacyCore.PauseLeaks | src/PrismaUI/Core/Core.cpp:297-421 | Focus with pause twice, then unfocus: the counter ends one higher while no view holds a pause |
| LegacyCore.PauseBalanced | src/PrismaUI/ViewManager.cpp:116-250 | The same sequence with the newer Focus leaves the counter where it was |
| Core.Realize | src/PrismaUI/Core.cpp:183-223 | A pending view on a non-zero screen either gets a fresh, unfocused engine view loading its page, with listeners attached and path cleared, or has its path set to the failure marker. Other views are unchanged |
| Core.RealizedOnce | src/PrismaUI/Core.cpp:186-190 | A realized view is never realized again |
| Core.RetryLoadsMarker | src/PrismaUI/Core.cpp:220-223 | After a failed creation the view stays pending, and the next successful creation loads the failure marker instead of the page |
| Core.RealizeOne | src/PrismaUI/Core.cpp:192-222 | One visited id is replaced by its realized record |
| Core.Sweep | src/PrismaUI/Core.cpp:183-223 | Same ids; every record is replaced by its realized form |
| Core.Present | src/PrismaUI/Core.cpp:165-284 | The host present always runs first. Nothing else happens without initialization or usable graphics. Otherwise the views are swept when there is a renderer, and pending commands are replayed with the saved device state restored. Driver tables are unchanged |
| Core.Shutdown | src/PrismaUI/Core.cpp:286-342 | Every view is destroyed (each release step is recorded) and no listener is left. Driver, renderer and graphics handles are dropped and the core is uninitialized |
| Communication.Invoke | src/PrismaUI/Communication.cpp:9-45 | The script runs exactly for a realized view. A callback, when given, receives the evaluated string, or "" when nothing was evaluated |
| Communication.InteropCall | src/PrismaUI/Communication.cpp:151-221 | Nothing is dispatched for an unknown or unrealized view. The call happens exactly when the name is a global function, with the argument unchanged |
| Communication.NotFoundMessage | src/PrismaUI/Communication.cpp:333 | The message names the callback and the view id in decimal |
| Communication.InvokeCppCallback | src/PrismaUI/Communication.cpp:223-341 | No proxy data, or an id that does not parse, dispatches nothing. Otherwise the listener is found exactly when registered, and gets the first string argument or "". A thrown exception becomes the script error; a missing listener reports the not-found message |
| Communication.Bound | src/PrismaUI/Communication.cpp:97-140 | The globals keep every name and gain a proxy for each registered listener of the view. Other globals are unchanged |
| Communication.Names | src/PrismaUI/Communication.cpp:97-104 | The names of the collected listeners |
| Communication.CollectCallbacks | src/PrismaUI/Communication.cpp:95-105 | Exactly the view's registered listeners, with their data, each name once |
| Communication.InstallProxies | src/PrismaUI/Communication.cpp:107-140 | Each collected name gets a proxy of the view; other globals are unchanged |
| Communication.BoundByNames | src/PrismaUI/Communication.cpp:95-140 | Installing proxies for the collected names gives exactly the bound globals |
| Communication.SetGlobals | src/PrismaUI/Communication.cpp:107-140 | Only the view's engine globals change |
| Communication.BindJSCallbacks | src/PrismaUI/Communication.cpp:79-148 | A realized, loaded view gets its globals bound to the registered listeners; otherwise nothing changes |
| Communication.RegisterJSListener | src/PrismaUI/Communication.cpp:47-77 | For a registered view the listener is stored (replacing one of the same name) and rebound if the page is loaded; an unknown view changes nothing |
| Communication.BoundProxyReachesCallback | src/PrismaUI/Communication.cpp:223-341 | Calling a bound proxy dispatches its listener with the argument |
| Communication.StaleProxyReportsMissing | src/PrismaUI/Communication.cpp:330-336 | A proxy whose listener is gone reports the not-found message |
| Communication.InteropCallReachesBoundCallback | src/PrismaUI/Communication.cpp:151-221 | After binding, calling a listener's name from native code reaches that listener with the argument |
| Decimal.DigitPrefixLength | src/PrismaUI/Communication.cpp:281 | The length of the leading run of digits |
| Decimal.Stoull | src/PrismaUI/Communication.cpp:281 | Invalid argument exactly when the text is empty or does not start with a digit |
| Decimal.ToStringDigits | src/PrismaUI/Communication.cpp:120 | The decimal text of a number is non-empty, all digits, without a leading zero |
| Decimal.DecimalValueOfToString | src/PrismaUI/Communication.cpp:120 | The decimal text reads back as the number |
| Decimal.StoullToString | src/PrismaUI/Communication.cpp:120-281 | Parsing the decimal text of a 64-bit view id gives the id back |
| Listeners.SetLoadingFinished | src/PrismaUI/Listeners.cpp:14-46 | Sets the loaded flag of a registered view; an unknown id changes nothing |
| Listeners.OnBeginLoading | src/PrismaUI/Listeners.cpp:14-23 | The view is marked not loaded |
| Listeners.OnFailLoading | src/PrismaUI/Listeners.cpp:37-46 | The view is marked not loaded |
| Listeners.OnFinishLoading | src/PrismaUI/Listeners.cpp:25-35 | The view is marked loaded and its listeners are bound when it is realized |
| Listeners.OnDOMReady | src/PrismaUI/Listeners.cpp:52-61 | The ready callback is called, with the view id, exactly when the view has one |
| Listeners.FinishLoadingBindsEveryCallback | src/PrismaUI/Listeners.cpp:25-35 | After a realized view finishes loading, every registered listener is callable by name |
| ViewOperationQueue.EnqueueOperation | src/PrismaUI/ViewOperationQueue.cpp:7-44 | Accepted exactly for a real operation on a registered view with fewer than 100 queued. It is appended at the back and counted. A refusal changes nothing |
| ViewOperationQueue.NextOperation | src/PrismaUI/ViewOperationQueue.cpp:62-80 | An operation is taken exactly when none is in flight and the queue is non-empty. It is the front one, and the view is then marked busy |
| ViewOperationQueue.ProcessNextOperation | src/PrismaUI/ViewOperationQueue.cpp:46-118 | A registered view takes its next operation; an unknown id dispatches nothing |
| ViewOperationQueue.ExecuteDispatched | src/PrismaUI/ViewOperationQueue.cpp:82-116 | The busy flag is cleared exactly when the view still exists |
| ViewOperationQueue.AllNext | src/PrismaUI/ViewOperationQueue.cpp:120-133 | Every view takes its next operation |
| ViewOperationQueue.AllDispatched | src/PrismaUI/ViewOperationQueue.cpp:120-133 | Exactly the views that could take an operation dispatch their front one |
| ViewOperationQueue.PassStep | src/PrismaUI/ViewOperationQueue.cpp:125-131 | Visiting one more view advances exactly that view |
| ViewOperationQueue.ProcessAllViewOperations | src/PrismaUI/ViewOperationQueue.cpp:120-133 | Every view advances by one operation at most, and the dispatched map is the front operations |
| ViewOperationQueue.ClearOperations | src/PrismaUI/ViewOperationQueue.cpp:135-165 | The queue and its count are emptied; an unknown id changes nothing |
| ViewOperationQueue.GetQueueSize | src/PrismaUI/ViewOperationQueue.cpp:167-183 | The queue length, 0 for an unknown id, never above 100 |
| ViewOperationQueue.IsProcessing | src/PrismaUI/ViewOperationQueue.cpp:185-200 | True exactly when the view exists and an operation is in flight |
| ViewOperationQueue.AtMostOneInFlight | src/PrismaUI/ViewOperationQueue.cpp:68-80 | While an operation is in flight no other is taken |
| ViewOperationQueue.Cycle | src/PrismaUI/ViewOperationQueue.cpp:46-118 | One take-and-run cycle dispatches the next operation and leaves the view idle again |
| ViewOperationQueue.DispatchesInOrder | src/PrismaUI/ViewOperationQueue.cpp:7-118 | Operations are dispatched in the order they were enqueued |
| ViewOperationQueue.EnqueuedFirstIsDispatchedNext | src/PrismaUI/ViewOperationQueue.cpp:7-80 | On an idle, empty queue the enqueued operation is the next dispatched |
| Executor.SingleThreadExecutor.constructor | src/Utils/SingleThreadExecutor.h:54-56 | Starts with no tasks and not stopping |
| Executor.SingleThreadExecutor.Submit | src/Utils/SingleThreadExecutor.h:23-42 | Rejected with the stopping message after stop; otherwise appended at the back |
| Executor.SingleThreadExecutor.Step | src/Utils/SingleThreadExecutor.h:69-86 | Runs the front task. With no task it waits, or exits when stopping |
| Executor.SingleThreadExecutor.RequestStop | src/Utils/SingleThreadExecutor.h:58-63 | Sets stop; queued tasks are kept |
| Executor.SingleThreadExecutor.Join | src/Utils/SingleThreadExecutor.h:58-86 | After stop, the worker runs every queued task in order, then exits |
| Executor.SubmitAfterStop | src/Utils/SingleThreadExecutor.h:35-37 | Submission after stop is rejected and leaves the queue unchanged |
| GPUDriver.Restore | src/PrismaUI/GPUDriver.cpp:307-394 | Restoring a saved state gives back exactly that saved state |
| GPUDriver.RenderTargetView | src/PrismaUI/GPUDriver.cpp:466-472 | A view is found exactly for a render buffer that has one |
| GPUDriver.BindSlot | src/PrismaUI/GPUDriver.cpp:161-165 | A known non-zero texture lands in its slot; otherwise the slots are unchanged |
| GPUDriver.IssuedAppend | src/PrismaUI/GPUDriver.cpp:307-394 | The calls issued for two command lists in a row are those of each, in order |
| GPUDriver.ReplayIssuesInOrder | src/PrismaUI/GPUDriver.cpp:307-394 | Replaying a list issues one clear or draw per command with a target, in list order |
| GPUDriver.ReplayWithoutTargets | src/PrismaUI/GPUDriver.cpp:257-294 | Commands without a render-target view change nothing and issue nothing |
| GPUDriver.IssuedIdsIncrease | src/PrismaUI/GPUDriver.cpp:88-92 | Issued ids start at 1 and increase strictly |
| GPUDriver.TextureFor | src/PrismaUI/GPUDriver.cpp:94-144 | Size and format come from the bitmap. An empty bitmap gives a render-target texture; a filled one gives a dynamic, CPU-writable one |
| GPUDriver.GPUDriver.constructor | src/PrismaUI/GPUDriver.cpp:44-77 | Empty tables, an empty command list and ids starting at 1 |
| GPUDriver.GPUDriver.HasCommands | src/PrismaUI/GPUDriver.h:38 | True exactly when the command list is non-empty |
| GPUDriver.GPUDriver.NextTextureId | src/PrismaUI/GPUDriver.cpp:88-92 | Returns the next issued id |
| GPUDriver.GPUDriver.NextRenderBufferId | src/PrismaUI/GPUDriver.cpp:172-176 | Returns the next issued id |
| GPUDriver.GPUDriver.NextGeometryId | src/PrismaUI/GPUDriver.cpp:215-219 | Returns the next issued id |
| GPUDriver.GPUDriver.CreateTexture | src/PrismaUI/GPUDriver.cpp:94-144 | An existing id or a failed creation changes nothing; otherwise the texture is filed with its description and contents |
| GPUDriver.GPUDriver.UpdateTexture | src/PrismaUI/GPUDriver.cpp:146-159 | A known texture gets the new contents |
| GPUDriver.GPUDriver.DestroyTexture | src/PrismaUI/GPUDriver.cpp:167-170 | The texture is removed |
| GPUDriver.GPUDriver.CreateRenderBuffer | src/PrismaUI/GPUDriver.cpp:178-199 | Filed only when its texture exists |
| GPUDriver.GPUDriver.DestroyRenderBuffer | src/PrismaUI/GPUDriver.cpp:210-213 | The render buffer is removed |
| GPUDriver.GPUDriver.CreateGeometry | src/PrismaUI/GPUDriver.cpp:221-240 | The geometry is filed with its buffers and data |
| GPUDriver.GPUDriver.UpdateGeometry | src/PrismaUI/GPUDriver.cpp:242-255 | Known geometry gets the new data |
| GPUDriver.GPUDriver.DestroyGeometry | src/PrismaUI/GPUDriver.cpp:296-299 | The geometry is removed |
| GPUDriver.GPUDriver.UpdateCommandList | src/PrismaUI/GPUDriver.cpp:301-305 | The pending list is replaced |
| GPUDriver.GPUDriver.GetShaderResourceView | src/PrismaUI/GPUDriver.cpp:396-404 | A view exactly for a known texture: its own |
| GPUDriver.GPUDriver.ClearRenderBuffer | src/PrismaUI/GPUDriver.cpp:201-208 | A clear is issued exactly when the buffer has a target view |
| GPUDriver.GPUDriver.DrawGeometry | src/PrismaUI/GPUDriver.cpp:257-294 | Without a target nothing happens; otherwise the state is set up and one indexed draw is issued |
| GPUDriver.GPUDriver.DrawCommandList | src/PrismaUI/GPUDriver.cpp:307-394 | The list is replayed and emptied, and the saved device state is back in place |
| SkyrimKeyHandler.ConvertScanCode | src/PrismaUI/KeyHandlers/SkyrimKeyHandler.cpp:6-111 | Non-zero exactly for a listed scan code. Digits, function keys and keypad keys keep their order, and the extended block maps to the navigation keys |
| WindowsKeyHandler.WinKeyToUltralightKeyAsWritten | src/PrismaUI/KeyHandlers/WindowsKeyHandler.cpp:6-142 | A listed key keeps its number; any other key is unknown |
| WindowsKeyHandler.PageKeysLostAsWritten | src/PrismaUI/KeyHandlers/WindowsKeyHandler.cpp:6-142 | Page Up/Down arrive from the game scan codes but not from Windows |
| WindowsKeyHandler.WinKeyToUltralightKeyCorrected | src/PrismaUI/KeyHandlers/WindowsKeyHandler.cpp:6-142 | The table with Page Up/Down added: a listed key, Page Up or Page Down keeps its number; any other key is unknown |
| WindowsKeyHandler.WindowsTableCoversScanCodeKeys | src/PrismaUI/KeyHandlers/WindowsKeyHandler.cpp:6-142 | Every key the scan-code table produces passes through the corrected Windows table unchanged |
| WindowsKeyHandler.ZeroPad | src/PrismaUI/KeyHandlers/WindowsKeyHandler.cpp:145-149 | Padded to the width, ending with the original text |
| WindowsKeyHandler.HexIsUpperHex | src/PrismaUI/KeyHandlers/WindowsKeyHandler.cpp:145-149 | Hex text is upper-case digits, at most 4 of them below 0x10000 |
| WindowsKeyHandler.HexValueOfHex | src/PrismaUI/KeyHandlers/WindowsKeyHandler.cpp:145-149 | Hex text reads back as the number |
| WindowsKeyHandler.GetUltralightKeyIdentifier | src/PrismaUI/KeyHandlers/WindowsKeyHandler.cpp:145-149 | "U+" followed by at least four upper-case hex digits that read back as the key taken as an unsigned 32-bit value |
| WindowsKeyHandler.PaddedHexValue | src/PrismaUI/KeyHandlers/WindowsKeyHandler.cpp:147 | Zero-padding to four digits keeps the hex digits' value |
| WindowsKeyHandler.KeyIdentifierRoundTrip | src/PrismaUI/KeyHandlers/WindowsKeyHandler.cpp:145-149 | The identifier is "U+" and four upper-case hex digits that read back as the key |
| WindowsKeyHandler.GetUltralightModifiers | src/PrismaUI/KeyHandlers/WindowsKeyHandler.cpp:152-162 | Each modifier bit is set exactly when its key is down, and no other bit is set |
| WindowsKeyHandler.CreateKeyEvent | src/PrismaUI/KeyHandlers/WindowsKeyHandler.cpp:164-190 | Type, the key translated by the table as written (so Page Up and Page Down give the unknown key 0), empty texts, modifiers, repeat and extended bits, keypad range and the Alt system-key rule |
| Staging.CopyBytes | src/PrismaUI/Core/Core.cpp:1307-1310 | The destination range holds the source bytes; the rest is untouched |
| Staging.UploadedRow | src/PrismaUI/Core/Core.cpp:1302-1311 | Every pixel of row y lands at row y of the pitched destination |
| Staging.UploadedKeepsRest | src/PrismaUI/Core/Core.cpp:1302-1311 | Bytes outside the copied rows are untouched |
| Staging.UploadedBlock | src/PrismaUI/Core/Core.cpp:1306-1308 | When pitch equals stride, the row copy equals one block copy |
| Staging.CopyRows | src/PrismaUI/Core/Core.cpp:1302-1311 | The destination holds the rows uploaded at the texture's pitch |
| Staging.CopyBlock | src/PrismaUI/Core/Core.cpp:1306-1308 | The single copy gives the row-by-row upload |
| Staging.CopyRowByRow | src/PrismaUI/Core/Core.cpp:1309-1311 | The loop gives the row-by-row upload |
| Staging.CopyBitmapToBuffer | src/PrismaUI/Core/Core.cpp:1180-1217 | Only the buffer part changes. With no engine view, no lockable bitmap or an empty one, nothing changes; a failed copy empties the buffer. Otherwise the buffer holds the bitmap's pixels and size and a frame is marked ready |
| Staging.ReleaseViewTexture | src/PrismaUI/Core/Core.cpp:1219-1225 | Texture and view are gone and the sizes are zero; nothing else changes |
| Staging.ReleaseIdempotent | src/PrismaUI/Core/Core.cpp:1219-1225 | Releasing twice is releasing once |
| Staging.PrepareTexture | src/PrismaUI/Core/Core.cpp:1257-1293 | A fitting texture is reused. Otherwise it is released and recreated, and it fits exactly when both device calls succeed |
| Staging.CopyPixelsToTexture | src/PrismaUI/Core/Core.cpp:1254-1314 | Nothing without a device or with a zero size. The pixels are uploaded at the pitch exactly when the texture is ready and mapped; otherwise the destination is untouched |
| Staging.UpdateSingleTextureFromBuffer | src/PrismaUI/Core/Core.cpp:1227-1252 | A pending release wins. Otherwise a waiting, non-empty frame is uploaded exactly when the texture is ready and mapped, and the frame flag is cleared |
| Staging.RenderSingleView | src/PrismaUI/Core/Core.cpp:1166-1178 | A realized, loaded view with a dirty surface copies its bitmap and clears the dirty flag; others are unchanged |
| Staging.FrameReachesTexture | src/PrismaUI/Core/Core.cpp:1180-1314 | A pixel of the engine's bitmap reaches its place in the texture through the buffer |
| Staging.Released | src/PrismaUI/Core/Core.cpp:1444-1453 | A view flagged for release loses its texture and the flag; others are unchanged |
| Staging.ReleaseStep | src/PrismaUI/Core/Core.cpp:1441-1454 | Visiting one more view releases exactly that view |
| Staging.ReleaseOne | src/PrismaUI/Core/Core.cpp:1444-1453 | One visited view is replaced by its released record |
| Staging.ReleasePendingTextures | src/PrismaUI/Core/Core.cpp:1431-1455 | Same ids; every view is released if it was flagged |
| Staging.ViewsToDraw | src/PrismaUI/Core/Core.cpp:1357-1371 | Exactly the visible views, not awaiting release, that have a texture view |
| Staging.DrawnAfterSweep | src/PrismaUI/Core/Core.cpp:1357-1455 | After the release sweep a view is drawn exactly when it is visible, was not flagged and has a texture view |
| API.Processed | src/Utils/Encoding.h:7-37 | Valid UTF-8 passes unchanged; otherwise the converted text is used |
| API.CreateView | src/API/API.cpp:4-26 | A null path returns 0. Otherwise the older core's Create runs; its failure escapes the noexcept function and ends the process, and success returns the new id |
| API.FailedCreateTerminates | src/API/API.cpp:4-26 | A first call whose initialization yields no renderer ends the process |
| API.CreateViewCaught | src/API/API.cpp:4-26 | 0 exactly for a null path or no renderer, with no view added; otherwise the new id, with the view registered |
| API.FailedCreateReturnsZero | src/API/API.cpp:4-26 | The same failed first call returns 0 and leaves the core uninitialized |
| API.Invoke | src/API/API.cpp:28-53 | A zero view or a null script does nothing; otherwise the converted script is run as in the core |
| API.ZeroViewNeverCallsBack | src/API/API.cpp:30-32 | A zero view never gets its callback invoked |
| API.InteropCall | src/API/API.cpp:55-71 | A zero view or a null name or argument does nothing; otherwise the core call with the converted argument |
| API.Utf8ArgumentArrivesUnchanged | src/API/API.cpp:55-71 | A valid UTF-8 argument reaches the page unchanged |
| API.RegisterJSListener | src/API/API.cpp:73-84 | Null or zero arguments or an unknown view change nothing; otherwise the listener is stored (replacing one of the same name), a realized, loaded page is rebound with the listeners at once, and any other page is left alone |
| API.HasFocus | src/API/API.cpp:86-92 | False for view 0; otherwise the core answer |
| API.Focus | src/API/API.cpp:94-100 | False for view 0. Otherwise the older core's Focus: succeeds exactly for a registered, realized, visible view while the console is closed, even one that already has focus; the view becomes the only holder, its pause flag is set when asked for, other holders give back their pause, and the counter rises by one when a pause is asked for and no other view held focus |
| API.FocusChecked | src/PrismaUI/ViewManager.cpp:116-250 | The same entry point with the already-focused check of the newer registry: succeeds exactly for a registered, realized, visible view without focus while the console is closed, leaves it the only holder and raises the counter by one for a requested pause when no view held focus |
| API.Unfocus | src/API/API.cpp:102-108 | View 0 or an unknown view does nothing. Otherwise the older core's Unfocus: any registered view gives back its pause and its engine view is unfocused |
| API.GetScrollingPixelSize | src/API/API.cpp:110-116 | The view's size, 28 for view 0 or an unknown view |
| API.SetScrollingPixelSize | src/API/API.cpp:118-124 | As in the core; view 0 does nothing |
| API.IsValid | src/API/API.cpp:126-132 | False for view 0; otherwise whether the view is registered |
| API.Destroy | src/API/API.cpp:134-140 | View 0 or an unknown view changes nothing, counter and trace included. Otherwise the view and its listeners are gone, a focused view gives back its pause, and the trace records unfocus (when focused), removal, purge, engine release and texture release in that order |

## Left out

- Threads, mutexes, atomics and futures are not modelled. Each call handed to the engine thread runs inline where the source waits on it. The executor is modelled on its own, as a queue.
- The sprite-batch drawing of views and the cursor (`DrawViews` beyond its selection, `DrawCursor`, `DrawSingleTexture`) is Direct3D and DirectXTK work with floating-point geometry. Only the choice of views to draw is modelled.
- The engine's own rendering, event processing and display refresh are outside the plugin; their outcomes are parameters.
- Input capture, the focus menu, control-map toggling, hooks, the window procedure, logging, the repeating logic runner and `OnWindowObjectReady` are left out. They affect the game and the log, not the registry.
- `ViewHasInputFocus` (ViewManager.cpp:280-306) is not modelled. It answers like `HasFocus` through a different engine query.
- `ViewRenderer`, `InputHandler` and the menu classes are not part of this model.
- The key-code header is not part of this model. The key constants use the Windows virtual-key values that the engine's codes share.
- The UTF-8 validation and ANSI conversion of `Encoding.h` call Windows APIs, so their results are parameters of `API.Processed`.
- `API.CreateView`: the view lookup after a successful `Create` always finds the new view, so the trailing `return 0` is not modelled.
- `JSCallbackDispatcher` (Core/Core.cpp:835-932) is not modelled. It is defined, but no binding installs it; both cores bind listeners to `InvokeCppCallback`.
- The older core's `Invoke`, `InteropCall`, `RegisterJSListener`, `BindJSCallbacks`, `InvokeCppCallback`, `Destroy`, `IsHidden`, `IsValid`, `HasFocus` and scroll-size functions take the same steps as the newer ones. The newer members stand for both, and the API model calls them.
- The older core's `Show` and `Hide` lack the already-visible and already-hidden checks. They are not part of the exported interface, so only the newer ones are modelled.
- Exceptions are not modelled inside `Shutdown`: no modelled `Destroy` throws.
- A null game UI singleton is not modelled; the pause counter is always present.
- ViewManager.Unfocus: the branches for an unrealized or unknown view are unreachable after the `HasFocus` guard, so they are not modelled.
- ViewManager.Create: the new order is one above the highest, with the highest taken as -1 when the registry is empty. When every existing order is below -1 the new view gets order 0, and the contract states exactly that.
- LegacyCore.Focus: the pause counter is an unbounded natural; the `size_t` wrap-around of the game's counter is not modelled.
- Decimal.Stoull: leading white space, a sign and a base other than 10 are not modelled; view ids are written by `std::to_string`, which produces none of these.
- A C string is modelled as its characters up to the first NUL; buffers read from the engine are modelled as strings directly.
- ViewManager.AddView: the new order `maxOrder + 1` is an unbounded integer; the 32-bit `int` order would wrap to its minimum once a view holds the largest order, which only `SetOrder` can give and no exported entry point calls.
- Core.Present: the engine's render pass, which refills the command list between the sweep and the replay, is taken to have run before the call, so the list replayed is the one pending on entry; the engine's rendering itself is not part of this model.
- Staging.CopyRowByRow: the 32-bit product `y * destPitch` is modelled as unbounded; the texture is at most 16384 rows of at most 65536 bytes, so it cannot wrap.
- Staging.CopyPixelsToTexture: the null-pixel check is not modelled, since pixels are a sequence. The device's pitch and mapped size are preconditions, because the device decides them.
- GPUDriver.GPUDriver.UpdateTexture: the contents are replaced wholesale; the row pitch of the mapped texture is not modelled.
- The shaders, vertex layouts, constant-buffer contents and projection matrices of the GPU driver are floating-point device state and are not modelled beyond the recorded bindings.

## Findings

| source | as written | input that shows it | evidently intended | confidence | as-written member | corrected member |
|---|---|---|---|---|---|---|
| src/PrismaUI/KeyHandlers/WindowsKeyHandler.cpp:6-142 | the Windows table has no case for `VK_PRIOR` or `VK_NEXT`, so both become unknown keys | Page Up (0x21) typed in a focused view, although the game scan code 0xC9 maps to Page Up | Page Up and Page Down pass through like the other navigation keys | medium, not executed | WindowsKeyHandler.PageKeysLostAsWritten | WindowsKeyHandler.WindowsTableCoversScanCodeKeys |
| src/PrismaUI/Core/Core.cpp:297-368 | the older `Focus`, which the API calls, does not refuse a view that already has focus | `Focus(v, true)` twice, then `Unfocus(v)`: the game's pause counter ends one higher and no view holds a pause | a second focus of a focused view is refused, as in ViewManager.cpp:116-120 | high, not executed | LegacyCore.PauseLeaks, API.Focus | LegacyCore.PauseBalanced, API.FocusChecked |
| src/API/API.cpp:4-26 | `CreateView` is `noexcept`, but the older `Create` throws when the renderer cannot be created | the first `CreateView` when the engine yields no renderer: the exception leaves a `noexcept` function and the process terminates | the failure is caught and 0 is returned, as for a null path | high, not executed | API.FailedCreateTerminates | API.FailedCreateReturnsZero |
| src/PrismaUI/ViewManager.cpp:74-99 | `Hide` of a focused view takes the engine focus away but keeps the view's pause; `Unfocus` and `Destroy` then see no focus and skip the release | `Focus(v, true)`, `Hide(v)`, `Unfocus(v)`: the game's pause counter stays one higher and the hidden view still holds its pause | a focused view is unfocused, giving back its pause, before it is hidden | medium, not executed | ViewManager.HideKeepsPause | ViewManager.HidePauseBalanced |
