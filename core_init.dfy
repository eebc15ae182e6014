/**
 * `InitializeCoreSystem`: picks up the host device, and only when both the
 * device and its immediate context are there goes on to make the GPU driver
 * and the engine's renderer. Hook installation, the update timer and the
 * menu registration are host integration and are not modelled.
 */
module CoreInit {
  import opened Types
  import opened CoreState
  import GPUDriver

  /**
   * What initialization finds and makes: the host graphics after
   * `InitGraphics`, whether `Renderer::Create` returns a renderer, and the
   * device objects and context bindings the new GPU driver starts from.
   */
  datatype InitOutcome = InitOutcome(
    graphics: Graphics,
    rendererCreated: bool,
    objects: GPUDriver.DriverObjects,
    context: GPUDriver.PipelineState)

  method InitializeCoreSystem(r: Registry, outcome: InitOutcome)
    requires r.Valid()
    modifies r`graphics, r`gpuDriver, r`renderer
    ensures r.Valid()
    ensures r.graphics == outcome.graphics
    ensures !(outcome.graphics.device && outcome.graphics.context) ==>
      r.gpuDriver == old(r.gpuDriver) && r.renderer == old(r.renderer)
    ensures outcome.graphics.device && outcome.graphics.context ==>
      r.gpuDriver != null && fresh(r.gpuDriver) && r.renderer == outcome.rendererCreated &&
      r.gpuDriver.commandList == [] && r.gpuDriver.textures == map[] &&
      r.gpuDriver.renderTargets == map[] && r.gpuDriver.geometry == map[]
  {
    r.graphics := outcome.graphics;
    if !(r.graphics.device && r.graphics.context) {
      return;
    }
    r.gpuDriver := new GPUDriver.GPUDriver(outcome.objects, outcome.context);
    r.renderer := outcome.rendererCreated;
  }
}
