/**
 * The engine's GPU driver on the host's Direct3D 11 device: three id-keyed
 * resource tables (textures, render buffers, geometry), their id counters,
 * the command list handed over by the engine, and the replay of that list
 * against the device context with the context's bindings saved and restored.
 *
 * Device objects are opaque handles; whether the device manages to create
 * one is a parameter (`None` is a failed HRESULT). The context's bindings
 * are an abstract record of handles and integers.
 */
module GPUDriver {
  import opened Types

  // ----- engine-side inputs -----

  datatype BitmapFormat = A8Unorm | Bgra8UnormSrgb

  /** An engine bitmap; it is "empty" when it carries no pixel data (a render-target texture). */
  datatype Bitmap = Bitmap(width: u32, height: u32, format: BitmapFormat, pixels: seq<byte>)

  datatype VertexFormat = Format2f4ub2f | Format2f4ub2f2f28f

  datatype ShaderType = Fill | FillPath

  datatype Rect = Rect(left: int, top: int, right: int, bottom: int)

  /** The part of the engine's `GPUState` the driver reads. */
  datatype GpuState = GpuState(
    renderBufferId: u32,
    viewportWidth: u32,
    viewportHeight: u32,
    shader: ShaderType,
    texture1: u32,
    texture2: u32,
    texture3: u32,
    enableBlend: bool,
    enableScissor: bool,
    scissorRect: Rect)

  datatype CommandType = ClearRenderBufferCommand | DrawGeometryCommand

  datatype Command = Command(kind: CommandType, geometryId: u32, indicesCount: u32, indicesOffset: u32, state: GpuState)

  // ----- resource tables -----

  datatype Usage = UsageDefault | UsageDynamic

  /** What `CreateTexture2D` was asked for. */
  datatype TextureDesc = TextureDesc(
    width: u32,
    height: u32,
    format: BitmapFormat,
    usage: Usage,
    bindRenderTarget: bool,
    bindShaderResource: bool,
    cpuWrite: bool)

  datatype TextureEntry = TextureEntry(texture: Handle, srv: Handle, desc: TextureDesc, contents: seq<byte>)

  /** A render buffer whose view creation failed keeps its entry with no view. */
  datatype RenderTargetEntry = RenderTargetEntry(view: Option<Handle>)

  /** Buffer creation results are not checked, so either buffer may be missing. */
  datatype GeometryEntry = GeometryEntry(
    format: VertexFormat,
    vertexBuffer: Option<Handle>,
    indexBuffer: Option<Handle>,
    vertices: seq<byte>,
    indices: seq<byte>)

  // ----- the device context -----

  /** The bindings of the immediate context that a draw can change. */
  datatype PipelineState = PipelineState(
    renderTarget: Option<Handle>,
    depthStencilView: Option<Handle>,
    blend: Option<Handle>,
    blendFactor: nat,
    sampleMask: nat,
    depthStencil: Option<Handle>,
    stencilRef: nat,
    rasterizer: Option<Handle>,
    inputLayout: Option<Handle>,
    topology: nat,
    vertexBuffer: Option<Handle>,
    vertexStride: nat,
    vertexOffset: nat,
    indexBuffer: Option<Handle>,
    indexFormat: nat,
    indexOffset: nat,
    vertexShader: Option<Handle>,
    pixelShader: Option<Handle>,
    sampler: Option<Handle>,
    vsConstants: Option<Handle>,
    psConstants: Option<Handle>,
    viewport: (nat, nat),
    psResources: seq<Option<Handle>>,
    scissor: Option<Rect>)

  /** The bindings `DrawCommandList` saves before replaying and puts back afterwards. */
  datatype SavedState = SavedState(
    renderTarget: Option<Handle>,
    depthStencilView: Option<Handle>,
    blend: Option<Handle>,
    blendFactor: nat,
    sampleMask: nat,
    depthStencil: Option<Handle>,
    stencilRef: nat,
    rasterizer: Option<Handle>,
    inputLayout: Option<Handle>,
    topology: nat,
    vertexBuffer: Option<Handle>,
    vertexStride: nat,
    vertexOffset: nat,
    indexBuffer: Option<Handle>,
    indexFormat: nat,
    indexOffset: nat,
    vertexShader: Option<Handle>,
    pixelShader: Option<Handle>,
    sampler: Option<Handle>,
    vsConstants: Option<Handle>,
    psConstants: Option<Handle>,
    viewport: (nat, nat))

  function Saved(p: PipelineState): SavedState {
    SavedState(p.renderTarget, p.depthStencilView, p.blend, p.blendFactor, p.sampleMask,
      p.depthStencil, p.stencilRef, p.rasterizer, p.inputLayout, p.topology,
      p.vertexBuffer, p.vertexStride, p.vertexOffset, p.indexBuffer, p.indexFormat, p.indexOffset,
      p.vertexShader, p.pixelShader, p.sampler, p.vsConstants, p.psConstants, p.viewport)
  }

  /** Puts the saved bindings back; shader resources and scissor rectangles are not part of them. */
  function Restore(p: PipelineState, s: SavedState): (r: PipelineState)
    ensures Saved(r) == s
    ensures r.psResources == p.psResources && r.scissor == p.scissor
  {
    p.(renderTarget := s.renderTarget, depthStencilView := s.depthStencilView, blend := s.blend,
       blendFactor := s.blendFactor, sampleMask := s.sampleMask, depthStencil := s.depthStencil,
       stencilRef := s.stencilRef, rasterizer := s.rasterizer, inputLayout := s.inputLayout,
       topology := s.topology, vertexBuffer := s.vertexBuffer, vertexStride := s.vertexStride,
       vertexOffset := s.vertexOffset, indexBuffer := s.indexBuffer, indexFormat := s.indexFormat,
       indexOffset := s.indexOffset, vertexShader := s.vertexShader, pixelShader := s.pixelShader,
       sampler := s.sampler, vsConstants := s.vsConstants, psConstants := s.psConstants,
       viewport := s.viewport)
  }

  /** Device objects the driver creates once, at construction or on first use. */
  datatype DriverObjects = DriverObjects(
    blendNormal: Handle,
    rasterizerScissor: Handle,
    rasterizerNoScissor: Handle,
    sampler: Handle,
    constantBuffer: Handle,
    layout2f4ub2f: Handle,
    layout2f4ub2f2f28f: Handle,
    fillVs: Handle,
    fillPs: Handle,
    fillPathVs: Handle,
    fillPathPs: Handle)

  /** What reached the device context, in order. */
  datatype GpuCall =
    | DrawIndexed(geometryId: u32, target: Handle, indicesCount: u32, indicesOffset: u32)
    | ClearTarget(target: Handle)

  const TRIANGLE_LIST: nat := 4
  const R32_UINT: nat := 42
  const FULL_SAMPLE_MASK: nat := 0xFFFF_FFFF
  const STRIDE_2F_4UB_2F: nat := 20
  const STRIDE_2F_4UB_2F_2F_28F: nat := 140

  /** `GetRenderTargetView`: the view of a render buffer, absent for an unknown id or a failed view. */
  function RenderTargetView(targets: map<u32, RenderTargetEntry>, id: u32): (v: Option<Handle>)
    ensures v.Some? <==> id in targets && targets[id].view.Some?
  {
    if id in targets then targets[id].view else None
  }

  /** `BindTexture` on one slot: unknown textures leave the slot as it was. */
  function BindSlot(resources: seq<Option<Handle>>, slot: nat, textures: map<u32, TextureEntry>, id: u32): (r: seq<Option<Handle>>)
    requires slot < 3
    ensures |r| == if |resources| > slot then |resources| else slot + 1
    ensures id == 0 || id !in textures ==> forall i :: 0 <= i < |resources| ==> r[i] == resources[i]
    ensures id != 0 && id in textures ==> r[slot] == Some(textures[id].srv)
  {
    if id == 0 || id !in textures then
      (if |resources| > slot then resources else resources + seq(slot + 1 - |resources|, _ => None))
    else if |resources| > slot then resources[slot := Some(textures[id].srv)]
    else (resources + seq(slot - |resources|, _ => None)) + [Some(textures[id].srv)]
  }

  /**
   * The context after `DrawGeometry` on an existing target: target bound
   * without a depth buffer, viewport, geometry (if known), shaders, the
   * textures, sampler, blend, rasterizer and constant buffers.
   */
  function DrawState(p: PipelineState, target: Handle, cmd: Command, objects: DriverObjects,
                     textures: map<u32, TextureEntry>, geometry: map<u32, GeometryEntry>): PipelineState
  {
    var s := cmd.state;
    var p1 := p.(renderTarget := Some(target), depthStencilView := None,
                 viewport := (s.viewportWidth as nat, s.viewportHeight as nat));
    var p2 :=
      if cmd.geometryId in geometry then
        var g := geometry[cmd.geometryId];
        p1.(vertexBuffer := g.vertexBuffer, vertexOffset := 0,
            vertexStride := if g.format == Format2f4ub2f then STRIDE_2F_4UB_2F else STRIDE_2F_4UB_2F_2F_28F,
            indexBuffer := g.indexBuffer, indexFormat := R32_UINT, indexOffset := 0,
            topology := TRIANGLE_LIST,
            inputLayout := Some(if g.format == Format2f4ub2f then objects.layout2f4ub2f else objects.layout2f4ub2f2f28f))
      else p1;
    var p3 :=
      if s.shader == Fill then p2.(vertexShader := Some(objects.fillVs), pixelShader := Some(objects.fillPs))
      else p2.(vertexShader := Some(objects.fillPathVs), pixelShader := Some(objects.fillPathPs));
    var res := BindSlot(BindSlot(BindSlot(p3.psResources, 0, textures, s.texture1), 1, textures, s.texture2), 2, textures, s.texture3);
    p3.(psResources := res,
        sampler := Some(objects.sampler),
        blend := if s.enableBlend then Some(objects.blendNormal) else None,
        sampleMask := FULL_SAMPLE_MASK,
        rasterizer := Some(if s.enableScissor then objects.rasterizerScissor else objects.rasterizerNoScissor),
        scissor := if s.enableScissor then Some(s.scissorRect) else p3.scissor,
        vsConstants := Some(objects.constantBuffer),
        psConstants := Some(objects.constantBuffer))
  }

  /**
   * Replaying a list of commands: the context afterwards and the calls that
   * reached it. A command whose render buffer has no view does nothing.
   */
  function Replay(p: PipelineState, list: seq<Command>, objects: DriverObjects,
                  textures: map<u32, TextureEntry>, targets: map<u32, RenderTargetEntry>,
                  geometry: map<u32, GeometryEntry>): (r: (PipelineState, seq<GpuCall>))
    decreases |list|
  {
    if list == [] then (p, [])
    else
      var prev := Replay(p, list[..|list| - 1], objects, textures, targets, geometry);
      var cmd := list[|list| - 1];
      var target := RenderTargetView(targets, cmd.state.renderBufferId);
      if target.None? then prev
      else if cmd.kind == DrawGeometryCommand then
        (DrawState(prev.0, target.value, cmd, objects, textures, geometry),
         prev.1 + [DrawIndexed(cmd.geometryId, target.value, cmd.indicesCount, cmd.indicesOffset)])
      else (prev.0, prev.1 + [ClearTarget(target.value)])
  }

  /** The calls a list produces: one per command whose render buffer has a view, in list order. */
  function Issued(list: seq<Command>, targets: map<u32, RenderTargetEntry>): seq<GpuCall>
  {
    if list == [] then []
    else
      var cmd := list[0];
      var target := RenderTargetView(targets, cmd.state.renderBufferId);
      (if target.None? then []
       else if cmd.kind == DrawGeometryCommand then [DrawIndexed(cmd.geometryId, target.value, cmd.indicesCount, cmd.indicesOffset)]
       else [ClearTarget(target.value)])
      + Issued(list[1..], targets)
  }

  lemma {:induction false} IssuedAppend(a: seq<Command>, b: seq<Command>, targets: map<u32, RenderTargetEntry>)
    ensures Issued(a + b, targets) == Issued(a, targets) + Issued(b, targets)
    decreases |a|
  {
    if a == [] {
      assert a + b == b;
    } else {
      IssuedAppend(a[1..], b, targets);
      assert (a + b)[1..] == a[1..] + b;
    }
  }

  /**
   * The calls of a replay are the commands in list order, each turned into
   * its draw or clear, with the commands against a missing render target
   * left out; the context ends up differing from the start only by what
   * those draws bound.
   */
  lemma {:induction false} ReplayIssuesInOrder(p: PipelineState, list: seq<Command>, objects: DriverObjects,
                                               textures: map<u32, TextureEntry>, targets: map<u32, RenderTargetEntry>,
                                               geometry: map<u32, GeometryEntry>)
    ensures Replay(p, list, objects, textures, targets, geometry).1 == Issued(list, targets)
    decreases |list|
  {
    if list != [] {
      var init := list[..|list| - 1];
      var last := list[|list| - 1];
      ReplayIssuesInOrder(p, init, objects, textures, targets, geometry);
      IssuedAppend(init, [last], targets);
      assert init + [last] == list;
    }
  }

  /** No call reaches the context when none of the commands' render buffers has a view. */
  lemma {:induction false} ReplayWithoutTargets(p: PipelineState, list: seq<Command>, objects: DriverObjects,
                                                textures: map<u32, TextureEntry>, targets: map<u32, RenderTargetEntry>,
                                                geometry: map<u32, GeometryEntry>)
    requires forall i :: 0 <= i < |list| ==> RenderTargetView(targets, list[i].state.renderBufferId).None?
    ensures Replay(p, list, objects, textures, targets, geometry) == (p, [])
    decreases |list|
  {
    if list != [] {
      ReplayWithoutTargets(p, list[..|list| - 1], objects, textures, targets, geometry);
    }
  }

  /** The `k`-th id a counter starting at 1 hands out (counting from 0), with 32-bit wrap-around. */
  function IssuedId(k: nat): u32 {
    (k + 1) % U32_LIMIT
  }

  /** Before the counter wraps, ids start at 1 and strictly increase. */
  lemma IssuedIdsIncrease(i: nat, j: nat)
    requires i < j < U32_LIMIT - 1
    ensures 1 <= IssuedId(i) < IssuedId(j)
  {
  }

  class GPUDriver {
    var textures: map<u32, TextureEntry>
    var renderTargets: map<u32, RenderTargetEntry>
    var geometry: map<u32, GeometryEntry>
    var commandList: seq<Command>
    var nextTextureId: u32
    var nextRenderBufferId: u32
    var nextGeometryId: u32
    /** The bindings of the immediate context shared with the host renderer. */
    var context: PipelineState
    /** Draws and clears issued to the context, in order. */
    var calls: seq<GpuCall>
    const objects: DriverObjects
    ghost var texturesIssued: nat
    ghost var renderBuffersIssued: nat
    ghost var geometriesIssued: nat

    /** Each counter has handed out ids 1, 2, 3, ... in turn, wrapping at 32 bits. */
    ghost predicate Valid()
      reads this
    {
      nextTextureId == IssuedId(texturesIssued) &&
      nextRenderBufferId == IssuedId(renderBuffersIssued) &&
      nextGeometryId == IssuedId(geometriesIssued)
    }

    constructor (objects: DriverObjects, context: PipelineState)
      ensures Valid()
      ensures this.objects == objects && this.context == context
      ensures textures == map[] && renderTargets == map[] && geometry == map[] && commandList == [] && calls == []
      ensures nextTextureId == 1 && nextRenderBufferId == 1 && nextGeometryId == 1
      ensures texturesIssued == 0 && renderBuffersIssued == 0 && geometriesIssued == 0
    {
      this.objects := objects;
      this.context := context;
      textures := map[];
      renderTargets := map[];
      geometry := map[];
      commandList := [];
      calls := [];
      nextTextureId := 1;
      nextRenderBufferId := 1;
      nextGeometryId := 1;
      texturesIssued := 0;
      renderBuffersIssued := 0;
      geometriesIssued := 0;
    }

    /** `HasCommands` */
    function HasCommands(): (b: bool)
      reads this
      ensures b <==> |commandList| > 0
    {
      commandList != []
    }

    method NextTextureId() returns (id: u32)
      requires Valid()
      modifies this`nextTextureId, this`texturesIssued
      ensures Valid()
      ensures id == IssuedId(old(texturesIssued)) && texturesIssued == old(texturesIssued) + 1
    {
      id := nextTextureId;
      nextTextureId := (nextTextureId + 1) % U32_LIMIT;
      texturesIssued := texturesIssued + 1;
    }

    method NextRenderBufferId() returns (id: u32)
      requires Valid()
      modifies this`nextRenderBufferId, this`renderBuffersIssued
      ensures Valid()
      ensures id == IssuedId(old(renderBuffersIssued)) && renderBuffersIssued == old(renderBuffersIssued) + 1
    {
      id := nextRenderBufferId;
      nextRenderBufferId := (nextRenderBufferId + 1) % U32_LIMIT;
      renderBuffersIssued := renderBuffersIssued + 1;
    }

    method NextGeometryId() returns (id: u32)
      requires Valid()
      modifies this`nextGeometryId, this`geometriesIssued
      ensures Valid()
      ensures id == IssuedId(old(geometriesIssued)) && geometriesIssued == old(geometriesIssued) + 1
    {
      id := nextGeometryId;
      nextGeometryId := (nextGeometryId + 1) % U32_LIMIT;
      geometriesIssued := geometriesIssued + 1;
    }

    /**
     * `CreateTexture`: refuses a taken id; otherwise keeps an entry only when
     * both the texture and its shader-resource view were created. An empty
     * bitmap asks for a render-target texture, a filled one for a dynamic
     * texture initialised with its pixels.
     */
    method CreateTexture(id: u32, bitmap: Bitmap, created: Option<Handle>, srvCreated: Option<Handle>)
      modifies this`textures
      ensures id in old(textures) ==> textures == old(textures)
      ensures id !in old(textures) && (created.None? || srvCreated.None?) ==> textures == old(textures)
      ensures id !in old(textures) && created.Some? && srvCreated.Some? ==>
        textures == old(textures)[id := TextureEntry(created.value, srvCreated.value, TextureFor(bitmap), bitmap.pixels)]
    {
      if id in textures {
        return;
      }
      var desc := TextureFor(bitmap);
      // the entry is inserted first and erased again on either failure
      textures := textures[id := TextureEntry(0, 0, desc, [])];
      if created.None? {
        textures := textures - {id};
        return;
      }
      textures := textures[id := TextureEntry(created.value, 0, desc, bitmap.pixels)];
      if srvCreated.None? {
        textures := textures - {id};
        return;
      }
      textures := textures[id := TextureEntry(created.value, srvCreated.value, desc, bitmap.pixels)];
    }

    /** `UpdateTexture`: copies the bitmap's bytes into a known texture; unknown ids are ignored. */
    method UpdateTexture(id: u32, bitmap: Bitmap)
      modifies this`textures
      ensures textures == if id in old(textures) then old(textures)[id := old(textures)[id].(contents := bitmap.pixels)] else old(textures)
    {
      if id !in textures {
        return;
      }
      textures := textures[id := textures[id].(contents := bitmap.pixels)];
    }

    method DestroyTexture(id: u32)
      modifies this`textures
      ensures textures == old(textures) - {id}
    {
      textures := textures - {id};
    }

    /**
     * `CreateRenderBuffer`: needs an existing texture; the entry is made
     * before the view is created, so a failed view leaves an entry without one.
     */
    method CreateRenderBuffer(id: u32, textureId: u32, viewCreated: Option<Handle>)
      modifies this`renderTargets
      ensures textureId !in textures ==> renderTargets == old(renderTargets)
      ensures textureId in textures ==> renderTargets == old(renderTargets)[id := RenderTargetEntry(viewCreated)]
    {
      if textureId !in textures {
        return;
      }
      renderTargets := renderTargets[id := RenderTargetEntry(viewCreated)];
    }

    method DestroyRenderBuffer(id: u32)
      modifies this`renderTargets
      ensures renderTargets == old(renderTargets) - {id}
    {
      renderTargets := renderTargets - {id};
    }

    /** `CreateGeometry`: always stores the buffers, replacing an entry with the same id. */
    method CreateGeometry(id: u32, format: VertexFormat, vertices: seq<byte>, indices: seq<byte>,
                          vertexBuffer: Option<Handle>, indexBuffer: Option<Handle>)
      modifies this`geometry
      ensures geometry == old(geometry)[id := GeometryEntry(format, vertexBuffer, indexBuffer, vertices, indices)]
    {
      geometry := geometry[id := GeometryEntry(format, vertexBuffer, indexBuffer, vertices, indices)];
    }

    /** `UpdateGeometry`: rewrites both buffers of a known entry; unknown ids are ignored. */
    method UpdateGeometry(id: u32, vertices: seq<byte>, indices: seq<byte>)
      modifies this`geometry
      ensures geometry == if id in old(geometry) then old(geometry)[id := old(geometry)[id].(vertices := vertices, indices := indices)] else old(geometry)
    {
      if id !in geometry {
        return;
      }
      geometry := geometry[id := geometry[id].(vertices := vertices, indices := indices)];
    }

    method DestroyGeometry(id: u32)
      modifies this`geometry
      ensures geometry == old(geometry) - {id}
    {
      geometry := geometry - {id};
    }

    /** `UpdateCommandList`: the stored list becomes exactly the given one. */
    method UpdateCommandList(list: seq<Command>)
      modifies this`commandList
      ensures commandList == list
    {
      commandList := list;
    }

    /** `GetShaderResourceView` */
    method GetShaderResourceView(id: u32) returns (srv: Option<Handle>)
      ensures srv.Some? <==> id in textures
      ensures srv.Some? ==> srv.value == textures[id].srv
    {
      if id in textures {
        return Some(textures[id].srv);
      }
      return None;
    }

    /** `ClearRenderBuffer`: clears the target if the render buffer has a view. */
    method ClearRenderBuffer(id: u32)
      modifies this`calls
      ensures calls == old(calls) + (if RenderTargetView(renderTargets, id).Some? then [ClearTarget(RenderTargetView(renderTargets, id).value)] else [])
    {
      var target := RenderTargetView(renderTargets, id);
      if target.None? {
        return;
      }
      calls := calls + [ClearTarget(target.value)];
    }

    /** `DrawGeometry`: skipped when the render buffer has no view. */
    method DrawGeometry(cmd: Command)
      requires cmd.kind == DrawGeometryCommand
      modifies this`context, this`calls
      ensures var target := RenderTargetView(renderTargets, cmd.state.renderBufferId);
        if target.None? then context == old(context) && calls == old(calls)
        else context == DrawState(old(context), target.value, cmd, objects, textures, geometry) &&
             calls == old(calls) + [DrawIndexed(cmd.geometryId, target.value, cmd.indicesCount, cmd.indicesOffset)]
    {
      var target := RenderTargetView(renderTargets, cmd.state.renderBufferId);
      if target.None? {
        return;
      }
      context := DrawState(context, target.value, cmd, objects, textures, geometry);
      calls := calls + [DrawIndexed(cmd.geometryId, target.value, cmd.indicesCount, cmd.indicesOffset)];
    }

    /**
     * `DrawCommandList`: nothing on an empty list. Otherwise the list is
     * taken (the stored one is left empty), replayed in order, and every
     * saved binding is put back.
     */
    method DrawCommandList()
      modifies this`commandList, this`context, this`calls
      ensures old(commandList) == [] ==> commandList == [] && context == old(context) && calls == old(calls)
      ensures old(commandList) != [] ==>
        var r := Replay(old(context), old(commandList), objects, textures, renderTargets, geometry);
        commandList == [] &&
        context == Restore(r.0, Saved(old(context))) &&
        calls == old(calls) + r.1
      ensures Saved(context) == Saved(old(context))
    {
      if commandList == [] {
        return;
      }
      var list := commandList;
      commandList := [];
      var backup := Saved(context);
      var startCalls := calls;
      var i := 0;
      while i < |list|
        invariant 0 <= i <= |list| && commandList == []
        invariant var r := Replay(old(context), list[..i], objects, textures, renderTargets, geometry);
          context == r.0 && calls == startCalls + r.1
      {
        assert list[..i + 1][..i] == list[..i];
        var cmd := list[i];
        if cmd.kind == DrawGeometryCommand {
          DrawGeometry(cmd);
        } else {
          ClearRenderBuffer(cmd.state.renderBufferId);
        }
        i := i + 1;
      }
      assert list[..i] == list;
      context := Restore(context, backup);
    }
  }

  function TextureFor(bitmap: Bitmap): (d: TextureDesc)
    ensures d.width == bitmap.width && d.height == bitmap.height && d.format == bitmap.format
    ensures bitmap.pixels == [] ==> d.usage == UsageDefault && d.bindRenderTarget && d.bindShaderResource && !d.cpuWrite
    ensures bitmap.pixels != [] ==> d.usage == UsageDynamic && !d.bindRenderTarget && d.bindShaderResource && d.cpuWrite
  {
    if bitmap.pixels == [] then
      TextureDesc(bitmap.width, bitmap.height, bitmap.format, UsageDefault, true, true, false)
    else
      TextureDesc(bitmap.width, bitmap.height, bitmap.format, UsageDynamic, false, true, true)
  }
}
