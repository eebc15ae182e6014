/**
 * The CPU staging path of the monolithic core: the engine paints into a
 * bitmap, `CopyBitmapToBuffer` copies it into the view's pixel buffer and
 * raises `newFrameReady`; on the render thread
 * `UpdateSingleTextureFromBuffer` consumes that flag once and uploads the
 * buffer into the view's dynamic texture, row by row when the texture's
 * row pitch differs from the bitmap's stride.
 *
 * A view record is a value; each step here maps a record to its next
 * state. The mapped texture memory is an array the upload writes into.
 */
module Staging {
  import opened Types
  import opened CoreState

  // ----- the upload into mapped texture memory -----

  /** `d` with the `count` bytes of `src` from `from` on written over it from `start` on. */
  function Splice(d: seq<byte>, start: nat, src: seq<byte>, from: nat, count: nat): (r: seq<byte>)
    requires start + count <= |d| && from + count <= |src|
    ensures |r| == |d|
  {
    seq(|d|, i requires 0 <= i < |d| => if start <= i < start + count then src[from + (i - start)] else d[i])
  }

  /** Inside the written range a splice holds the source bytes, in order. */
  lemma SpliceInside(d: seq<byte>, start: nat, src: seq<byte>, from: nat, count: nat, k: nat)
    requires start + count <= |d| && from + count <= |src| && k < count
    ensures Splice(d, start, src, from, count)[start + k] == src[from + k]
  {
  }

  /** Outside the written range a splice holds `d`. */
  lemma SpliceOutside(d: seq<byte>, start: nat, src: seq<byte>, from: nat, count: nat, i: nat)
    requires start + count <= |d| && from + count <= |src| && i < |d| && !(start <= i < start + count)
    ensures Splice(d, start, src, from, count)[i] == d[i]
  {
  }

  /** `n * w`, counted up row by row: the offset of row `n` in a layout of `w`-byte rows. */
  function Offset(n: nat, w: nat): (r: nat)
    decreases n
  {
    if n == 0 then 0 else Offset(n - 1, w) + w
  }

  lemma {:induction false} OffsetIsProduct(n: nat, w: nat)
    ensures Offset(n, w) == n * w
    decreases n
  {
    if n > 0 {
      OffsetIsProduct(n - 1, w);
      assert n * w == (n - 1) * w + w;
    }
  }

  lemma {:induction false} OffsetMono(a: nat, b: nat, w: nat)
    requires a <= b
    ensures Offset(a, w) <= Offset(b, w)
    decreases b
  {
    if a < b {
      OffsetMono(a, b - 1, w);
    }
  }

  lemma {:induction false} OffsetWider(n: nat, s: nat, p: nat)
    requires s <= p
    ensures Offset(n, s) <= Offset(n, p)
    decreases n
  {
    if n > 0 {
      OffsetWider(n - 1, s, p);
    }
  }

  /**
   * Mapped memory `d0` after the first `rows` rows of `pixels` (each
   * `stride` bytes, packed) were written at `pitch`-byte intervals. A row
   * that would not fit is not written; `RowsFit` rules that out.
   */
  ghost function Uploaded(d0: seq<byte>, pixels: seq<byte>, rows: nat, stride: nat, pitch: nat): (r: seq<byte>)
    ensures |r| == |d0|
    decreases rows
  {
    if rows == 0 then d0 else WriteRow(Uploaded(d0, pixels, rows - 1, stride, pitch), pixels, rows - 1, stride, pitch)
  }

  /** `d` after row `y` of `pixels` was written at `Offset(y, pitch)`, if it fits. */
  function WriteRow(d: seq<byte>, pixels: seq<byte>, y: nat, stride: nat, pitch: nat): (r: seq<byte>)
    ensures |r| == |d|
  {
    var start := Offset(y, pitch);
    var from := Offset(y, stride);
    if start + stride <= |d| && from + stride <= |pixels| then Splice(d, start, pixels, from, stride) else d
  }

  /** `rows` rows of `stride` bytes fit both the mapped memory at `pitch` intervals and the bitmap. */
  predicate RowsFit(memory: nat, bitmap: nat, rows: nat, stride: nat, pitch: nat)
  {
    stride <= pitch && Offset(rows, pitch) <= memory && Offset(rows, stride) <= bitmap
  }

  /** Row `y` of `y + 1` fitting rows lies inside both buffers. */
  lemma LastRowFits(memory: nat, bitmap: nat, y: nat, stride: nat, pitch: nat)
    requires RowsFit(memory, bitmap, y + 1, stride, pitch)
    ensures Offset(y, pitch) + stride <= memory && Offset(y, stride) + stride <= bitmap
  {
    OffsetWider(y + 1, stride, pitch);
    assert Offset(y + 1, pitch) == Offset(y, pitch) + pitch;
  }

  /** One more row: when the rows fit, the last one is written by a splice. */
  lemma UploadedStep(d0: seq<byte>, pixels: seq<byte>, y: nat, stride: nat, pitch: nat)
    requires RowsFit(|d0|, |pixels|, y + 1, stride, pitch)
    ensures Offset(y, pitch) + stride <= |d0| && Offset(y, stride) + stride <= |pixels|
    ensures Uploaded(d0, pixels, y + 1, stride, pitch) ==
      Splice(Uploaded(d0, pixels, y, stride, pitch), Offset(y, pitch), pixels, Offset(y, stride), stride)
  {
    LastRowFits(|d0|, |pixels|, y, stride, pitch);
  }

  /** Byte `x` of the last row `y` lands at `Offset(y, pitch) + x`. */
  lemma UploadedLast(d0: seq<byte>, pixels: seq<byte>, y: nat, stride: nat, pitch: nat, x: nat)
    requires RowsFit(|d0|, |pixels|, y + 1, stride, pitch) && x < stride
    ensures Offset(y, pitch) + x < |d0| && Offset(y, stride) + x < |pixels|
    ensures Uploaded(d0, pixels, y + 1, stride, pitch)[Offset(y, pitch) + x] == pixels[Offset(y, stride) + x]
  {
    LastRowFits(|d0|, |pixels|, y, stride, pitch);
    WriteRowAt(Uploaded(d0, pixels, y, stride, pitch), pixels, y, stride, pitch, x);
  }

  /** Byte `x` of a written row `y` lands at `Offset(y, pitch) + x`. */
  lemma WriteRowAt(d: seq<byte>, pixels: seq<byte>, y: nat, stride: nat, pitch: nat, x: nat)
    requires Offset(y, pitch) + stride <= |d| && Offset(y, stride) + stride <= |pixels| && x < stride
    ensures WriteRow(d, pixels, y, stride, pitch)[Offset(y, pitch) + x] == pixels[Offset(y, stride) + x]
  {
    SpliceInside(d, Offset(y, pitch), pixels, Offset(y, stride), stride, x);
  }

  /** Writing row `y` leaves every byte before it as it was. */
  lemma UploadedBelow(d0: seq<byte>, pixels: seq<byte>, y: nat, stride: nat, pitch: nat, i: nat)
    requires RowsFit(|d0|, |pixels|, y + 1, stride, pitch) && i < Offset(y, pitch)
    ensures Uploaded(d0, pixels, y + 1, stride, pitch)[i] == Uploaded(d0, pixels, y, stride, pitch)[i]
  {
    LastRowFits(|d0|, |pixels|, y, stride, pitch);
    SpliceOutside(Uploaded(d0, pixels, y, stride, pitch), Offset(y, pitch), pixels, Offset(y, stride), stride, i);
  }

  /** Fewer rows fit where more do. */
  lemma RowsFitFewer(memory: nat, bitmap: nat, rows: nat, stride: nat, pitch: nat, fewer: nat)
    requires RowsFit(memory, bitmap, rows, stride, pitch) && fewer <= rows
    ensures RowsFit(memory, bitmap, fewer, stride, pitch)
  {
    OffsetMono(fewer, rows, pitch);
    OffsetMono(fewer, rows, stride);
  }

  /** In an upload of `rows` rows, byte `x` of row `y` of the bitmap lands at `Offset(y, pitch) + x`. */
  lemma {:induction false} UploadedRowAt(d0: seq<byte>, pixels: seq<byte>, rows: nat, stride: nat, pitch: nat, y: nat, x: nat)
    requires RowsFit(|d0|, |pixels|, rows, stride, pitch) && y < rows && x < stride
    ensures Offset(y, pitch) + x < |d0| && Offset(y, stride) + x < |pixels|
    ensures Uploaded(d0, pixels, rows, stride, pitch)[Offset(y, pitch) + x] == pixels[Offset(y, stride) + x]
    decreases rows
  {
    var last := rows - 1;
    RowsFitFewer(|d0|, |pixels|, rows, stride, pitch, last + 1);
    if y == last {
      UploadedLast(d0, pixels, y, stride, pitch, x);
    } else {
      OffsetMono(y + 1, last, pitch);
      assert Offset(y + 1, pitch) == Offset(y, pitch) + pitch;
      UploadedBelow(d0, pixels, last, stride, pitch, Offset(y, pitch) + x);
      RowsFitFewer(|d0|, |pixels|, rows, stride, pitch, last);
      UploadedRowAt(d0, pixels, last, stride, pitch, y, x);
    }
  }

  /** The same, with the offsets written as products. */
  lemma UploadedRow(d0: seq<byte>, pixels: seq<byte>, height: nat, stride: nat, pitch: nat, y: nat, x: nat)
    requires stride <= pitch && height * pitch <= |d0| && height * stride <= |pixels|
    requires y < height && x < stride
    ensures y * pitch + x < |d0| && y * stride + x < |pixels|
    ensures Uploaded(d0, pixels, height, stride, pitch)[y * pitch + x] == pixels[y * stride + x]
  {
    OffsetIsProduct(height, pitch);
    OffsetIsProduct(height, stride);
    OffsetIsProduct(y, pitch);
    OffsetIsProduct(y, stride);
    UploadedRowAt(d0, pixels, height, stride, pitch, y, x);
  }

  /** An upload of `rows` rows leaves alone every byte that lies in none of the `rows` row ranges. */
  lemma {:induction false} UploadedKeepsRest(d0: seq<byte>, pixels: seq<byte>, rows: nat, stride: nat, pitch: nat, i: nat)
    requires i < |d0| && forall y :: 0 <= y < rows ==> !(Offset(y, pitch) <= i < Offset(y, pitch) + stride)
    ensures Uploaded(d0, pixels, rows, stride, pitch)[i] == d0[i]
    decreases rows
  {
    if rows > 0 {
      var last := rows - 1;
      assert !(Offset(last, pitch) <= i < Offset(last, pitch) + stride);
      var prev := Uploaded(d0, pixels, last, stride, pitch);
      var start := Offset(last, pitch);
      var from := Offset(last, stride);
      if start + stride <= |prev| && from + stride <= |pixels| {
        SpliceOutside(prev, start, pixels, from, stride, i);
      }
      UploadedKeepsRest(d0, pixels, last, stride, pitch, i);
    }
  }

  /** Two splices of adjacent ranges from the same place of the source are one splice. */
  lemma SpliceAdjacent(d: seq<byte>, src: seq<byte>, n: nat, m: nat)
    requires n + m <= |d| && n + m <= |src|
    ensures Splice(Splice(d, 0, src, 0, n), n, src, n, m) == Splice(d, 0, src, 0, n + m)
  {
  }

  /** When the pitch equals the stride, the rows form one block: the upload is a single block copy. */
  lemma {:induction false} UploadedBlock(d0: seq<byte>, pixels: seq<byte>, rows: nat, stride: nat)
    requires RowsFit(|d0|, |pixels|, rows, stride, stride)
    ensures Uploaded(d0, pixels, rows, stride, stride) == Splice(d0, 0, pixels, 0, Offset(rows, stride))
    decreases rows
  {
    if rows > 0 {
      var last := rows - 1;
      RowsFitFewer(|d0|, |pixels|, rows, stride, stride, last);
      UploadedBlock(d0, pixels, last, stride);
      UploadedStep(d0, pixels, last, stride, stride);
      SpliceAdjacent(d0, pixels, Offset(last, stride), stride);
    } else {
      assert Splice(d0, 0, pixels, 0, 0) == d0;
    }
  }

  /** `memcpy` of `count` bytes from `src[from..]` to `dest[start..]`. */
  method CopyBytes(dest: array<byte>, start: nat, src: seq<byte>, from: nat, count: nat)
    requires start + count <= dest.Length && from + count <= |src|
    modifies dest
    ensures dest[..] == Splice(old(dest[..]), start, src, from, count)
  {
    ghost var d0 := dest[..];
    var k := 0;
    while k < count
      invariant 0 <= k <= count
      invariant dest[..] == Splice(d0, start, src, from, k)
    {
      dest[start + k] := src[from + k];
      k := k + 1;
    }
  }

  /**
   * The copy at the end of `CopyPixelsToTexture`: one block copy when the
   * pitch equals the stride, otherwise one `stride`-byte copy per row at
   * `y * pitch`. Either way the mapped memory ends up as `Uploaded`.
   */
  method CopyRows(dest: array<byte>, pixels: seq<byte>, height: nat, stride: nat, pitch: nat)
    requires stride <= pitch && height * pitch <= dest.Length && height * stride <= |pixels|
    modifies dest
    ensures dest[..] == Uploaded(old(dest[..]), pixels, height, stride, pitch)
  {
    OffsetIsProduct(height, pitch);
    OffsetIsProduct(height, stride);
    if pitch == stride {
      CopyBlock(dest, pixels, height, stride);
    } else {
      CopyRowByRow(dest, pixels, height, stride, pitch);
    }
  }

  /** The block copy of `height * stride` bytes. */
  method CopyBlock(dest: array<byte>, pixels: seq<byte>, height: nat, stride: nat)
    requires RowsFit(dest.Length, |pixels|, height, stride, stride)
    modifies dest
    ensures dest[..] == Uploaded(old(dest[..]), pixels, height, stride, stride)
  {
    ghost var d0 := dest[..];
    var size := height * stride;
    OffsetIsProduct(height, stride);
    CopyBytes(dest, 0, pixels, 0, size);
    UploadedBlock(d0, pixels, height, stride);
  }

  /** The row loop: row `y` of the bitmap is copied to `y * pitch`. */
  method CopyRowByRow(dest: array<byte>, pixels: seq<byte>, height: nat, stride: nat, pitch: nat)
    requires RowsFit(dest.Length, |pixels|, height, stride, pitch)
    modifies dest
    ensures dest[..] == Uploaded(old(dest[..]), pixels, height, stride, pitch)
  {
    ghost var d0 := dest[..];
    var y := 0;
    while y < height
      invariant 0 <= y <= height
      invariant dest[..] == Uploaded(d0, pixels, y, stride, pitch)
    {
      RowsFitFewer(dest.Length, |pixels|, height, stride, pitch, y + 1);
      UploadedStep(d0, pixels, y, stride, pitch);
      OffsetIsProduct(y, pitch);
      OffsetIsProduct(y, stride);
      CopyBytes(dest, y * pitch, pixels, y * stride, stride);
      y := y + 1;
    }
  }

  // ----- the view record: staging buffer and texture -----

  /** What the engine's bitmap surface hands over once its pixels are locked. */
  datatype Bitmap = Bitmap(pixels: seq<byte>, width: u32, height: u32, stride: u32)

  /** The locked pixel memory holds `height` rows of `stride` bytes. */
  predicate BitmapOk(b: Bitmap) {
    b.height * b.stride <= |b.pixels|
  }

  /** The staging buffer holds exactly the rows its recorded dimensions describe. */
  predicate BufferOk(v: PrismaView) {
    |v.pixelBuffer| == v.bufferHeight * v.bufferStride
  }

  /** A frame is waiting for the render thread: it is flagged ready and no release is pending. */
  predicate FrameWaiting(v: PrismaView) {
    v.newFrameReady && !v.pendingResourceRelease
  }

  /** `r` differs from `v` at most in the staging buffer, its dimensions and `newFrameReady`. */
  predicate SameButBuffer(v: PrismaView, r: PrismaView) {
    r.(pixelBuffer := v.pixelBuffer, bufferWidth := v.bufferWidth, bufferHeight := v.bufferHeight,
       bufferStride := v.bufferStride, newFrameReady := v.newFrameReady) == v
  }

  /** `r` differs from `v` at most in the texture handles and the texture's dimensions. */
  predicate SameButTexture(v: PrismaView, r: PrismaView) {
    r.(texture := v.texture, textureView := v.textureView, textureWidth := v.textureWidth,
       textureHeight := v.textureHeight) == v
  }

  /** The copy is skipped: no engine view, no lockable bitmap, or an empty one. */
  predicate CopySkipped(v: PrismaView, bitmap: Option<Bitmap>) {
    v.engine.None? || bitmap.None? ||
    bitmap.value.width == 0 || bitmap.value.height == 0 || bitmap.value.height * bitmap.value.stride == 0
  }

  /**
   * `CopyBitmapToBuffer`: the locked bitmap's `height * stride` bytes become
   * the staging buffer, its dimensions are recorded and `newFrameReady` is
   * raised. When resizing the buffer throws, the buffer is emptied, its
   * dimensions zeroed and the flag lowered. `bitmap` is `None` when the
   * surface has no bitmap or its pixels cannot be locked.
   */
  function CopyBitmapToBuffer(v: PrismaView, bitmap: Option<Bitmap>, copyThrows: bool): (r: PrismaView)
    requires bitmap.Some? ==> BitmapOk(bitmap.value)
    ensures SameButBuffer(v, r)
    ensures BufferOk(v) ==> BufferOk(r)
    ensures CopySkipped(v, bitmap) ==> r == v
    ensures !CopySkipped(v, bitmap) && copyThrows ==>
      r.pixelBuffer == [] && r.bufferWidth == 0 && r.bufferHeight == 0 && r.bufferStride == 0 && !r.newFrameReady
    ensures !CopySkipped(v, bitmap) && !copyThrows ==>
      var b := bitmap.value;
      BufferOk(r) && r.newFrameReady &&
      r.bufferWidth == b.width && r.bufferHeight == b.height && r.bufferStride == b.stride &&
      forall i :: 0 <= i < |r.pixelBuffer| ==> r.pixelBuffer[i] == b.pixels[i]
  {
    if CopySkipped(v, bitmap) then v
    else
      var b := bitmap.value;
      var size := b.height * b.stride;
      if copyThrows then
        v.(pixelBuffer := [], bufferWidth := 0, bufferHeight := 0, bufferStride := 0, newFrameReady := false)
      else
        v.(pixelBuffer := b.pixels[..size], bufferWidth := b.width, bufferHeight := b.height, bufferStride := b.stride,
           newFrameReady := true)
  }

  /** `ReleaseViewTexture`: both handles are dropped and both texture dimensions zeroed. */
  function ReleaseViewTexture(v: PrismaView): (r: PrismaView)
    ensures SameButTexture(v, r)
    ensures r.texture.None? && r.textureView.None? && r.textureWidth == 0 && r.textureHeight == 0
  {
    v.(texture := None, textureView := None, textureWidth := 0, textureHeight := 0)
  }

  /** Releasing twice is releasing once. */
  lemma ReleaseIdempotent(v: PrismaView)
    ensures ReleaseViewTexture(ReleaseViewTexture(v)) == ReleaseViewTexture(v)
  {
  }

  /** The texture can be reused as it is: it exists and has the frame's dimensions. */
  predicate TextureFits(v: PrismaView, width: u32, height: u32) {
    v.texture.Some? && v.textureWidth == width && v.textureHeight == height
  }

  /**
   * The texture half of `CopyPixelsToTexture`: an absent or wrongly sized
   * texture is released and recreated. `created` and `srv` are the device's
   * answers to the texture and shader-resource-view requests (`None` for a
   * failed call); either failure releases everything again. The flag says
   * whether there is a texture to write into.
   */
  function PrepareTexture(v: PrismaView, width: u32, height: u32, created: Option<Handle>, srv: Option<Handle>): (p: (PrismaView, bool))
    ensures SameButTexture(v, p.0)
    ensures TextureFits(v, width, height) ==> p == (v, true)
    ensures !TextureFits(v, width, height) ==> (p.1 <==> created.Some? && srv.Some?)
    ensures p.1 ==> TextureFits(p.0, width, height)
    ensures !TextureFits(v, width, height) && p.1 ==> p.0.texture == created && p.0.textureView == srv
    ensures !p.1 ==> p.0 == ReleaseViewTexture(v)
  {
    if TextureFits(v, width, height) then (v, true)
    else
      var released := ReleaseViewTexture(v);
      if created.None? then (ReleaseViewTexture(released), false)
      else
        var withTexture := released.(texture := created);
        if srv.None? then (ReleaseViewTexture(withTexture), false)
        else (withTexture.(textureView := srv, textureWidth := width, textureHeight := height), true)
  }

  /**
   * `CopyPixelsToTexture`: with a device and a non-empty frame, make sure a
   * texture of the frame's size exists, map it (`mapped` is the device's
   * answer; `pitch` and `dest` are the mapped row pitch and memory) and
   * copy the rows in.
   */
  method CopyPixelsToTexture(v: PrismaView, pixels: seq<byte>, width: u32, height: u32, stride: u32,
                             deviceReady: bool, created: Option<Handle>, srv: Option<Handle>,
                             mapped: bool, pitch: nat, dest: array<byte>)
    returns (r: PrismaView, uploaded: bool)
    requires mapped ==> stride <= pitch && height * pitch <= dest.Length && height * stride <= |pixels|
    modifies dest
    ensures !deviceReady || width == 0 || height == 0 ==> r == v && !uploaded
    ensures deviceReady && width != 0 && height != 0 ==>
      r == PrepareTexture(v, width, height, created, srv).0 &&
      (uploaded <==> PrepareTexture(v, width, height, created, srv).1 && mapped)
    ensures uploaded ==> dest[..] == Uploaded(old(dest[..]), pixels, height, stride, pitch)
    ensures !uploaded ==> dest[..] == old(dest[..])
  {
    if !deviceReady || width == 0 || height == 0 {
      return v, false;
    }
    var prepared := PrepareTexture(v, width, height, created, srv);
    r := prepared.0;
    if !prepared.1 || !mapped {
      return r, false;
    }
    CopyRows(dest, pixels, height, stride, pitch);
    uploaded := true;
  }

  /**
   * `UpdateSingleTextureFromBuffer`: a pending release drops the texture,
   * clears the request and uploads nothing. Otherwise the frame flag is
   * consumed (true to false) and, when it was set and the buffer holds a
   * frame, the buffer is copied into the texture.
   */
  method UpdateSingleTextureFromBuffer(v: PrismaView, deviceReady: bool, created: Option<Handle>, srv: Option<Handle>,
                                       mapped: bool, pitch: nat, dest: array<byte>)
    returns (r: PrismaView, uploaded: bool)
    requires BufferOk(v)
    requires mapped ==> v.bufferStride <= pitch && v.bufferHeight * pitch <= dest.Length
    modifies dest
    ensures BufferOk(r) && r.pixelBuffer == v.pixelBuffer
    ensures v.pendingResourceRelease ==> r == ReleaseViewTexture(v).(pendingResourceRelease := false) && !uploaded
    ensures !v.pendingResourceRelease ==> !r.newFrameReady && SameButTexture(v.(newFrameReady := false), r)
    ensures uploaded <==>
      FrameWaiting(v) && v.pixelBuffer != [] && v.bufferWidth != 0 && v.bufferHeight != 0 && deviceReady && mapped &&
      PrepareTexture(v, v.bufferWidth, v.bufferHeight, created, srv).1
    ensures uploaded ==> !FrameWaiting(r) && TextureFits(r, v.bufferWidth, v.bufferHeight)
    ensures uploaded ==> dest[..] == Uploaded(old(dest[..]), v.pixelBuffer, v.bufferHeight, v.bufferStride, pitch)
    ensures !uploaded ==> dest[..] == old(dest[..])
  {
    if v.pendingResourceRelease {
      return ReleaseViewTexture(v).(pendingResourceRelease := false), false;
    }
    if !v.newFrameReady {
      return v, false;
    }
    var w := v.(newFrameReady := false);
    if w.pixelBuffer == [] || w.bufferWidth == 0 || w.bufferHeight == 0 {
      return w, false;
    }
    r, uploaded := CopyPixelsToTexture(w, w.pixelBuffer, w.bufferWidth, w.bufferHeight, w.bufferStride,
                                       deviceReady, created, srv, mapped, pitch, dest);
  }

  /**
   * `RenderSingleView`: a realized view that has finished loading and whose
   * surface has dirty bounds gets its bitmap copied into the staging buffer,
   * and the dirty bounds are cleared.
   */
  function RenderSingleView(v: PrismaView, bitmap: Option<Bitmap>, copyThrows: bool): (r: PrismaView)
    requires bitmap.Some? ==> BitmapOk(bitmap.value)
    ensures BufferOk(v) ==> BufferOk(r)
    ensures !(v.engine.Some? && v.isLoadingFinished && v.engine.value.surfaceDirty) ==> r == v
    ensures v.engine.Some? && v.isLoadingFinished && v.engine.value.surfaceDirty ==>
      var c := CopyBitmapToBuffer(v, bitmap, copyThrows);
      r.engine == Some(v.engine.value.(surfaceDirty := false)) && r.(engine := v.engine) == c
  {
    if v.engine.Some? && v.isLoadingFinished && v.engine.value.surfaceDirty then
      var c := CopyBitmapToBuffer(v, bitmap, copyThrows);
      c.(engine := Some(c.engine.value.(surfaceDirty := false)))
    else v
  }

  /**
   * A frame the engine painted reaches the texture unchanged: after a
   * successful copy into the staging buffer, the upload of that buffer puts
   * byte `x` of bitmap row `y` at `y * pitch + x` of the mapped memory.
   */
  lemma FrameReachesTexture(v: PrismaView, b: Bitmap, r: PrismaView, d0: seq<byte>, pitch: nat, y: nat, x: nat)
    requires BitmapOk(b) && !CopySkipped(v, Some(b)) && r == CopyBitmapToBuffer(v, Some(b), false)
    requires b.stride <= pitch && b.height * pitch <= |d0| && y < b.height && x < b.stride
    ensures Landed(Uploaded(d0, r.pixelBuffer, r.bufferHeight, r.bufferStride, pitch), b.pixels, pitch, b.stride, y, x)
  {
    UploadedRow(d0, r.pixelBuffer, b.height, b.stride, pitch, y, x);
  }

  /** Byte `x` of row `y` of `src` (rows `stride` apart) sits at `y * pitch + x` of `d`. */
  predicate Landed(d: seq<byte>, src: seq<byte>, pitch: nat, stride: nat, y: nat, x: nat) {
    y * pitch + x < |d| && y * stride + x < |src| && d[y * pitch + x] == src[y * stride + x]
  }

  // ----- the per-frame passes over the registry -----

  /** The effect of the pending-release sweep on one record. */
  function Released(v: PrismaView): (r: PrismaView)
    ensures !r.pendingResourceRelease
    ensures v.pendingResourceRelease ==> r == ReleaseViewTexture(v).(pendingResourceRelease := false)
    ensures !v.pendingResourceRelease ==> r == v
  {
    if v.pendingResourceRelease then ReleaseViewTexture(v).(pendingResourceRelease := false) else v
  }

  /** The registry after the sweep has visited the ids outside `remaining`. */
  ghost function PartlyReleased(views: map<ViewId, PrismaView>, remaining: set<ViewId>): map<ViewId, PrismaView> {
    map id | id in views :: if id in remaining then views[id] else Released(views[id])
  }

  /** Visiting one more id. */
  lemma ReleaseStep(views: map<ViewId, PrismaView>, remaining: set<ViewId>, id: ViewId)
    requires id in remaining && id in views
    ensures PartlyReleased(views, remaining - {id}) == PartlyReleased(views, remaining)[id := Released(views[id])]
  {
  }

  /**
   * The pending-release sweep of `D3DPresent`: every view that asked for its
   * texture to be released has it released and the request cleared; no
   * other view changes.
   */
  method ReleasePendingTextures(r: Registry)
    requires r.Valid()
    modifies r`views
    ensures r.Valid()
    ensures r.views.Keys == old(r.views).Keys
    ensures forall id :: id in r.views ==> r.views[id] == Released(old(r.views)[id])
  {
    ghost var start := r.views;
    var pending := set id | id in r.views && r.views[id].pendingResourceRelease;
    assert r.views == PartlyReleased(start, pending);
    while pending != {}
      invariant r.Valid()
      invariant pending <= start.Keys
      invariant r.views == PartlyReleased(start, pending)
      decreases pending
    {
      var id :| id in pending;
      ReleaseOne(r, id);
      ReleaseStep(start, pending, id);
      pending := pending - {id};
    }
  }

  /** One visit of the sweep: the texture of a registered view is released and its request cleared. */
  method ReleaseOne(r: Registry, id: ViewId)
    requires r.Valid() && id in r.views
    modifies r`views
    ensures r.Valid()
    ensures r.views == old(r.views)[id := Released(old(r.views)[id])]
  {
    var v := r.views[id];
    assert EngineFocused(Released(v)) == EngineFocused(v);
    r.views := r.views[id := Released(v)];
  }

  /** `DrawViews`' filter: the view is shown, keeps its texture, and has a shader resource view. */
  predicate Drawable(v: PrismaView) {
    !v.isHidden && !v.pendingResourceRelease && v.textureView.Some?
  }

  /** `DrawViews`: the ids of exactly the views its filter admits. */
  method ViewsToDraw(r: Registry) returns (ids: set<ViewId>)
    ensures forall id :: id in ids <==> id in r.views && Drawable(r.views[id])
  {
    ids := {};
    var remaining := r.views.Keys;
    while remaining != {}
      invariant remaining <= r.views.Keys
      invariant forall id :: id in ids <==> id in r.views && id !in remaining && Drawable(r.views[id])
      decreases remaining
    {
      var id :| id in remaining;
      if Drawable(r.views[id]) {
        ids := ids + {id};
      }
      remaining := remaining - {id};
    }
  }

  /** After the sweep, a view is drawn exactly when it is shown, was not waiting for a release, and has a texture view. */
  lemma DrawnAfterSweep(v: PrismaView)
    ensures Drawable(Released(v)) <==> !v.isHidden && !v.pendingResourceRelease && v.textureView.Some?
  {
  }
}
