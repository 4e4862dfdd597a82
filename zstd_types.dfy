/**
  The plugin's buffer owner, its two context owners, and the static helpers of
  FZSTDUtils: one-shot compression and decompression into a buffer sized by the
  codec, with the level clamped into the codec's range and the embedded size
  checked before anything is allocated.

  A shared pointer is modelled as a nullable reference: an empty TSharedPtr is
  null, and a TSharedPtr that IsValid() is a non-null object. A `const void*`
  source is a nullable array with the length the caller passes beside it.
*/
module ZstdTypes {
  import opened Platform
  import opened Memory
  import opened Zstd

  const DEFAULT_COMPRESSION_LEVEL: Int32 := 3

  /** Sole owner of one heap block and its byte length (FZSTDBufferData). */
  class BufferData {
    var buffer: array?<Byte>
    var bufferSize: SizeT

    /** Either reset (no block, size 0) or owning a live block of exactly bufferSize bytes. */
    ghost predicate Valid(heap: Heap)
      reads this, heap
    {
      if buffer == null then bufferSize == 0
      else buffer.Length == bufferSize && buffer in heap.live
    }

    /** The bytes the owner holds. */
    ghost function Contents(): (bytes: seq<Byte>)
      reads this, buffer
    {
      if buffer == null then [] else buffer[..]
    }

    /** Only FZSTDUtils builds owners, from a block it has just allocated. */
    constructor (b: array<Byte>, s: SizeT)
      ensures buffer == b && bufferSize == s
    {
      buffer := b;
      bufferSize := s;
    }

    /** Frees the block if there is one; always leaves the owner empty. */
    method Reset(heap: Heap)
      requires Valid(heap)
      modifies this, heap
      ensures Valid(heap)
      ensures buffer == null && bufferSize == 0
      ensures old(buffer) != null ==>
                heap.live == old(heap.live) - {old(buffer)} &&
                heap.log == old(heap.log) + [Freed(old(bufferSize))]
      ensures old(buffer) == null ==> heap.live == old(heap.live) && heap.log == old(heap.log)
      ensures LiveBytes(heap.log) == old(LiveBytes(heap.log)) - old(bufferSize)
    {
      if buffer != null {
        heap.Free(buffer);
        buffer := null;
      }
      bufferSize := 0;
    }

    /** ~FZSTDBufferData */
    method Destroy(heap: Heap)
      requires Valid(heap)
      modifies this, heap
      ensures Valid(heap)
      ensures buffer == null && bufferSize == 0
      ensures old(buffer) != null ==>
                heap.live == old(heap.live) - {old(buffer)} &&
                heap.log == old(heap.log) + [Freed(old(bufferSize))]
      ensures old(buffer) == null ==> heap.live == old(heap.live) && heap.log == old(heap.log)
      ensures LiveBytes(heap.log) == old(LiveBytes(heap.log)) - old(bufferSize)
    {
      Reset(heap);
    }

    /**
      Copies the bytes out to the caller, then releases the block. It demands
      a block, so a second Move on the same owner is a contract violation.
    */
    method Move(heap: Heap) returns (outData: seq<Byte>)
      requires Valid(heap) && buffer != null
      modifies this, heap
      ensures |outData| == old(bufferSize)
      ensures outData == old(Contents())
      ensures Valid(heap)
      ensures buffer == null && bufferSize == 0
      ensures heap.live == old(heap.live) - {old(buffer)}
      ensures heap.log == old(heap.log) + [Freed(old(bufferSize))]
      ensures LiveBytes(heap.log) == old(LiveBytes(heap.log)) - old(bufferSize)
    {
      outData := buffer[..bufferSize];
      Reset(heap);
    }
  }

  /** Resetting an owner twice is the same as resetting it once. */
  method ResetTwice(b: BufferData, heap: Heap)
    requires b.Valid(heap)
    modifies b, heap
    ensures b.Valid(heap) && b.buffer == null && b.bufferSize == 0
    ensures old(b.buffer) != null ==>
              heap.live == old(heap.live) - {old(b.buffer)} &&
              heap.log == old(heap.log) + [Freed(old(b.bufferSize))]
    ensures old(b.buffer) == null ==> heap.live == old(heap.live) && heap.log == old(heap.log)
    ensures LiveBytes(heap.log) == old(LiveBytes(heap.log)) - old(b.bufferSize)
  {
    b.Reset(heap);
    ghost var live1, log1 := heap.live, heap.log;
    b.Reset(heap);
    assert heap.live == live1 && heap.log == log1;
  }

  /** Owner of a compression context handle (FZSTDCCtx). */
  class CCtx {
    var handle: CCtxHandle?

    constructor (h: CCtxHandle?)
      ensures handle == h
    {
      handle := h;
    }

    /** ~FZSTDCCtx: frees the handle if there is one; a null handle is left alone. */
    method Destroy(lib: Library)
      requires handle != null ==> handle in lib.liveCCtxs
      modifies lib`liveCCtxs
      ensures handle != null ==> lib.liveCCtxs == old(lib.liveCCtxs) - {handle}
      ensures handle == null ==> lib.liveCCtxs == old(lib.liveCCtxs)
    {
      if handle != null {
        lib.FreeCCtx(handle);
      }
    }
  }

  /** Owner of a decompression context handle (FZSTDDCtx). */
  class DCtx {
    var handle: DCtxHandle?

    constructor (h: DCtxHandle?)
      ensures handle == h
    {
      handle := h;
    }

    /** ~FZSTDDCtx: frees the handle if there is one; a null handle is left alone. */
    method Destroy(lib: Library)
      requires handle != null ==> handle in lib.liveDCtxs
      modifies lib`liveDCtxs
      ensures handle != null ==> lib.liveDCtxs == old(lib.liveDCtxs) - {handle}
      ensures handle == null ==> lib.liveDCtxs == old(lib.liveDCtxs)
    {
      if handle != null {
        lib.FreeDCtx(handle);
      }
    }
  }

  // ---------------------------------------------------------------------------
  // Sizes and levels

  /** The codec's highest level, the upper end of the clamp in CodecLevel. */
  function GetMaxCompressionLevel(lib: Library): (r: Int32)
    ensures r == lib.maxCLevel
  {
    lib.maxCLevel
  }

  /** The codec's worst-case compressed size: the capacity CompressDataWith allocates. */
  function GetCompressionSize(lib: Library, srcSize: SizeT): (r: SizeT)
    ensures r == lib.compressBound(srcSize)
  {
    lib.compressBound(srcSize)
  }

  /** The size embedded in the source frame, or one of the two sentinels:
      the capacity DecompressDataWith allocates when it is valid. */
  function GetDecompressionSize(lib: Library, src: array<Byte>, srcSize: SizeT): (r: SizeT)
    requires srcSize <= src.Length
    reads src
    ensures r == lib.findDecompressedSize(src[..srcSize])
  {
    lib.findDecompressedSize(src[..srcSize])
  }

  /** A probed size is usable unless it is one of the two reserved top values. */
  function IsValidDecompressionSize(size: SizeT): (valid: bool)
    ensures valid <==> size < CONTENTSIZE_ERROR
  {
    size != CONTENTSIZE_ERROR && size != CONTENTSIZE_UNKNOWN
  }

  /** FMath::Clamp: the result is one of its arguments and lies in [lo, hi] when that range is not empty. */
  function Clamp(x: int, lo: int, hi: int): (r: int)
    ensures r == x || r == lo || r == hi
    ensures lo <= hi ==> lo <= r <= hi
    ensures lo <= x <= hi ==> r == x
  {
    if x < lo then lo else if x < hi then x else hi
  }

  function Dist(a: int, b: int): (d: nat) {
    if a <= b then b - a else a - b
  }

  /** Clamping picks the in-range value nearest to the requested one. */
  lemma ClampIsNearest(x: int, lo: int, hi: int, y: int)
    requires lo <= y <= hi
    ensures Dist(Clamp(x, lo, hi), x) <= Dist(y, x)
  {
  }

  /** The level the codec receives: out-of-range requests are corrected, never rejected. */
  function CodecLevel(lib: Library, level: Int32): (r: Int32)
    ensures 1 <= lib.maxCLevel ==> 1 <= r <= lib.maxCLevel
    ensures 1 <= level <= lib.maxCLevel ==> r == level
    ensures level < 1 ==> r == 1
    ensures 1 <= lib.maxCLevel < level ==> r == lib.maxCLevel
  {
    Clamp(level, 1, GetMaxCompressionLevel(lib))
  }

  /** Correcting a level twice changes nothing more. */
  lemma CodecLevelIdempotent(lib: Library, level: Int32)
    requires 1 <= lib.maxCLevel
    ensures CodecLevel(lib, CodecLevel(lib, level)) == CodecLevel(lib, level)
  {
  }

  // ---------------------------------------------------------------------------
  // Contexts

  method CreateCCtx(lib: Library) returns (ctx: CCtx)
    modifies lib`liveCCtxs
    ensures fresh(ctx) && ctx.handle != null && fresh(ctx.handle)
    ensures lib.liveCCtxs == old(lib.liveCCtxs) + {ctx.handle}
  {
    var h := lib.CreateCCtx();
    ctx := new CCtx(h);
  }

  method CreateDCtx(lib: Library) returns (ctx: DCtx)
    modifies lib`liveDCtxs
    ensures fresh(ctx) && ctx.handle != null && fresh(ctx.handle)
    ensures lib.liveDCtxs == old(lib.liveDCtxs) + {ctx.handle}
  {
    var h := lib.CreateDCtx();
    ctx := new DCtx(h);
  }

  // ---------------------------------------------------------------------------
  // Results

  /** The first bytes of b are those the codec wrote into a destination of the
      given capacity, as far as b's length reaches. */
  ghost predicate CarriesOutput(b: array<Byte>, out: Output, capacity: nat)
    reads b
  {
    var k := Min(|Written(out, capacity)|, b.Length);
    b[..k] == out.bytes[..k]
  }

  /** A fresh owner holds a live block of the size the codec reported, filled
      with what the codec wrote; when the codec kept to its capacity and
      reported the length it wrote, the owner holds exactly its output. */
  ghost predicate Delivers(heap: Heap, result: BufferData, out: Output, capacity: nat)
    reads heap, result, result.buffer
  {
    && result.buffer != null
    && result.Valid(heap)
    && result.bufferSize == out.reported
    && CarriesOutput(result.buffer, out, capacity)
    && (|out.bytes| == out.reported <= capacity ==> result.Contents() == out.bytes)
  }

  lemma DeliversFromPrefix(heap: Heap, result: BufferData, out: Output, capacity: nat, dst: seq<Byte>)
    requires result.buffer != null && result.Valid(heap) && result.bufferSize == out.reported
    requires |Written(out, capacity)| <= |dst|
    requires dst[..|Written(out, capacity)|] == Written(out, capacity)
    requires var m := Min(out.reported, |dst|); result.buffer[..m] == dst[..m]
    ensures Delivers(heap, result, out, capacity)
  {
  }

  // ---------------------------------------------------------------------------
  // Compression

  /** The private overload on a raw ZSTD_CCtx: the level is clamped into [1, maxCLevel]. */
  method CompressWithHandle(lib: Library, cctx: CCtxHandle, src: array?<Byte>, srcSize: SizeT,
                            dst: array?<Byte>, dstSize: SizeT, level: Int32)
    returns (compressedSize: SizeT)
    requires src != null && dst != null
    requires srcSize <= src.Length && dstSize <= dst.Length && src != dst
    requires cctx in lib.liveCCtxs
    modifies lib, dst
    ensures lib.liveCCtxs == old(lib.liveCCtxs) && lib.liveDCtxs == old(lib.liveDCtxs)
    ensures compressedSize == lib.compressFrame(src[..srcSize], dstSize, CodecLevel(lib, level)).reported
    ensures dst[..] == Overwrite(old(dst[..]), Written(lib.compressFrame(src[..srcSize], dstSize, CodecLevel(lib, level)), dstSize))
    ensures lib.calls == old(lib.calls) + [CompressCall(src[..srcSize], dstSize, CodecLevel(lib, level))]
  {
    compressedSize := lib.CompressCCtx(cctx, dst, dstSize, src[..srcSize], CodecLevel(lib, level));
  }

  /**
    Compresses into a caller-supplied block of dstSize bytes; with realloc set,
    the block is then resized to the reported size and the new block returned.
  */
  method CompressInto(lib: Library, heap: Heap, ctx: CCtx?, src: array?<Byte>, srcSize: SizeT,
                      dst: array?<Byte>, dstSize: SizeT,
                      level: Int32 := DEFAULT_COMPRESSION_LEVEL, realloc: bool := false)
    returns (compressedSize: SizeT, newDst: array<Byte>)
    requires src != null && dst != null && ctx != null
    requires ctx.handle != null && ctx.handle in lib.liveCCtxs
    requires srcSize <= src.Length && dstSize <= dst.Length && src != dst
    requires realloc ==> dst in heap.live
    modifies lib, heap, dst
    ensures lib.liveCCtxs == old(lib.liveCCtxs) && lib.liveDCtxs == old(lib.liveDCtxs)
    ensures var out := lib.compressFrame(src[..srcSize], dstSize, CodecLevel(lib, level));
            && compressedSize == out.reported
            && dst[..] == Overwrite(old(dst[..]), Written(out, dstSize))
    ensures lib.calls == old(lib.calls) + [CompressCall(src[..srcSize], dstSize, CodecLevel(lib, level))]
    ensures !realloc ==> newDst == dst && heap.live == old(heap.live) && heap.log == old(heap.log)
    ensures realloc ==>
              && fresh(newDst) && newDst.Length == compressedSize
              && newDst[..Min(compressedSize, dst.Length)] == dst[..Min(compressedSize, dst.Length)]
              && heap.live == old(heap.live) - {dst} + {newDst}
              && heap.log == old(heap.log) + [Resized(dst.Length, compressedSize)]
              && LiveBytes(heap.log) == old(LiveBytes(heap.log)) + compressedSize - dst.Length
  {
    compressedSize := CompressWithHandle(lib, ctx.handle, src, srcSize, dst, dstSize, level);
    newDst := dst;
    if realloc {
      newDst := heap.Realloc(dst, compressedSize);
    }
  }

  /**
    Compresses with a caller-held context. An empty context or a null source
    gives an empty result with nothing allocated and no codec call. Otherwise
    the destination is allocated at the codec's bound, always resized to the
    reported size, and handed to a fresh owner.
  */
  method CompressDataWith(lib: Library, heap: Heap, ctx: CCtx?, src: array?<Byte>, srcSize: SizeT,
                          level: Int32 := DEFAULT_COMPRESSION_LEVEL)
    returns (result: BufferData?)
    requires src != null ==> srcSize <= src.Length
    requires ctx != null && src != null ==> ctx.handle != null && ctx.handle in lib.liveCCtxs
    modifies lib, heap
    ensures lib.liveCCtxs == old(lib.liveCCtxs) && lib.liveDCtxs == old(lib.liveDCtxs)
    ensures ctx == null || src == null ==> result == null && unchanged(lib) && unchanged(heap)
    ensures ctx != null && src != null ==>
              var bound := GetCompressionSize(lib, srcSize);
              var out := lib.compressFrame(src[..srcSize], bound, CodecLevel(lib, level));
              && result != null && fresh(result) && fresh(result.buffer)
              && Delivers(heap, result, out, bound)
              && lib.calls == old(lib.calls) + [CompressCall(src[..srcSize], bound, CodecLevel(lib, level))]
              && heap.log == old(heap.log) + [Allocated(bound), Resized(bound, out.reported)]
              && heap.live == old(heap.live) + {result.buffer}
              && LiveBytes(heap.log) == old(LiveBytes(heap.log)) + result.bufferSize
  {
    if ctx != null && src != null {
      var bound := GetCompressionSize(lib, srcSize);
      var dst := heap.Malloc(bound);
      var compressedSize, buffer := CompressInto(lib, heap, ctx, src, srcSize, dst, bound, level, true);
      result := new BufferData(buffer, compressedSize);
      DeliversFromPrefix(heap, result, lib.compressFrame(src[..srcSize], bound, CodecLevel(lib, level)), bound, dst[..]);
    } else {
      result := null;
    }
  }

  /** Compresses with a context created for this call and destroyed after it. */
  method CompressData(lib: Library, heap: Heap, src: array?<Byte>, srcSize: SizeT,
                      level: Int32 := DEFAULT_COMPRESSION_LEVEL)
    returns (result: BufferData?)
    requires src != null ==> srcSize <= src.Length
    modifies lib, heap
    ensures lib.liveCCtxs == old(lib.liveCCtxs) && lib.liveDCtxs == old(lib.liveDCtxs)
    ensures src == null ==> result == null && unchanged(lib) && unchanged(heap)
    ensures src != null ==>
              var bound := GetCompressionSize(lib, srcSize);
              var out := lib.compressFrame(src[..srcSize], bound, CodecLevel(lib, level));
              && result != null && fresh(result) && fresh(result.buffer)
              && Delivers(heap, result, out, bound)
              && lib.calls == old(lib.calls) + [CompressCall(src[..srcSize], bound, CodecLevel(lib, level))]
              && heap.log == old(heap.log) + [Allocated(bound), Resized(bound, out.reported)]
              && heap.live == old(heap.live) + {result.buffer}
              && LiveBytes(heap.log) == old(LiveBytes(heap.log)) + result.bufferSize
  {
    if src != null {
      var ctx := CreateCCtx(lib);
      result := CompressDataWith(lib, heap, ctx, src, srcSize, level);
      ctx.Destroy(lib);
    } else {
      result := null;
    }
  }

  // ---------------------------------------------------------------------------
  // Decompression

  /** The private overload on a raw ZSTD_DCtx: the capacity must be a real size. */
  method DecompressWithHandle(lib: Library, dctx: DCtxHandle, src: array?<Byte>, srcSize: SizeT,
                              dst: array?<Byte>, dstSize: SizeT)
    returns (decompressedSize: SizeT)
    requires src != null && dst != null
    requires IsValidDecompressionSize(dstSize)
    requires srcSize <= src.Length && dstSize <= dst.Length && src != dst
    requires dctx in lib.liveDCtxs
    modifies lib, dst
    ensures lib.liveCCtxs == old(lib.liveCCtxs) && lib.liveDCtxs == old(lib.liveDCtxs)
    ensures decompressedSize == lib.decompressFrame(src[..srcSize], dstSize).reported
    ensures dst[..] == Overwrite(old(dst[..]), Written(lib.decompressFrame(src[..srcSize], dstSize), dstSize))
    ensures lib.calls == old(lib.calls) + [DecompressCall(src[..srcSize], dstSize)]
  {
    decompressedSize := lib.DecompressDCtx(dctx, dst, dstSize, src[..srcSize]);
  }

  /**
    Decompresses into a caller-supplied block of dstSize bytes; with realloc
    set, the block is resized only when the reported size differs from dstSize.
  */
  method DecompressInto(lib: Library, heap: Heap, ctx: DCtx?, src: array?<Byte>, srcSize: SizeT,
                        dst: array?<Byte>, dstSize: SizeT, realloc: bool := false)
    returns (decompressedSize: SizeT, newDst: array<Byte>)
    requires src != null && dst != null && ctx != null
    requires ctx.handle != null && ctx.handle in lib.liveDCtxs
    requires IsValidDecompressionSize(dstSize)
    requires srcSize <= src.Length && dstSize <= dst.Length && src != dst
    requires realloc ==> dst in heap.live
    modifies lib, heap, dst
    ensures lib.liveCCtxs == old(lib.liveCCtxs) && lib.liveDCtxs == old(lib.liveDCtxs)
    ensures var out := lib.decompressFrame(src[..srcSize], dstSize);
            && decompressedSize == out.reported
            && dst[..] == Overwrite(old(dst[..]), Written(out, dstSize))
    ensures lib.calls == old(lib.calls) + [DecompressCall(src[..srcSize], dstSize)]
    ensures !(realloc && dstSize != decompressedSize) ==>
              newDst == dst && heap.live == old(heap.live) && heap.log == old(heap.log)
    ensures realloc && dstSize != decompressedSize ==>
              && fresh(newDst) && newDst.Length == decompressedSize
              && newDst[..Min(decompressedSize, dst.Length)] == dst[..Min(decompressedSize, dst.Length)]
              && heap.live == old(heap.live) - {dst} + {newDst}
              && heap.log == old(heap.log) + [Resized(dst.Length, decompressedSize)]
              && LiveBytes(heap.log) == old(LiveBytes(heap.log)) + decompressedSize - dst.Length
  {
    decompressedSize := DecompressWithHandle(lib, ctx.handle, src, srcSize, dst, dstSize);
    newDst := dst;
    if realloc && dstSize != decompressedSize {
      newDst := heap.Realloc(dst, decompressedSize);
    }
  }

  /**
    Decompresses with a caller-held context. An empty context, a null source or
    a probed size that is one of the two sentinels gives an empty result with
    nothing allocated and no decompression call. Otherwise exactly the probed
    size is allocated, resized only if the codec reports another size, and
    handed to a fresh owner.
  */
  method DecompressDataWith(lib: Library, heap: Heap, ctx: DCtx?, src: array?<Byte>, srcSize: SizeT)
    returns (result: BufferData?)
    requires src != null ==> srcSize <= src.Length
    requires ctx != null && src != null ==> ctx.handle != null && ctx.handle in lib.liveDCtxs
    modifies lib, heap
    ensures lib.liveCCtxs == old(lib.liveCCtxs) && lib.liveDCtxs == old(lib.liveDCtxs)
    ensures ctx == null || src == null ==> result == null && unchanged(lib) && unchanged(heap)
    ensures ctx != null && src != null && !IsValidDecompressionSize(GetDecompressionSize(lib, src, srcSize)) ==>
              result == null && unchanged(lib) && unchanged(heap)
    ensures ctx != null && src != null && IsValidDecompressionSize(GetDecompressionSize(lib, src, srcSize)) ==>
              var size := GetDecompressionSize(lib, src, srcSize);
              var out := lib.decompressFrame(src[..srcSize], size);
              && result != null && fresh(result) && fresh(result.buffer)
              && Delivers(heap, result, out, size)
              && lib.calls == old(lib.calls) + [DecompressCall(src[..srcSize], size)]
              && heap.log == old(heap.log) + [Allocated(size)]
                             + (if out.reported != size then [Resized(size, out.reported)] else [])
              && heap.live == old(heap.live) + {result.buffer}
              && LiveBytes(heap.log) == old(LiveBytes(heap.log)) + result.bufferSize
  {
    result := null;
    if ctx != null && src != null {
      var typeSize := GetDecompressionSize(lib, src, srcSize);
      if IsValidDecompressionSize(typeSize) {
        var dst := heap.Malloc(typeSize);
        var decompressedSize, buffer := DecompressInto(lib, heap, ctx, src, srcSize, dst, typeSize, true);
        result := new BufferData(buffer, decompressedSize);
        DeliversFromPrefix(heap, result, lib.decompressFrame(src[..srcSize], typeSize), typeSize, dst[..]);
      }
    }
  }

  /** Decompresses with a context created for this call and destroyed after it. */
  method DecompressData(lib: Library, heap: Heap, src: array?<Byte>, srcSize: SizeT)
    returns (result: BufferData?)
    requires src != null ==> srcSize <= src.Length
    modifies lib, heap
    ensures lib.liveCCtxs == old(lib.liveCCtxs) && lib.liveDCtxs == old(lib.liveDCtxs)
    ensures src == null ==> result == null && unchanged(lib) && unchanged(heap)
    ensures src != null && !IsValidDecompressionSize(GetDecompressionSize(lib, src, srcSize)) ==>
              result == null && unchanged(lib) && unchanged(heap)
    ensures src != null && IsValidDecompressionSize(GetDecompressionSize(lib, src, srcSize)) ==>
              var size := GetDecompressionSize(lib, src, srcSize);
              var out := lib.decompressFrame(src[..srcSize], size);
              && result != null && fresh(result) && fresh(result.buffer)
              && Delivers(heap, result, out, size)
              && lib.calls == old(lib.calls) + [DecompressCall(src[..srcSize], size)]
              && heap.log == old(heap.log) + [Allocated(size)]
                             + (if out.reported != size then [Resized(size, out.reported)] else [])
              && heap.live == old(heap.live) + {result.buffer}
              && LiveBytes(heap.log) == old(LiveBytes(heap.log)) + result.bufferSize
  {
    if src != null {
      var ctx := CreateDCtx(lib);
      result := DecompressDataWith(lib, heap, ctx, src, srcSize);
      ctx.Destroy(lib);
    } else {
      result := null;
    }
  }

  // ---------------------------------------------------------------------------
  // A caller's whole round: compress, take the bytes out, drop the owner.

  /** The lifecycle leaves no memory behind: every byte allocated is freed. */
  method CompressAndTake(lib: Library, heap: Heap, src: array?<Byte>, srcSize: SizeT, level: Int32)
    returns (ok: bool, data: seq<Byte>)
    requires src != null ==> srcSize <= src.Length
    modifies lib, heap
    ensures lib.liveCCtxs == old(lib.liveCCtxs) && lib.liveDCtxs == old(lib.liveDCtxs)
    ensures ok <==> src != null
    ensures heap.live == old(heap.live)
    ensures LiveBytes(heap.log) == old(LiveBytes(heap.log))
    ensures ok ==>
              var bound := GetCompressionSize(lib, srcSize);
              var out := lib.compressFrame(src[..srcSize], bound, CodecLevel(lib, level));
              && |data| == out.reported
              && (|out.bytes| == out.reported <= bound ==> data == out.bytes)
  {
    var result := CompressData(lib, heap, src, srcSize, level);
    if result == null {
      ok, data := false, [];
    } else {
      ok := true;
      data := result.Move(heap);
      result.Destroy(heap);
    }
  }

  // ---------------------------------------------------------------------------
  // Copy-out sizing as written

  /**
    The element count a TArray<uint8> receives from SetNumZeroed(bufferSize):
    the 64-bit size is narrowed to the container's signed 32-bit count, so it
    equals bufferSize only below 2^31.
  */
  function SetNumZeroedCount(bufferSize: SizeT): (n: Int32)
    ensures (n == bufferSize) <==> bufferSize < 0x8000_0000
  {
    var w := bufferSize % 0x1_0000_0000;
    if w < 0x8000_0000 then w else w - 0x1_0000_0000
  }

  /** Move as written: the count SetNumZeroed receives, and the number of
      bytes Memcpy then copies into the array. */
  datatype CopyOut = CopyOut(arrayCount: Int32, copied: SizeT)

  function MoveAsWritten(bufferSize: SizeT): (c: CopyOut)
    ensures c.copied == bufferSize
    ensures (c.arrayCount == bufferSize) <==> bufferSize < 0x8000_0000
  {
    CopyOut(SetNumZeroedCount(bufferSize), bufferSize)
  }

  /** The copy stays inside the array SetNumZeroed sized. */
  predicate CopyFits(c: CopyOut) {
    c.copied <= c.arrayCount
  }

  /** As written, Move copies within the array exactly when the buffer is below 2 GiB. */
  lemma MoveOverrunsFrom2GiB(bufferSize: SizeT)
    ensures CopyFits(MoveAsWritten(bufferSize)) <==> bufferSize < 0x8000_0000
  {
  }

  /** A 4 GiB buffer gets an empty array, into which Memcpy then writes 4 GiB. */
  lemma MoveOverrunsAt4GiB()
    ensures MoveAsWritten(0x1_0000_0000) == CopyOut(0, 0x1_0000_0000)
    ensures !CopyFits(MoveAsWritten(0x1_0000_0000))
  {
  }
}
