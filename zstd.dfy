/**
  The zstd library as the plugin consumes it. Its algorithms are not modelled:
  the size bound, the frame it produces, the embedded-size probe and the
  decompressed bytes are uninterpreted functions fixed when a Library value is
  built. What is modelled is the calling protocol: a call writes its output from
  the start of the destination and never past the capacity it is given, returns
  a size_t that the caller takes as is, and is recorded in the call log.
*/
module Zstd {
  import opened Platform

  /** ZSTD_CONTENTSIZE_UNKNOWN, (0ULL - 1): the frame does not carry its size. */
  const CONTENTSIZE_UNKNOWN: SizeT := 0xFFFF_FFFF_FFFF_FFFF
  /** ZSTD_CONTENTSIZE_ERROR, (0ULL - 2): the input is not a valid frame. */
  const CONTENTSIZE_ERROR: SizeT := 0xFFFF_FFFF_FFFF_FFFE

  /** What one codec call produces: the bytes it writes from the start of the
      destination, and the size_t it returns (a size or an error code). */
  datatype Output = Output(bytes: seq<Byte>, reported: SizeT)

  /** The part of the output that a destination of the given capacity receives. */
  function Written(out: Output, capacity: nat): (w: seq<Byte>)
    ensures |w| <= capacity && |w| <= |out.bytes|
    ensures w == out.bytes[..|w|]
    ensures |out.bytes| <= capacity ==> w == out.bytes
  {
    out.bytes[..Min(|out.bytes|, capacity)]
  }

  /** A buffer after w has been written over its first |w| bytes. */
  function Overwrite(prior: seq<Byte>, w: seq<Byte>): (s: seq<Byte>)
    requires |w| <= |prior|
    ensures |s| == |prior|
    ensures s[..|w|] == w
    ensures forall i :: |w| <= i < |s| ==> s[i] == prior[i]
  {
    w + prior[|w|..]
  }

  datatype Call =
    | CompressCall(src: seq<Byte>, capacity: SizeT, level: Int32)
    | DecompressCall(src: seq<Byte>, capacity: SizeT)

  /** A ZSTD_CCtx allocated by the library. */
  class CCtxHandle {
    constructor () {}
  }

  /** A ZSTD_DCtx allocated by the library. */
  class DCtxHandle {
    constructor () {}
  }

  class Library {
    /** ZSTD_maxCLevel() */
    const maxCLevel: Int32
    /** ZSTD_compressBound(srcSize) */
    const compressBound: SizeT -> SizeT
    /** The frame ZSTD_compressCCtx produces for (src, dstCapacity, level), and its return value. */
    const compressFrame: (seq<Byte>, SizeT, Int32) -> Output
    /** ZSTD_findDecompressedSize(src, srcSize) */
    const findDecompressedSize: seq<Byte> -> SizeT
    /** The bytes ZSTD_decompressDCtx produces for (src, dstCapacity), and its return value. */
    const decompressFrame: (seq<Byte>, SizeT) -> Output

    /** Every compression and decompression call made so far, in order. */
    var calls: seq<Call>
    /** The compression contexts created and not yet freed. */
    ghost var liveCCtxs: set<CCtxHandle>
    /** The decompression contexts created and not yet freed. */
    ghost var liveDCtxs: set<DCtxHandle>

    constructor (maxCLevel: Int32, compressBound: SizeT -> SizeT,
                 compressFrame: (seq<Byte>, SizeT, Int32) -> Output,
                 findDecompressedSize: seq<Byte> -> SizeT,
                 decompressFrame: (seq<Byte>, SizeT) -> Output)
      ensures this.maxCLevel == maxCLevel && this.compressBound == compressBound
      ensures this.compressFrame == compressFrame
      ensures this.findDecompressedSize == findDecompressedSize
      ensures this.decompressFrame == decompressFrame
      ensures calls == [] && liveCCtxs == {} && liveDCtxs == {}
    {
      this.maxCLevel := maxCLevel;
      this.compressBound := compressBound;
      this.compressFrame := compressFrame;
      this.findDecompressedSize := findDecompressedSize;
      this.decompressFrame := decompressFrame;
      calls := [];
      liveCCtxs := {};
      liveDCtxs := {};
    }

    /** ZSTD_createCCtx_advanced with the plugin's allocator. */
    method CreateCCtx() returns (h: CCtxHandle)
      modifies this`liveCCtxs
      ensures fresh(h) && liveCCtxs == old(liveCCtxs) + {h}
    {
      h := new CCtxHandle();
      liveCCtxs := liveCCtxs + {h};
    }

    /** ZSTD_createDCtx_advanced with the plugin's allocator. */
    method CreateDCtx() returns (h: DCtxHandle)
      modifies this`liveDCtxs
      ensures fresh(h) && liveDCtxs == old(liveDCtxs) + {h}
    {
      h := new DCtxHandle();
      liveDCtxs := liveDCtxs + {h};
    }

    /** ZSTD_freeCCtx: a live handle is freed once. */
    method FreeCCtx(h: CCtxHandle)
      requires h in liveCCtxs
      modifies this`liveCCtxs
      ensures liveCCtxs == old(liveCCtxs) - {h}
    {
      liveCCtxs := liveCCtxs - {h};
    }

    /** ZSTD_freeDCtx: a live handle is freed once. */
    method FreeDCtx(h: DCtxHandle)
      requires h in liveDCtxs
      modifies this`liveDCtxs
      ensures liveDCtxs == old(liveDCtxs) - {h}
    {
      liveDCtxs := liveDCtxs - {h};
    }

    /** ZSTD_compressCCtx(h, dst, capacity, src, |src|, level) */
    method CompressCCtx(h: CCtxHandle, dst: array<Byte>, capacity: SizeT, src: seq<Byte>, level: Int32)
      returns (n: SizeT)
      requires h in liveCCtxs && capacity <= dst.Length
      modifies this`calls, dst
      ensures n == compressFrame(src, capacity, level).reported
      ensures dst[..] == Overwrite(old(dst[..]), Written(compressFrame(src, capacity, level), capacity))
      ensures calls == old(calls) + [CompressCall(src, capacity, level)]
    {
      var out := compressFrame(src, capacity, level);
      var w := Written(out, capacity);
      forall i | 0 <= i < |w| {
        dst[i] := w[i];
      }
      calls := calls + [CompressCall(src, capacity, level)];
      n := out.reported;
    }

    /** ZSTD_decompressDCtx(h, dst, capacity, src, |src|) */
    method DecompressDCtx(h: DCtxHandle, dst: array<Byte>, capacity: SizeT, src: seq<Byte>)
      returns (n: SizeT)
      requires h in liveDCtxs && capacity <= dst.Length
      modifies this`calls, dst
      ensures n == decompressFrame(src, capacity).reported
      ensures dst[..] == Overwrite(old(dst[..]), Written(decompressFrame(src, capacity), capacity))
      ensures calls == old(calls) + [DecompressCall(src, capacity)]
    {
      var out := decompressFrame(src, capacity);
      var w := Written(out, capacity);
      forall i | 0 <= i < |w| {
        dst[i] := w[i];
      }
      calls := calls + [DecompressCall(src, capacity)];
      n := out.reported;
    }
  }
}
