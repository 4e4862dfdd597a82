# ZSTDPlugin buffer lifecycle, in Dafny

This project models the core of ZSTDPlugin, an Unreal Engine plugin that wraps
the zstd library for one-shot compression and decompression of byte buffers.
It covers the buffer owner `FZSTDBufferData`, the context owners `FZSTDCCtx` and
`FZSTDDCtx`, and the static helpers of `FZSTDUtils`, all in
`Source/ZSTDPlugin/Classes/ZSTDTypes.h`. The model covers:

- how the destination is sized, allocated and resized;
- how the compression level is clamped;
- how the two reserved probe results are rejected before anything is allocated;
- how the owner hands its bytes out and releases its block.

Files:

- `platform.dfy` (module `Platform`): `Byte`, the 64-bit `SizeT` and `Int32`.
- `memory.dfy` (module `Memory`): Unreal's `FMemory` as a `Heap` object. The
  heap knows which blocks are live and logs every `Malloc`, `Realloc` and
  `Free`. `LiveBytes` replays a log and gives the bytes it leaves allocated.
  `LiveBytesConcat` proves this accounting composes, so each operation can
  state how many bytes it leaves behind.
- `zstd.dfy` (module `Zstd`): the zstd library as uninterpreted behaviour.
  `compressBound`, the frame `ZSTD_compressCCtx` produces, `ZSTD_findDecompressedSize`,
  the output of `ZSTD_decompressDCtx` and `ZSTD_maxCLevel` are fields fixed
  when a `Library` is built. The sentinels `ZSTD_CONTENTSIZE_UNKNOWN` (2^64-1)
  and `ZSTD_CONTENTSIZE_ERROR` (2^64-2) are zstd's own values. A codec call
  writes its output from the start of the destination, never past the capacity
  it is given. It returns an opaque `size_t` and is recorded in a call log, so
  contracts can say which calls were made and with which level and capacity.
- `zstd_types.dfy` (module `ZstdTypes`): the plugin itself.

Shared pointers are nullable references: an empty `TSharedPtr` is `null`, and a
pointer that `IsValid()` is a non-null object. Each overload of `CompressData`
and `DecompressData` has its own name:

- `CompressData` / `DecompressData`: source only; a context is created for the call.
- `CompressDataWith` / `DecompressDataWith`: with a caller-held context.
- `CompressInto` / `DecompressInto`: the direct-buffer overloads that reassign `DstBuff`.
- `CompressWithHandle` / `DecompressWithHandle`: the private overloads on a raw handle.

The source's default arguments are kept as Dafny default parameter values.
The compression level defaults to `DEFAULT_COMPRESSION_LEVEL` (3) and `bRealloc`
defaults to `false`.

`GetMaxCompressionLevel`, `GetCompressionSize` and `GetDecompressionSize` only
forward to the codec. They get their meaning from the contracts that use them.

## Model

| member | source | states |
|---|---|---|
| `ZstdTypes.BufferData.constructor` | Source/ZSTDPlugin/Classes/ZSTDTypes.h:73-77 | The owner takes the block and the size it is given. |
| `ZstdTypes.BufferData.Reset` | Source/ZSTDPlugin/Classes/ZSTDTypes.h:49-57 | The owner ends with a null buffer and size 0. The old block is freed exactly when it was non-null. When it was null the heap is untouched. Allocated bytes drop by the old size. |
| `ZstdTypes.ResetTwice` | Source/ZSTDPlugin/Classes/ZSTDTypes.h:49-57 | Reset is idempotent: a second Reset frees nothing and changes nothing. |
| `ZstdTypes.BufferData.Destroy` | Source/ZSTDPlugin/Classes/ZSTDTypes.h:44-47 | The destructor has Reset's effect: the block is freed if present, and the owner is left empty. |
| `ZstdTypes.BufferData.Move` | Source/ZSTDPlugin/Classes/ZSTDTypes.h:59-67 | Requires a non-null buffer, so a second Move violates the contract. The output is exactly the old `BufferSize` bytes, equal to the old block's contents. The block is freed and the owner is reset. |
| `ZstdTypes.CCtx.constructor` | Source/ZSTDPlugin/Classes/ZSTDTypes.h:102-104 | The owner wraps the handle it is given, which may be null. |
| `ZstdTypes.CCtx.Destroy` | Source/ZSTDPlugin/Classes/ZSTDTypes.h:84-88 | A non-null handle leaves the codec's set of live compression contexts. A null handle leaves that set as it was. No other state changes. |
| `ZstdTypes.DCtx.constructor` | Source/ZSTDPlugin/Classes/ZSTDTypes.h:129-131 | The owner wraps the handle it is given, which may be null. |
| `ZstdTypes.DCtx.Destroy` | Source/ZSTDPlugin/Classes/ZSTDTypes.h:111-115 | A non-null handle leaves the codec's set of live decompression contexts. A null handle leaves that set as it was. No other state changes. |
| `ZstdTypes.CreateCCtx` | Source/ZSTDPlugin/Classes/ZSTDTypes.h:160-163 | Returns a fresh owner of a fresh handle, which joins the codec's set of live compression contexts. No other state changes. |
| `ZstdTypes.CreateDCtx` | Source/ZSTDPlugin/Classes/ZSTDTypes.h:165-168 | Returns a fresh owner of a fresh handle, which joins the codec's set of live decompression contexts. No other state changes. |
| `ZstdTypes.GetMaxCompressionLevel` | Source/ZSTDPlugin/Classes/ZSTDTypes.h:155-158 | Returns the codec's `ZSTD_maxCLevel()`. It is the upper end of the clamp in `CodecLevel`, so no level above it reaches the codec. |
| `ZstdTypes.GetCompressionSize` | Source/ZSTDPlugin/Classes/ZSTDTypes.h:255-258 | Returns the codec's `ZSTD_compressBound(srcSize)`. `CompressDataWith` allocates exactly this many bytes and passes them as the codec's capacity. |
| `ZstdTypes.GetDecompressionSize` | Source/ZSTDPlugin/Classes/ZSTDTypes.h:260-263 | Returns the codec's probe `ZSTD_findDecompressedSize` on the source bytes. `DecompressDataWith` rejects it when it is a sentinel and otherwise allocates exactly this many bytes. |
| `ZstdTypes.IsValidDecompressionSize` | Source/ZSTDPlugin/Classes/ZSTDTypes.h:265-268 | A probed size is valid iff it is below `ZSTD_CONTENTSIZE_ERROR`. That is, it is neither of the two reserved top values. |
| `ZstdTypes.Clamp` | Source/ZSTDPlugin/Classes/ZSTDTypes.h:277 | `FMath::Clamp` returns one of its arguments. The result lies in `[lo, hi]` when that range is non-empty, and an in-range value is returned unchanged. |
| `ZstdTypes.ClampIsNearest` | Source/ZSTDPlugin/Classes/ZSTDTypes.h:277 | The clamped level is the in-range level nearest to the requested one. |
| `ZstdTypes.CodecLevel` | Source/ZSTDPlugin/Classes/ZSTDTypes.h:277 | The codec receives `clamp(level, 1, maxCLevel)`. Levels below 1 become 1 and levels above the maximum become the maximum; they are corrected, never rejected. |
| `ZstdTypes.CodecLevelIdempotent` | Source/ZSTDPlugin/Classes/ZSTDTypes.h:277 | Clamping an already corrected level changes nothing. |
| `ZstdTypes.CompressWithHandle` | Source/ZSTDPlugin/Classes/ZSTDTypes.h:272-278 | Makes exactly one compression call, with the clamped level and the given capacity. The destination holds what the codec wrote. The codec's return value is passed back unchanged. |
| `ZstdTypes.CompressInto` | Source/ZSTDPlugin/Classes/ZSTDTypes.h:198-207 | Requires a source, a destination and a live context. Without `bRealloc`, the same block is returned and the heap is untouched. With `bRealloc`, the block is always resized to the reported size and keeps the common prefix of the bytes. |
| `ZstdTypes.CompressDataWith` | Source/ZSTDPlugin/Classes/ZSTDTypes.h:178-196 | An empty context or a null source gives an empty result, with no allocation and no codec call. Otherwise the heap log gains exactly a `compressBound(srcLen)` allocation and an unconditional resize to the reported size. One codec call is made, at the clamped level. The result's `BufferSize` is the reported size and it holds what the codec wrote. Allocated bytes grow by exactly that size. The codec's live contexts are unchanged. |
| `ZstdTypes.CompressData` | Source/ZSTDPlugin/Classes/ZSTDTypes.h:170-176 | A null source gives an empty result and changes nothing. Otherwise it has the same effect as `CompressDataWith` with a fresh context. The codec's sets of live contexts are the same after the call as before, so the temporary context is released. |
| `ZstdTypes.DecompressWithHandle` | Source/ZSTDPlugin/Classes/ZSTDTypes.h:280-287 | Requires a capacity that is not a sentinel. Makes exactly one decompression call with that capacity. The destination holds what the codec wrote. |
| `ZstdTypes.DecompressInto` | Source/ZSTDPlugin/Classes/ZSTDTypes.h:243-253 | The block is resized only when `bRealloc` is set and the reported size differs from the capacity. Otherwise the same block is returned and the heap is untouched. |
| `ZstdTypes.DecompressDataWith` | Source/ZSTDPlugin/Classes/ZSTDTypes.h:216-241 | An empty context, a null source or a sentinel probe gives an empty result, with no allocation and no codec call. Otherwise exactly the probed size is allocated, and a resize follows only when the decompressed size differs. The result's `BufferSize` is the decompressed size and it holds what the codec wrote. The codec's live contexts are unchanged. |
| `ZstdTypes.DecompressData` | Source/ZSTDPlugin/Classes/ZSTDTypes.h:209-214 | A null source gives an empty result and changes nothing. Otherwise it has the same effect as `DecompressDataWith` with a fresh context. The codec's sets of live contexts are the same after the call as before, so the temporary context is released. |
| `ZstdTypes.CompressAndTake` | Source/ZSTDPlugin/Classes/ZSTDTypes.h:44-67 | Compressing, moving the bytes out and destroying the owner leaves the live blocks and the allocated byte count as they were. The bytes taken are the codec's frame, of exactly the reported size. |
| `ZstdTypes.SetNumZeroedCount` | Source/ZSTDPlugin/Classes/ZSTDTypes.h:63 | As written, `Move` sizes the output from `BufferSize` narrowed to the array's 32-bit count. That count equals `BufferSize` iff `BufferSize < 2^31`. |
| `ZstdTypes.MoveAsWritten` | Source/ZSTDPlugin/Classes/ZSTDTypes.h:63-64 | As written, `Move` copies `BufferSize` bytes into an array whose count is the narrowed `SetNumZeroedCount(BufferSize)`. The count equals the copy length iff `BufferSize < 2^31`. |
| `ZstdTypes.MoveOverrunsFrom2GiB` | Source/ZSTDPlugin/Classes/ZSTDTypes.h:63-64 | As written, the copy fits inside the array iff `BufferSize < 2^31`. For every larger buffer, `Memcpy` writes past the array. |
| `ZstdTypes.MoveOverrunsAt4GiB` | Source/ZSTDPlugin/Classes/ZSTDTypes.h:63-64 | A buffer of 2^32 bytes gets an array of 0 elements and a copy of 2^32 bytes, so the copy does not fit. |

## Left out

- zstd internals: entropy coding, matching and frame-header parsing. The codec's functions are uninterpreted, so no property of zstd's frames is proved.
- Round-trip identity. `decompressFrame` is not tied to `compressFrame`, so `Decompress(Compress(S)) == S` is a property of zstd that is not proved here.
- Context reuse. A context's history does not influence the codec's output in the model, because `compressFrame` and `decompressFrame` do not take the handle. A reused context and a fresh one therefore give the same result by construction.
- Codec error codes. Like the source, the model never tests the codec's return value with `ZSTD_isError`. An error code becomes the resize target and the owner's `BufferSize`.
- Reference counting of `TSharedPtr` and `MakeShareable`. Each object has a single owner. The temporary context of `CompressData` and `DecompressData` is destroyed when the call returns.
- `alloc_fn` and `free_fn` only forward to `FMemory`. The memory the codec allocates for its own contexts through them is not part of the heap log.
- Allocation failure. `Malloc`, `Realloc` and context creation always succeed. `Realloc` always moves the block, and the bytes it does not copy are left unspecified.
- Resizing to 0 bytes. `Heap.Realloc(p, 0)` is modelled as returning a live, empty block. Unreal's stock `FMemory::Realloc(p, 0)` frees the block and returns null instead, which would leave a result owner with a null buffer. That case needs the codec to report 0 bytes for a call whose capacity was not 0. zstd does not do that: a compressed frame is never empty, and a frame whose content size is 0 is allocated at 0 bytes and not resized.
- `operator*` of the context owners is modelled as reading the handle field inside the operations.
- `static_cast<SIZE_T>` of the probed size is the identity on 64-bit targets, which are the only ones modelled.
- The private default constructors and assignment operators of the three owner types are left out, because no modelled path uses them.
- Thread safety and concurrent use of a shared context. The source does nothing about them.
- `Source/ZSTDPlugin/ZSTDPlugin.Build.cs` is build configuration with no behaviour.

## Findings

| source | as written | input that shows it | evidently intended | confidence | as-written member | corrected member |
|---|---|---|---|---|---|---|
| Source/ZSTDPlugin/Classes/ZSTDTypes.h:63-64 | `OutData.SetNumZeroed(BufferSize)` passes the 64-bit `BufferSize` to `TArray<uint8>`, whose count is a signed 32-bit integer. `Memcpy` then copies the full `BufferSize` bytes. | `BufferSize = 4294967296`: the array gets 0 elements and 4 GiB are copied into it. | The output array holds exactly `BufferSize` bytes, equal to the buffer's contents. | medium (relies on `TArray`'s default 32-bit size type), not executed | `ZstdTypes.MoveAsWritten` | `ZstdTypes.BufferData.Move` |
