/**
  Unreal's FMemory allocator seen from outside: Malloc hands out a fresh block,
  Free releases a live block, Realloc replaces a live block by a fresh one of the
  requested size holding the common prefix. The heap remembers which blocks are
  live and logs every event, so that a caller can state exactly what an operation
  allocated and how many bytes it left allocated.
*/
module Memory {
  import opened Platform

  datatype MemEvent =
    | Allocated(size: nat)
    | Resized(oldSize: nat, newSize: nat)
    | Freed(size: nat)

  /** Change in allocated bytes caused by one event. */
  function Net(e: MemEvent): (delta: int) {
    match e
    case Allocated(n) => n
    case Resized(o, n) => n - o
    case Freed(n) => -(n as int)
  }

  /** Bytes a log leaves allocated, replaying it from its first event. */
  function LiveBytes(log: seq<MemEvent>): (total: int) {
    if log == [] then 0 else Net(log[0]) + LiveBytes(log[1..])
  }

  /** Accounting is compositional: a run followed by another leaves the sum of both. */
  lemma {:induction false} LiveBytesConcat(a: seq<MemEvent>, b: seq<MemEvent>)
    ensures LiveBytes(a + b) == LiveBytes(a) + LiveBytes(b)
  {
    if a == [] {
      assert a + b == b;
    } else {
      assert (a + b)[1..] == a[1..] + b;
      LiveBytesConcat(a[1..], b);
    }
  }

  class Heap {
    var live: set<array<Byte>>
    var log: seq<MemEvent>

    constructor ()
      ensures live == {} && log == []
    {
      live := {};
      log := [];
    }

    method Malloc(size: SizeT) returns (p: array<Byte>)
      modifies this
      ensures fresh(p) && p.Length == size
      ensures live == old(live) + {p}
      ensures log == old(log) + [Allocated(size)]
      ensures LiveBytes(log) == old(LiveBytes(log)) + size
    {
      p := new Byte[size];
      LiveBytesConcat(log, [Allocated(size)]);
      live := live + {p};
      log := log + [Allocated(size)];
    }

    method Free(p: array<Byte>)
      requires p in live
      modifies this
      ensures live == old(live) - {p}
      ensures log == old(log) + [Freed(p.Length)]
      ensures LiveBytes(log) == old(LiveBytes(log)) - p.Length
    {
      LiveBytesConcat(log, [Freed(p.Length)]);
      live := live - {p};
      log := log + [Freed(p.Length)];
    }

    /** The block may move: the caller must use q and never p afterwards. */
    method Realloc(p: array<Byte>, size: SizeT) returns (q: array<Byte>)
      requires p in live
      modifies this
      ensures fresh(q) && q.Length == size
      ensures q[..Min(size, p.Length)] == p[..Min(size, p.Length)]
      ensures live == old(live) - {p} + {q}
      ensures log == old(log) + [Resized(p.Length, size)]
      ensures LiveBytes(log) == old(LiveBytes(log)) + size - p.Length
    {
      q := new Byte[size];
      var k := Min(size, p.Length);
      forall i | 0 <= i < k {
        q[i] := p[i];
      }
      LiveBytesConcat(log, [Resized(p.Length, size)]);
      live := live - {p} + {q};
      log := log + [Resized(p.Length, size)];
    }
  }
}
