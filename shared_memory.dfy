/**
 * The Region Manager of C++/src/include/shared_code.h.
 *
 * The four low-level block functions are only declared there, so the
 * operating system's shared-memory namespace is modelled by the class
 * `Namespace`: a map from names to blocks (arrays of bytes), the multiset of
 * mappings the process holds, and the log of block calls in the order they
 * were made. `TradingDataSegment` is `type_shared_memory<T>` with `T` fixed
 * to the record `TradingData`, carried as its 24-byte image. (In C++ its
 * `std::atomic` members make `TradingData` not trivially copyable, so the
 * `static_assert` of the template would refuse it; the model carries the
 * value form that the Python side reads.)
 */
module SharedMemory {
  import opened Common
  import opened Record
  import opened Codec

  /** One call of the low-level block interface. */
  datatype BlockCall =
    | CreateCall(name: string, size: nat)
    | AttachCall(name: string, size: nat)
    | DetachCall(block: array<Byte>)
    | DestroyCall(name: string)

  /** The shared-memory namespace of the host, as one process sees it. */
  class Namespace {
    /** The named blocks that exist. */
    var blocks: map<string, array<Byte>>
    /** The mappings this process holds (one entry per create or attach). */
    var mapped: multiset<array<Byte>>
    /** Every block call made so far, oldest first. */
    var log: seq<BlockCall>

    constructor ()
      ensures blocks == map[] && mapped == multiset{} && log == []
    {
      blocks, mapped, log := map[], multiset{}, [];
    }

    /**
     * `create_memory_block`: a new zero-filled block of `size` bytes under
     * `name`, mapped; null when the name is already taken.
     */
    method CreateMemoryBlock(name: string, size: nat) returns (block: array?<Byte>)
      modifies this
      ensures log == old(log) + [CreateCall(name, size)]
      ensures name in old(blocks) ==> block == null && blocks == old(blocks) && mapped == old(mapped)
      ensures name !in old(blocks) ==>
                && block != null && fresh(block)
                && block[..] == Zeros(size)
                && blocks == old(blocks)[name := block]
                && mapped == old(mapped) + multiset{block}
    {
      log := log + [CreateCall(name, size)];
      if name in blocks {
        return null;
      }
      var b := new Byte[size](_ => 0);
      assert b[..] == Zeros(size);
      blocks := blocks[name := b];
      mapped := mapped + multiset{b};
      return b;
    }

    /**
     * `attach_memory_block`: maps the existing block under `name`; null when
     * there is none or its size is not `size`.
     */
    method AttachMemoryBlock(name: string, size: nat) returns (block: array?<Byte>)
      modifies this
      ensures log == old(log) + [AttachCall(name, size)]
      ensures blocks == old(blocks)
      ensures block != null <==> name in blocks && blocks[name].Length == size
      ensures block != null ==> block == blocks[name] && mapped == old(mapped) + multiset{block}
      ensures block == null ==> mapped == old(mapped)
    {
      log := log + [AttachCall(name, size)];
      if name in blocks && blocks[name].Length == size {
        block := blocks[name];
        mapped := mapped + multiset{block};
      } else {
        block := null;
      }
    }

    /** `detach_from_memory_block`: drops one mapping of `block`; false if none is held. */
    method DetachFromMemoryBlock(block: array<Byte>, size: nat) returns (ok: bool)
      modifies this
      ensures log == old(log) + [DetachCall(block)]
      ensures ok <==> block in old(mapped)
      ensures mapped == old(mapped) - multiset{block}
      ensures blocks == old(blocks)
    {
      log := log + [DetachCall(block)];
      ok := block in mapped;
      mapped := mapped - multiset{block};
    }

    /** `destroy_memory_block`: removes the name; mappings already held stay valid. */
    method DestroyMemoryBlock(name: string) returns (ok: bool)
      modifies this
      ensures log == old(log) + [DestroyCall(name)]
      ensures ok <==> name in old(blocks)
      ensures blocks == old(blocks) - {name}
      ensures mapped == old(mapped)
    {
      log := log + [DestroyCall(name)];
      ok := name in blocks;
      blocks := blocks - {name};
    }
  }

  /** Writes the 24-byte image of d over a whole block (placement of a T). */
  method StoreRecord(block: array<Byte>, d: TradingData)
    requires block.Length == RecordSize
    modifies block
    ensures block[..] == Encode(d)
  {
    EncodeLayout(d);
    var bytes := Encode(d);
    var i := 0;
    while i < RecordSize
      invariant 0 <= i <= RecordSize
      invariant block[..i] == bytes[..i]
    {
      block[i] := bytes[i];
      i := i + 1;
    }
    assert block[..] == block[..RecordSize];
  }

  /** `type_shared_memory<TradingData>`: one handle on a named block. */
  class TradingDataSegment {
    const ns: Namespace
    const name: string
    /** `owner_`: whether this handle created the block. */
    const owner: bool
    /** `raw_memory_`: the mapped block, or null. */
    var raw: array?<Byte>
    /** False once the handle has been destroyed. */
    ghost var alive: bool

    ghost predicate Valid()
      reads this
    {
      raw != null ==> raw.Length == RecordSize
    }

    /**
     * With `createNew` (the default) the handle creates a block of
     * sizeof(TradingData) bytes and value-initialises the record in it;
     * otherwise it attaches to the existing block of that size and leaves
     * its bytes as they are.
     */
    constructor (ns: Namespace, name: string, createNew: bool)
      modifies ns
      ensures Valid() && alive
      ensures this.ns == ns && this.name == name && owner == createNew
      ensures createNew ==>
                && ns.log == old(ns.log) + [CreateCall(name, RecordSize)]
                && (raw != null <==> name !in old(ns.blocks))
                && (raw != null ==> fresh(raw) && ns.blocks == old(ns.blocks)[name := raw]
                                    && Get() == DefaultTradingData)
                && (raw == null ==> ns.blocks == old(ns.blocks))
      ensures !createNew ==>
                && ns.log == old(ns.log) + [AttachCall(name, RecordSize)]
                && ns.blocks == old(ns.blocks)
                && raw == (if name in ns.blocks && ns.blocks[name].Length == RecordSize
                           then ns.blocks[name] else null)
                && (raw != null ==> raw[..] == old(ns.blocks[name][..]))
      ensures raw != null ==> ns.mapped == old(ns.mapped) + multiset{raw}
      ensures raw == null ==> ns.mapped == old(ns.mapped)
    {
      this.ns := ns;
      this.name := name;
      this.owner := createNew;
      alive := true;
      var block: array?<Byte>;
      if createNew {
        block := ns.CreateMemoryBlock(name, RecordSize);
        if block != null {
          StoreRecord(block, DefaultTradingData);
          DecodeEncode(DefaultTradingData);
        }
      } else {
        block := ns.AttachMemoryBlock(name, RecordSize);
      }
      raw := block;
    }

    /** `get()`, `operator*` and `operator->`: the whole record in the block. */
    function Get(): (d: TradingData)
      requires Valid() && raw != null
      reads this, raw
      ensures Decode(raw[..]) == Some(d)
    {
      Decode(raw[..]).value
    }

    /** Field-by-field stores of `d` through `get()`: together they overwrite the whole block. */
    method Store(d: TradingData)
      requires Valid() && alive && raw != null
      modifies raw
      ensures raw[..] == Encode(d) && Get() == d
    {
      StoreRecord(raw, d);
      DecodeEncode(d);
    }

    /**
     * The destructor: when a block is mapped, detach it, then, for the
     * owner only, destroy the name. Without a mapping it does nothing. No
     * block's bytes change.
     */
    method Dispose()
      requires Valid() && alive
      modifies this, ns
      ensures !alive && raw == old(raw)
      ensures raw == null ==> ns.blocks == old(ns.blocks) && ns.mapped == old(ns.mapped) && ns.log == old(ns.log)
      ensures raw != null ==>
                && ns.mapped == old(ns.mapped) - multiset{raw}
                && ns.blocks == (if owner then old(ns.blocks) - {name} else old(ns.blocks))
                && ns.log == old(ns.log) + [DetachCall(raw)] + (if owner then [DestroyCall(name)] else [])
    {
      alive := false;
      if raw != null {
        var _ := ns.DetachFromMemoryBlock(raw, RecordSize);
        if owner {
          var _ := ns.DestroyMemoryBlock(name);
        }
      }
    }
  }

  /**
   * Two handles on one name share one block: a store through the creating
   * handle is what an attaching handle then reads, and after both are
   * destroyed the name is gone.
   */
  method StoreSeenThroughOtherHandle(ns: Namespace, name: string, d: TradingData) returns (seen: TradingData)
    requires name !in ns.blocks
    modifies ns
    ensures seen == d
    ensures name !in ns.blocks
  {
    var writer := new TradingDataSegment(ns, name, true);
    assert writer.raw != null && ns.blocks[name] == writer.raw;
    var reader := new TradingDataSegment(ns, name, false);
    assert reader.raw == writer.raw;
    writer.Store(d);
    seen := reader.Get();
    reader.Dispose();
    writer.Dispose();
  }
}
