/**
 * `TradingDataBridge` of Python/data_bridge.py: the reader side's
 * connection to the segment the C++ writer creates.
 *
 * `os.open("/dev/shm" + name)` and `mmap.mmap(fd, 24)` become lookups in the
 * same `Namespace` the C++ side uses. On Linux "/dev/shm" + name is the
 * object that `shm_open(name)` names when name starts with "/" (the path
 * has no separator of its own), so the two sides meet only on such names.
 * The mapping is the block itself, so writes through it are seen by every
 * other holder of the block.
 *
 * `read_data` also converts the timestamp with `datetime.fromtimestamp`,
 * which works in local time; the host's offset from UTC at that instant is
 * an input, like the other facts about the machine.
 */
module DataBridge {
  import opened Common
  import opened Record
  import opened Codec
  import opened SharedMemory

  /** The state of the file descriptor or of the mmap object. */
  datatype Resource = Unset | Open | Closed

  /** Python raises from `close()` for these; otherwise close completes. */
  datatype CloseError = ClosedMapTested | ClosedFdClosedAgain

  /** 0001-01-01 00:00:00 and 9999-12-31 23:59:59, in seconds since the epoch: the range of `datetime`. */
  const FirstDatetimeSecond: int := -62135596800
  const LastDatetimeSecond: int := 253402300799

  /**
   * Whether `read_data` gets through its `datetime.fromtimestamp(timestamp)`
   * calls on a host `utcOffset` seconds ahead of UTC: they are made only for
   * a positive timestamp, and raise when the local date falls outside
   * years 1 to 9999.
   */
  predicate TimestampFormattable(timestamp: int, utcOffset: int)
  {
    timestamp == 0 || FirstDatetimeSecond <= timestamp + utcOffset <= LastDatetimeSecond
  }

  class TradingDataBridge {
    const ns: Namespace
    const shmName: string
    /** `shm_fd` */
    var fd: Resource
    /** `shm_map`: whether it is None, an open map or a closed one */
    var mapState: Resource
    /** the block that `shm_map` maps (its first 24 bytes) */
    var shmMap: array?<Byte>
    var connected: bool

    ghost predicate Valid()
      reads this
    {
      && (mapState == Unset <==> shmMap == null)
      && (shmMap != null ==> shmMap.Length >= RecordSize)
      && (connected ==> mapState == Open && fd == Open)
    }

    /** `__init__`: nothing is open and the bridge is not connected. */
    constructor (ns: Namespace, shmName: string)
      ensures Valid()
      ensures this.ns == ns && this.shmName == shmName
      ensures fd == Unset && mapState == Unset && !connected
    {
      this.ns := ns;
      this.shmName := shmName;
      fd, mapState, shmMap, connected := Unset, Unset, null, false;
    }

    /** Whether `os.open` and then `mmap.mmap(fd, 24)` both succeed. */
    predicate SegmentMappable()
      reads this, ns
    {
      shmName in ns.blocks && ns.blocks[shmName].Length >= RecordSize
    }

    /**
     * `connect`: succeeds exactly when the segment exists and is at least
     * 24 bytes long. If the file opens but cannot be mapped, the new
     * descriptor is kept open and `connected` keeps its old value.
     */
    method Connect() returns (ok: bool)
      requires Valid()
      modifies this
      ensures Valid()
      ensures ok <==> SegmentMappable()
      ensures ok ==> connected && mapState == Open && fd == Open && shmMap == ns.blocks[shmName]
      ensures !ok ==> connected == old(connected) && mapState == old(mapState) && shmMap == old(shmMap)
      ensures !ok ==> fd == if shmName in ns.blocks then Open else old(fd)
    {
      if shmName !in ns.blocks {
        return false;
      }
      fd := Open;
      var block := ns.blocks[shmName];
      if block.Length < RecordSize {
        return false;
      }
      shmMap, mapState := block, Open;
      connected := true;
      ok := true;
    }

    /**
     * `read_data`: None while not connected; otherwise the four fields
     * unpacked from the first 24 mapped bytes, or None when converting the
     * timestamp to a local date raises and the handler swallows it.
     */
    method ReadData(utcOffset: int) returns (r: Option<TradingData>)
      requires Valid()
      ensures r.Some? <==> connected && TimestampFormattable(Decode(shmMap[..RecordSize]).value.timestamp, utcOffset)
      ensures r.Some? ==> Some(r.value) == Decode(shmMap[..RecordSize])
    {
      if !connected {
        return None;
      }
      var bytes := shmMap[..RecordSize];
      var unpacked := Decode(bytes);
      if !TimestampFormattable(unpacked.value.timestamp, utcOffset) {
        return None;
      }
      r := unpacked;
    }

    /**
     * `write_data`: False while not connected or when `struct.pack`
     * rejects the timestamp or volume, and then no byte changes; otherwise
     * bytes 0..23 of the block are overwritten with the packed record, the
     * rest stay as they were, and True is returned.
     */
    method WriteData(priceBits: U64, volume: int, timestamp: int, valid: bool) returns (ok: bool)
      requires Valid()
      modifies shmMap
      ensures ok <==> connected && InU64(timestamp) && InI32(volume)
      ensures !ok ==> shmMap == null || shmMap[..] == old(shmMap[..])
      ensures ok ==>
                && shmMap[..RecordSize] == Encode(TradingData(priceBits, timestamp, volume, valid))
                && shmMap[RecordSize..] == old(shmMap[RecordSize..])
                && Decode(shmMap[..RecordSize]) == Some(TradingData(priceBits, timestamp, volume, valid))
    {
      if !connected {
        return false;
      }
      var packed := Pack(priceBits, timestamp, volume, valid);
      if packed.Failure? {
        return false;
      }
      var bytes := packed.value;
      var i := 0;
      while i < RecordSize
        invariant 0 <= i <= RecordSize
        invariant shmMap[..i] == bytes[..i]
        invariant shmMap[RecordSize..] == old(shmMap[RecordSize..])
      {
        shmMap[i] := bytes[i];
        i := i + 1;
      }
      DecodeEncode(TradingData(priceBits, timestamp, volume, valid));
      ok := true;
    }

    /**
     * `close`: closes the map if there is one, then the descriptor if
     * there is one, then clears `connected`. Testing a map that is already
     * closed raises (its length is unavailable), as does closing a
     * descriptor twice; both leave `connected` as it was.
     */
    method Close() returns (r: Result<(), CloseError>)
      requires Valid()
      modifies this
      ensures Valid() && shmMap == old(shmMap)
      ensures old(mapState) == Closed ==> r == Failure(ClosedMapTested) && connected == old(connected)
      ensures old(mapState) != Closed && old(fd) == Closed ==> r == Failure(ClosedFdClosedAgain) && connected == old(connected)
      ensures old(mapState) != Closed && old(fd) != Closed ==> r.Success? && !connected
      ensures mapState == if old(mapState) == Unset then Unset else Closed
      ensures fd == if old(mapState) == Closed || old(fd) == Unset then old(fd) else Closed
    {
      if mapState == Closed {
        return Failure(ClosedMapTested);
      }
      if mapState == Open {
        mapState := Closed;
      }
      if fd == Closed {
        return Failure(ClosedFdClosedAgain);
      }
      if fd == Open {
        fd := Closed;
      }
      connected := false;
      r := Success(());
    }
  }

  /**
   * The two sides of the system on one segment: the C++ writer creates
   * the block and stores a record; the Python reader connects and reads the
   * same four fields, unless the timestamp has no local date.
   */
  method WriterToReader(ns: Namespace, name: string, d: TradingData, utcOffset: int) returns (read: Option<TradingData>)
    requires |name| > 0 && name[0] == '/'
    requires name !in ns.blocks
    modifies ns
    ensures read == if TimestampFormattable(d.timestamp, utcOffset) then Some(d) else None
  {
    var writer := new TradingDataSegment(ns, name, true);
    writer.Store(d);
    var reader := new TradingDataBridge(ns, name);
    var ok := reader.Connect();
    assert reader.shmMap == writer.raw;
    assert reader.shmMap[..RecordSize] == writer.raw[..];
    read := reader.ReadData(utcOffset);
  }

  /**
   * The other direction: a record the Python side writes through the
   * bridge is what the creating C++ handle then reads.
   */
  method ReaderToWriter(ns: Namespace, name: string, priceBits: U64, volume: I32, timestamp: U64, valid: bool)
    returns (seen: TradingData)
    requires |name| > 0 && name[0] == '/'
    requires name !in ns.blocks
    modifies ns
    ensures seen == TradingData(priceBits, timestamp, volume, valid)
  {
    var owner := new TradingDataSegment(ns, name, true);
    var bridge := new TradingDataBridge(ns, name);
    var connected := bridge.Connect();
    assert bridge.shmMap == owner.raw;
    var written := bridge.WriteData(priceBits, volume, timestamp, valid);
    assert owner.raw[..] == bridge.shmMap[..RecordSize];
    seen := owner.Get();
  }
}
