/**
 The contract assumed of the framework's key-value store: a save replaces one key
 atomically and is durable when it returns; a failed save left the old value or the
 new one, and a failed removal may or may not have removed the key. `trace` records
 every durable content, so a crash is a cut of the trace.
 */
module DurableStore {
  import opened Wrappers
  import opened Bytes

  datatype Stored = Text(bytes: ByteString) | OtherType
  type Disk = map<string, Stored>

  datatype SaveFault = Works | NotWritten | WrittenThenFailed
  datatype ReadFault = ReadWorks | HasFails | LoadFails

  /** The string under a key, if any; throws on an I/O error or another value type. */
  function Read(d: Disk, key: string, fault: ReadFault): Result<Option<ByteString>> {
    if fault.HasFails? then Err("store has failed")
    else if key !in d then Ok(None)
    else if fault.LoadFails? || d[key].OtherType? then Err("store load failed")
    else Ok(Some(d[key].bytes))
  }

  /** What one save leaves on disk. */
  function Saved(d: Disk, key: string, bytes: ByteString, fault: SaveFault): Disk {
    if fault.NotWritten? then d else d[key := Text(bytes)]
  }

  /** What one removal leaves on disk. */
  function Removed(d: Disk, key: string, fault: SaveFault): Disk {
    if fault.NotWritten? then d else d - {key}
  }

  class Store {
    var data: Disk
    ghost var trace: seq<Disk>

    ghost predicate Valid()
      reads this
    {
      |trace| > 0 && trace[|trace| - 1] == data
    }

    constructor (initial: Disk)
      ensures Valid() && data == initial && trace == [initial]
    {
      data := initial;
      trace := [initial];
    }

    method ReadText(key: string, fault: ReadFault) returns (r: Result<Option<ByteString>>)
      ensures r == Read(data, key, fault)
    {
      r := Read(data, key, fault);
    }

    method Save(key: string, bytes: ByteString, fault: SaveFault) returns (ok: bool)
      requires Valid()
      modifies this
      ensures Valid() && ok == fault.Works?
      ensures data == Saved(old(data), key, bytes, fault)
      ensures trace == if fault.NotWritten? then old(trace) else old(trace) + [data]
    {
      if !fault.NotWritten? {
        data := data[key := Text(bytes)];
        trace := trace + [data];
      }
      ok := fault.Works?;
    }

    /** Whether the key was there; throws when the removal fails, durable or not. */
    method Remove(key: string, fault: SaveFault) returns (r: Result<bool>)
      requires Valid()
      modifies this
      ensures Valid() && r == if fault.Works? then Ok(key in old(data)) else Err("store remove failed")
      ensures data == Removed(old(data), key, fault)
      ensures trace == if key in old(data) && !fault.NotWritten? then old(trace) + [data] else old(trace)
    {
      var there := key in data;
      if there && !fault.NotWritten? {
        data := data - {key};
        trace := trace + [data];
      } else {
        assert !there ==> data - {key} == data;
      }
      r := if fault.Works? then Ok(there) else Err("store remove failed");
    }
  }
}
