/** Typed records over the flat key space of the framework store. */
module CloudStateStore {
  import opened Wrappers
  import opened Bytes
  import opened CloudState
  import opened RecordText
  import opened DurableStore

  /** The record in a slot, if any; throws when its text does not decode. */
  function Loaded(c: RecordCodec, s: Slot, d: Disk): Result<Option<Record>> {
    if Key(s) !in d then Ok(None)
    else if d[Key(s)].OtherType? then Err("store load failed")
    else
      var r :- c.read(KindOf(s), d[Key(s)].bytes);
      Ok(Some(r))
  }

  function Put(c: RecordCodec, d: Disk, r: Record, now: I64): Disk {
    d[Key(SlotOf(r)) := Text(c.write(r, now))]
  }

  /** Saving one record sets its slot and changes no other. */
  lemma PutSetsOneSlot(c: RecordCodec, d: Disk, r: Record, now: I64, s: Slot)
    requires Lawful(c) && c.fits(r)
    ensures Loaded(c, s, Put(c, d, r, now)) == if s == SlotOf(r) then Ok(Some(r)) else Loaded(c, s, d)
  {
    KeysAreInjective(s, SlotOf(r));
    assert c.read(KindOf(SlotOf(r)), c.write(r, now)) == Ok(r);
  }

  /** Removing one record empties its slot and changes no other. */
  lemma RemoveClearsOneSlot(c: RecordCodec, d: Disk, gone: Slot, s: Slot)
    ensures Loaded(c, s, d - {Key(gone)}) == if s == gone then Ok(None) else Loaded(c, s, d)
  {
    KeysAreInjective(s, gone);
  }

  /** The load, save and remove of every category; they differ in key and record type only. */
  class FotaCloudStateStore {
    const store: Store

    constructor (store: Store)
      ensures this.store == store
    {
      this.store := store;
    }

    method Load(c: RecordCodec, s: Slot) returns (r: Result<Option<Record>>)
      ensures r == Loaded(c, s, store.data)
    {
      var read := store.ReadText(Key(s), ReadWorks);
      if read.Err? {
        return Err(read.error);
      }
      if read.value.None? {
        return Ok(None);
      }
      var decoded := c.read(KindOf(s), read.value.value);
      if decoded.Err? {
        return Err(decoded.error);
      }
      r := Ok(Some(decoded.value));
    }

    method Save(c: RecordCodec, r: Record, now: I64)
      requires store.Valid()
      modifies store
      ensures store.Valid() && store.trace == old(store.trace) + [store.data]
      ensures store.data == Put(c, old(store.data), r, now)
      ensures Lawful(c) && c.fits(r) ==>
                forall s :: Loaded(c, s, store.data) == if s == SlotOf(r) then Ok(Some(r)) else Loaded(c, s, old(store.data))
    {
      ghost var d := store.data;
      var saved := store.Save(Key(SlotOf(r)), c.write(r, now), Works);
      if Lawful(c) && c.fits(r) {
        forall s
          ensures Loaded(c, s, store.data) == if s == SlotOf(r) then Ok(Some(r)) else Loaded(c, s, d)
        {
          PutSetsOneSlot(c, d, r, now, s);
        }
      }
    }

    method Remove(c: RecordCodec, gone: Slot) returns (removed: bool)
      requires store.Valid()
      modifies store
      ensures store.Valid() && removed == (Key(gone) in old(store.data))
      ensures store.data == old(store.data) - {Key(gone)}
      ensures forall s :: Loaded(c, s, store.data) == if s == gone then Ok(None) else Loaded(c, s, old(store.data))
    {
      ghost var d := store.data;
      var r := store.Remove(Key(gone), Works);
      removed := r.value;
      forall s
        ensures Loaded(c, s, store.data) == if s == gone then Ok(None) else Loaded(c, s, d)
      {
        RemoveClearsOneSlot(c, d, gone, s);
      }
    }
  }

  // ---------------------------------------------------------------- refinement over runs

  datatype Op = SaveOp(record: Record, now: I64) | RemoveOp(slot: Slot)

  function RunFlat(c: RecordCodec, d: Disk, ops: seq<Op>): Disk
    decreases |ops|
  {
    if ops == [] then d else
    RunFlat(c, match ops[0] case SaveOp(r, now) => Put(c, d, r, now) case RemoveOp(s) => d - {Key(s)}, ops[1..])
  }

  /** The same run on independent cells, one per slot. */
  function RunTyped(m: map<Slot, Record>, ops: seq<Op>): map<Slot, Record>
    decreases |ops|
  {
    if ops == [] then m else
    RunTyped(match ops[0] case SaveOp(r, _) => m[SlotOf(r) := r] case RemoveOp(s) => m - {s}, ops[1..])
  }

  ghost predicate Represents(c: RecordCodec, d: Disk, m: map<Slot, Record>) {
    forall s :: Loaded(c, s, d) == Ok(if s in m then Some(m[s]) else None)
  }

  /** Any run of saves and removes on the flat keys acts as on independent typed maps. */
  lemma {:induction false} FlatRefinesTyped(c: RecordCodec, d: Disk, m: map<Slot, Record>, ops: seq<Op>)
    requires Lawful(c) && Represents(c, d, m)
    requires forall i :: 0 <= i < |ops| && ops[i].SaveOp? ==> c.fits(ops[i].record)
    ensures Represents(c, RunFlat(c, d, ops), RunTyped(m, ops))
    decreases |ops|
  {
    if ops != [] {
      match ops[0]
      case SaveOp(r, now) =>
        forall s
          ensures Loaded(c, s, Put(c, d, r, now))
               == Ok(if s == SlotOf(r) then Some(r) else if s in m then Some(m[s]) else None)
        {
          PutSetsOneSlot(c, d, r, now, s);
        }
        FlatRefinesTyped(c, Put(c, d, r, now), m[SlotOf(r) := r], ops[1..]);
      case RemoveOp(gone) =>
        forall s
          ensures Loaded(c, s, d - {Key(gone)}) == Ok(if s != gone && s in m then Some(m[s]) else None)
        {
          RemoveClearsOneSlot(c, d, gone, s);
        }
        FlatRefinesTyped(c, d - {Key(gone)}, m - {gone}, ops[1..]);
    }
  }
}
