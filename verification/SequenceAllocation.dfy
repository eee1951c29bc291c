/** Exactly when a sequence number is handed out, and what each failure leaves behind. */
module SequenceAllocation {
  import opened Wrappers
  import opened Bytes
  import opened StateSerializer
  import opened StateCodec
  import opened DurableStore
  import opened StateStoreSpec

  const SEQUENCE_KEY: string := "inventory.sequence"

  /** The number stored: 0 with nothing there, none when the record cannot be read. */
  function StoredNumber(c: Codec, d: Disk, fault: ReadFault): Option<nat> {
    if fault.HasFails? then None
    else if SEQUENCE_KEY !in d then Some(0)
    else if fault.LoadFails? || d[SEQUENCE_KEY].OtherType? then None
    else
      match c.decode(Sequence, d[SEQUENCE_KEY].bytes)
      case Err(_) => None
      case Ok(state) => if state.SequenceState? then Some(state.highestAllocated) else None
  }

  /** There is a number to hand out. */
  predicate Available(c: Codec, blocked: bool, d: Disk, fault: ReadFault) {
    !blocked && StoredNumber(c, d, fault).Some? && StoredNumber(c, d, fault).value < 0xFFFF_FFFF_FFFF_FFFF
  }

  function NumberIn(state: Option<State>): nat {
    match state
    case None => 0
    case Some(s) => if s.SequenceState? then s.highestAllocated else 0
  }

  lemma ReadIsStoredNumber(c: Codec, d: Disk, fault: ReadFault)
    requires Sound(c)
    ensures var r := ReadState(Sequence, c, d, fault);
            && (r.Ok? <==> StoredNumber(c, d, fault).Some?)
            && (r.Ok? ==> StoredNumber(c, d, fault) == Some(NumberIn(r.value)))
  {
    if SEQUENCE_KEY in d && d[SEQUENCE_KEY].Text? {
      var b := d[SEQUENCE_KEY].bytes;
      assert c.decode(Sequence, b).Ok? ==> KindOf(c.decode(Sequence, b).value) == Sequence;
    }
  }

  /** A number is handed out if and only if the store is not blocked, its record can be read and
      is below the last number, and the save works; it is the next number, and that is what the
      one save has stored. Anything else leaves the store blocked; and it leaves the disk as it
      was, unless the save failed after it had been written. */
  lemma AllocatesIff(c: Codec, blocked: bool, d: Disk, e: AllocEnv)
    requires Sound(c)
    ensures var a := Allocate(c, blocked, d, e);
            && (a.result.Ok? <==> Available(c, blocked, d, e.read) && e.save.Works?)
            && (a.result.Ok? ==> StoredNumber(c, d, e.read) == Some(a.result.value - 1))
            && (a.blocked <==> a.result.Err?)
            && (a.disks == [] <==> !Available(c, blocked, d, e.read) || e.save.NotWritten?)
            && (a.disks != [] ==>
                  a.disks == [d[SEQUENCE_KEY :=
                    Text(c.encode(SequenceState(1, (StoredNumber(c, d, e.read).value + 1) as U64, e.now), e.now))]])
  {
    ReadIsStoredNumber(c, d, e.read);
  }
}
