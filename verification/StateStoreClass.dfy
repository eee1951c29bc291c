/** The runtime store object: the disk behind it and the flags it keeps in memory. */
module StateStoreClass {
  import opened Wrappers
  import opened Bytes
  import opened StateSerializer
  import opened StateCodec
  import opened CrashSchedules
  import opened DurableStore
  import opened StateStoreSpec

  class FotaStateStore {
    const store: Store
    const dedupeMaxEntries: U32
    const dedupeTtlMs: I64
    var sequenceBlocked: bool
    var lastSuccessAvailable: bool
    var dedupeAvailable: bool
    var activeJobCorrupted: bool

    /** Checks, upgrades and validates the four keys, and sets the flags from what it met. */
    constructor Open(store: Store, c: Codec, dedupeMaxEntries: U32, dedupeTtlMs: I64, env: Kind -> UpgradeEnv)
      requires store.Valid()
      modifies store
      ensures store.Valid() && this.store == store
      ensures this.dedupeMaxEntries == dedupeMaxEntries && this.dedupeTtlMs == dedupeTtlMs
      ensures var o := OpenAll(c, old(store.data), env);
              && store.trace == old(store.trace) + o.disks
              && store.data == Last(old(store.data), o.disks)
              && sequenceBlocked == o.sequenceCorrupt
              && lastSuccessAvailable == !o.lastSuccessCorrupt
              && dedupeAvailable == !o.dedupeCorrupt
              && activeJobCorrupted == o.activeJobCorrupt
    {
      this.store := store;
      this.dedupeMaxEntries := dedupeMaxEntries;
      this.dedupeTtlMs := dedupeTtlMs;
      new;
      var seqCorrupted := MigrateOne(store, Sequence, c, env(Sequence));
      var lastSuccessCorrupted := MigrateOne(store, LastSuccess, c, env(LastSuccess));
      var dedupeCorrupted := MigrateOne(store, Dedupe, c, env(Dedupe));
      var jobCorrupted := MigrateOne(store, ActiveJob, c, env(ActiveJob));
      TracesJoin(c, old(store.data), env, old(store.trace));
      sequenceBlocked := seqCorrupted;
      lastSuccessAvailable := !lastSuccessCorrupted;
      dedupeAvailable := !dedupeCorrupted;
      activeJobCorrupted := jobCorrupted;
    }

    static method MigrateOne(store: Store, kind: Kind, c: Codec, e: UpgradeEnv) returns (corrupt: bool)
      requires store.Valid()
      modifies store
      ensures store.Valid()
      ensures var u := MigrateAndValidate(kind, c, old(store.data), e);
              && corrupt == u.corrupt
              && store.trace == old(store.trace) + u.disks
              && store.data == Last(old(store.data), u.disks)
    {
      var read := store.ReadText(KeyOf(kind), e.read);
      if read.Err? {
        return true;
      }
      if read.value.None? {
        return false;
      }
      var bytes := read.value.value;
      var h := c.version(bytes);
      if h.Err? || h.value > CurrentVersion(kind) {
        return true;
      }
      if h.value == CurrentVersion(kind) {
        var valid := c.decode(kind, bytes);
        return valid.Err?;
      }
      corrupt := BackUpAndRewrite(store, KeyOf(kind), BackupKey(kind, h.value), kind, c, bytes, e);
    }

    static method BackUpAndRewrite(
      store: Store, key: string, backupKey: string, kind: Kind, c: Codec, bytes: ByteString, e: UpgradeEnv)
      returns (corrupt: bool)
      requires store.Valid()
      modifies store
      ensures store.Valid()
      ensures var u := Perform(key, Rewriting(kind, c, backupKey, bytes, e.now), old(store.data), e);
              && corrupt == u.corrupt
              && store.trace == old(store.trace) + u.disks
              && store.data == Last(old(store.data), u.disks)
    {
      var backedUp := store.Save(backupKey, bytes, e.backup);
      if !backedUp {
        return true;
      }
      var state := c.decode(kind, bytes);
      if state.Err? {
        return true;
      }
      var rewritten := c.encode(state.value, e.now);
      var saved := store.Save(key, rewritten, e.rewrite);
      if !saved {
        return true;
      }
      var again := store.ReadText(key, e.verify);
      if again.Err? {
        return true;
      }
      var verified := c.decode(kind, again.value.value);
      return verified.Err?;
    }

    /** Load, check, advance and store; the number counts only once it is durable. */
    method AllocateSnapshotSeq(c: Codec, e: AllocEnv) returns (r: Result<U64>)
      requires store.Valid()
      modifies this`sequenceBlocked, store
      ensures store.Valid()
      ensures var a := Allocate(c, old(sequenceBlocked), old(store.data), e);
              && r == a.result && sequenceBlocked == a.blocked
              && store.trace == old(store.trace) + a.disks
              && store.data == Last(old(store.data), a.disks)
    {
      if sequenceBlocked {
        return Err("STATE_BLOCKED");
      }
      var current := Load(Sequence, c, e.read);
      if current.Err? {
        sequenceBlocked := true;
        return Err(current.error);
      }
      var highest: U64 := 0;
      if current.value.Some? && current.value.value.SequenceState? {
        highest := current.value.value.highestAllocated;
      }
      if highest >= SNAPSHOT_SEQ_MAX {
        sequenceBlocked := true;
        return Err("OVERFLOW");
      }
      var next := SequenceState(CurrentVersion(Sequence), highest + 1, e.now);
      var saved := store.Save(KeyOf(Sequence), c.encode(next, e.now), e.save);
      if !saved {
        sequenceBlocked := true;
        return Err("sequence save failed");
      }
      r := Ok(highest + 1);
    }

    method Load(kind: Kind, c: Codec, fault: ReadFault) returns (r: Result<Option<State>>)
      ensures r == ReadState(kind, c, store.data, fault)
    {
      var read := store.ReadText(KeyOf(kind), fault);
      if read.Err? {
        return Err(read.error);
      }
      if read.value.None? {
        return Ok(None);
      }
      var state := c.decode(kind, read.value.value);
      if state.Err? {
        return Err(state.error);
      }
      r := Ok(Some(state.value));
    }

    function FlagsNow(): Flags
      reads this
    {
      Flags(sequenceBlocked, lastSuccessAvailable, dedupeAvailable, activeJobCorrupted)
    }

    function Limits(): Limits {
      StateStoreSpec.Limits(dedupeMaxEntries, dedupeTtlMs)
    }

    method LoadKind(kind: Kind, c: Codec, fault: ReadFault) returns (r: Result<Option<State>>)
      ensures r == Loaded(kind, c, store.data, fault)
    {
      r := Load(kind, c, fault);
      if r.Ok? && r.value.Some? && KindOf(r.value.value) != kind {
        r := Err("wrong kind");
      }
    }

    method LoadSequence(c: Codec, fault: ReadFault) returns (s: Option<State>)
      ensures s == if sequenceBlocked then None else Present(Loaded(Sequence, c, store.data, fault))
    {
      if sequenceBlocked {
        return None;
      }
      var r := LoadKind(Sequence, c, fault);
      s := if r.Ok? then r.value else None;
    }

    method LoadLastSuccess(c: Codec, fault: ReadFault) returns (s: Option<State>)
      modifies this`lastSuccessAvailable
      ensures var r := Loaded(LastSuccess, c, store.data, fault);
              && s == (if old(lastSuccessAvailable) then Present(r) else None)
              && lastSuccessAvailable == (old(lastSuccessAvailable) && r.Ok?)
    {
      if !lastSuccessAvailable {
        return None;
      }
      var r := LoadKind(LastSuccess, c, fault);
      if r.Err? {
        lastSuccessAvailable := false;
        return None;
      }
      s := r.value;
    }

    method LoadDedupe(c: Codec, fault: ReadFault) returns (s: State)
      modifies this`dedupeAvailable
      ensures var r := Loaded(Dedupe, c, store.data, fault);
              && s == (if old(dedupeAvailable) then Window(r, Limits()) else EmptyDedupe(Limits()))
              && dedupeAvailable == (old(dedupeAvailable) && r.Ok?)
    {
      if !dedupeAvailable {
        return EmptyDedupe(Limits());
      }
      var r := LoadKind(Dedupe, c, fault);
      if r.Err? {
        dedupeAvailable := false;
        return EmptyDedupe(Limits());
      }
      if r.value.None? {
        return EmptyDedupe(Limits());
      }
      s := r.value.value.(maxEntries := dedupeMaxEntries, ttlMs := dedupeTtlMs);
    }

    /** Throws when the save fails; only a successful save makes the window available again. */
    method SaveDedupe(c: Codec, s: State, now: I64, fault: SaveFault) returns (r: Result<()>)
      requires store.Valid()
      modifies this`dedupeAvailable, store
      ensures store.Valid() && r == if fault.Works? then Ok(()) else Err("dedupe save failed")
      ensures dedupeAvailable == (old(dedupeAvailable) || fault.Works?)
      ensures store.data == Saved(old(store.data), KeyOf(Dedupe), c.encode(s, now), fault)
      ensures store.trace == old(store.trace) + if fault.NotWritten? then [] else [store.data]
    {
      var ok := store.Save(KeyOf(Dedupe), c.encode(s, now), fault);
      if !ok {
        return Err("dedupe save failed");
      }
      dedupeAvailable := true;
      r := Ok(());
    }

    method LoadActiveJob(c: Codec, fault: ReadFault) returns (s: Option<State>)
      modifies this`activeJobCorrupted
      ensures var r := Loaded(ActiveJob, c, store.data, fault);
              && s == Present(r)
              && activeJobCorrupted == (old(activeJobCorrupted) || r.Err?)
    {
      var r := LoadKind(ActiveJob, c, fault);
      if r.Err? {
        activeJobCorrupted := true;
        return None;
      }
      s := r.value;
    }

    /** Throws when the removal fails. */
    method RemoveActiveJob(fault: SaveFault) returns (r: Result<()>)
      requires store.Valid()
      modifies store
      ensures store.Valid() && r == if fault.Works? then Ok(()) else Err("store remove failed")
      ensures store.data == Removed(old(store.data), KeyOf(ActiveJob), fault)
      ensures store.trace == old(store.trace)
                             + if KeyOf(ActiveJob) in old(store.data) && !fault.NotWritten? then [store.data] else []
    {
      var removed := store.Remove(KeyOf(ActiveJob), fault);
      r := if removed.Ok? then Ok(()) else Err(removed.error);
    }
  }
}
