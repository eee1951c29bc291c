/** What opening the runtime store and allocating sequence numbers do to the disk. */
module StateStoreSpec {
  import opened Wrappers
  import opened Bytes
  import opened StateSerializer
  import opened StateCodec
  import opened DurableStore
  import opened CrashSchedules

  function KeyOf(kind: Kind): string {
    match kind
    case Sequence => "inventory.sequence"
    case LastSuccess => "inventory.last_success"
    case Dedupe => "inventory.dedupe"
    case ActiveJob => "inventory.active_job"
  }

  function VersionDigit(v: U32): string {
    if v == 0 then "0" else "1"
  }

  /** Where the bytes of an outdated record are kept before it is rewritten. */
  function BackupKey(kind: Kind, version: U32): string {
    "migration.backup." + KeyOf(kind) + ".v" + VersionDigit(version)
  }

  lemma KeysAreDistinct(a: Kind, b: Kind)
    ensures KeyOf(a) == KeyOf(b) <==> a == b
  {
    assert |KeyOf(Sequence)| == 18 && |KeyOf(LastSuccess)| == 22;
    assert |KeyOf(Dedupe)| == 16 && |KeyOf(ActiveJob)| == 20;
  }

  lemma BackupKeysAreApart(a: Kind, b: Kind, version: U32)
    ensures BackupKey(a, version) != KeyOf(b)
  {
    assert BackupKey(a, version)[0] == 'm' && KeyOf(b)[0] == 'i';
  }

  /** Load, decode and upgrade the record of one kind. */
  function ReadState(kind: Kind, c: Codec, d: Disk, fault: ReadFault): Result<Option<State>> {
    var bytes :- Read(d, KeyOf(kind), fault);
    match bytes
    case None => Ok(None)
    case Some(b) =>
      var s :- c.decode(kind, b);
      Ok(Some(s))
  }

  // ------------------------------------------------------------------ opening one key

  datatype UpgradeEnv = UpgradeEnv(
    read: ReadFault, backup: SaveFault, rewrite: SaveFault, verify: ReadFault, now: I64)

  /** The durable contents one upgrade passes through, and whether it flags corruption. */
  datatype Upgraded = Upgraded(disks: seq<Disk>, corrupt: bool)

  /** What a stored record calls for. */
  datatype Assessment =
    | Absent
    | Unusable
    | Current(valid: bool)
    | Outdated(backupKey: string, bytes: ByteString, rewritten: Result<ByteString>, rereads: bool)

  function Assess(kind: Kind, c: Codec, d: Disk, e: UpgradeEnv): Assessment {
    var read := Read(d, KeyOf(kind), e.read);
    if read.Err? then Unusable
    else if read.value.None? then Absent
    else AssessBytes(kind, c, read.value.value, e.now)
  }

  function AssessBytes(kind: Kind, c: Codec, bytes: ByteString, now: I64): Assessment {
    var h := c.version(bytes);
    if h.Err? || h.value > CurrentVersion(kind) then Unusable
    else if h.value == CurrentVersion(kind) then Current(c.decode(kind, bytes).Ok?)
    else Rewriting(kind, c, BackupKey(kind, h.value), bytes, now)
  }

  function Rewriting(kind: Kind, c: Codec, backupKey: string, bytes: ByteString, now: I64): Assessment {
    match c.decode(kind, bytes)
    case Err(error) => Outdated(backupKey, bytes, Err(error), false)
    case Ok(state) =>
      var rewritten := c.encode(state, now);
      Outdated(backupKey, bytes, Ok(rewritten), c.decode(kind, rewritten).Ok?)
  }

  /** Backup, rewrite, verify: each save may fail, before or after it became durable. */
  function Perform(key: string, a: Assessment, d: Disk, e: UpgradeEnv): Upgraded {
    match a
    case Absent => Upgraded([], false)
    case Unusable => Upgraded([], true)
    case Current(valid) => Upgraded([], !valid)
    case Outdated(backupKey, bytes, rewritten, rereads) =>
      var d1 := Saved(d, backupKey, bytes, e.backup);
      var disks1 := if e.backup.NotWritten? then [] else [d1];
      if !e.backup.Works? || rewritten.Err? then Upgraded(disks1, true)
      else
        var d2 := Saved(d1, key, rewritten.value, e.rewrite);
        var disks2 := if e.rewrite.NotWritten? then disks1 else disks1 + [d2];
        Upgraded(disks2, !e.rewrite.Works? || e.verify != ReadWorks || !rereads)
  }

  function MigrateAndValidate(kind: Kind, c: Codec, d: Disk, e: UpgradeEnv): Upgraded {
    Perform(KeyOf(kind), Assess(kind, c, d, e), d, e)
  }

  // ------------------------------------------------------------------ upgrade theorems

  ghost predicate SameExcept(d: Disk, x: Disk, key: string, backupKey: string) {
    forall k :: k != key && k != backupKey ==> (k in x <==> k in d) && (k in d ==> x[k] == d[k])
  }

  lemma PerformIsRecoverable(key: string, a: Assessment, d: Disk, e: UpgradeEnv, i: nat)
    requires a.Outdated? ==> key in d && d[key] == Text(a.bytes) && key != a.backupKey
    requires i < |Perform(key, a, d, e).disks|
    ensures var x := Perform(key, a, d, e).disks[i];
            && a.Outdated? && key in x && a.backupKey in x
            && (x[key] == d[key] || x[a.backupKey] == d[key])
            && (x[key] == d[key] || (a.rewritten.Ok? && x[key] == Text(a.rewritten.value)))
            && SameExcept(d, x, key, a.backupKey)
  {
  }

  lemma AssessOutdated(kind: Kind, c: Codec, d: Disk, e: UpgradeEnv)
    requires Assess(kind, c, d, e).Outdated?
    ensures var a := Assess(kind, c, d, e);
            && KeyOf(kind) in d && d[KeyOf(kind)] == Text(a.bytes)
            && c.version(a.bytes).Ok?
            && a.backupKey == BackupKey(kind, c.version(a.bytes).value)
            && forall other :: a.backupKey != KeyOf(other)
  {
    var bytes := Assess(kind, c, d, e).bytes;
    forall other {
      BackupKeysAreApart(kind, other, c.version(bytes).value);
    }
  }

  /** Wherever the upgrade is cut off, the record or its backup holds the original bytes,
      and no other key has changed. */
  lemma UpgradeIsRecoverable(kind: Kind, c: Codec, d: Disk, e: UpgradeEnv, i: nat)
    requires i < |MigrateAndValidate(kind, c, d, e).disks|
    ensures KeyOf(kind) in d && d[KeyOf(kind)].Text? && c.version(d[KeyOf(kind)].bytes).Ok?
    ensures var x := MigrateAndValidate(kind, c, d, e).disks[i];
            var backup := BackupKey(kind, c.version(d[KeyOf(kind)].bytes).value);
            && KeyOf(kind) in x && backup in x
            && (x[KeyOf(kind)] == d[KeyOf(kind)] || x[backup] == d[KeyOf(kind)])
            && SameExcept(d, x, KeyOf(kind), backup)
  {
    AssessOutdated(kind, c, d, e);
    PerformIsRecoverable(KeyOf(kind), Assess(kind, c, d, e), d, e, i);
  }

  /** The state stored under a key, if any, is one the envelope can hold. */
  predicate Fits(kind: Kind, c: Codec, d: Disk) {
    var r := ReadState(kind, c, d, ReadWorks);
    r.Ok? && r.value.Some? ==> c.fits(r.value.value)
  }

  predicate FitsBytes(kind: Kind, c: Codec, bytes: ByteString) {
    c.decode(kind, bytes).Ok? ==> c.fits(c.decode(kind, bytes).value)
  }

  /** A rewritten record decodes to what the original decoded to. */
  lemma RewrittenMeansTheSame(kind: Kind, c: Codec, bytes: ByteString, now: I64)
    requires Sound(c) && FitsBytes(kind, c, bytes)
    requires AssessBytes(kind, c, bytes, now).Outdated?
    ensures var a := AssessBytes(kind, c, bytes, now);
            && a.rewritten.Ok? == c.decode(kind, bytes).Ok? == a.rereads
            && (a.rewritten.Ok? ==> && c.decode(kind, a.rewritten.value) == c.decode(kind, bytes)
                                    && AssessBytes(kind, c, a.rewritten.value, now) == Current(true))
  {
    if c.decode(kind, bytes).Ok? {
      var s := c.decode(kind, bytes).value;
      assert c.decode(KindOf(s), c.encode(s, now)) == Ok(s);
    }
  }

  lemma ReadFollowsKey(kind: Kind, c: Codec, d: Disk, x: Disk)
    requires KeyOf(kind) in d <==> KeyOf(kind) in x
    requires KeyOf(kind) in d ==> x[KeyOf(kind)] == d[KeyOf(kind)]
    ensures ReadState(kind, c, x, ReadWorks) == ReadState(kind, c, d, ReadWorks)
  {
  }

  lemma ReadFollowsMeaning(kind: Kind, c: Codec, d: Disk, x: Disk)
    requires KeyOf(kind) in d && KeyOf(kind) in x && d[KeyOf(kind)].Text? && x[KeyOf(kind)].Text?
    requires c.decode(kind, x[KeyOf(kind)].bytes) == c.decode(kind, d[KeyOf(kind)].bytes)
    ensures ReadState(kind, c, x, ReadWorks) == ReadState(kind, c, d, ReadWorks)
  {
  }

  /** At no crash point does the upgrade change what any record decodes to. */
  lemma UpgradeKeepsState(kind: Kind, c: Codec, d: Disk, e: UpgradeEnv, i: nat, other: Kind)
    requires Sound(c) && Fits(other, c, d)
    requires i < |MigrateAndValidate(kind, c, d, e).disks|
    ensures ReadState(other, c, MigrateAndValidate(kind, c, d, e).disks[i], ReadWorks) == ReadState(other, c, d, ReadWorks)
  {
    var a := Assess(kind, c, d, e);
    AssessOutdated(kind, c, d, e);
    PerformIsRecoverable(KeyOf(kind), a, d, e, i);
    KeysAreDistinct(kind, other);
    var x := MigrateAndValidate(kind, c, d, e).disks[i];
    if x[KeyOf(kind)] == d[KeyOf(kind)] || kind != other {
      ReadFollowsKey(other, c, d, x);
    } else {
      RewrittenMeansTheSame(kind, c, a.bytes, e.now);
      ReadFollowsMeaning(kind, c, d, x);
    }
  }

  // ------------------------------------------------------ any schedule of cut upgrades

  /** The original text is still there, under the key or as its backup beside a rewritten
      record that no further upgrade touches. */
  predicate Recoverable(kind: Kind, c: Codec, d: Disk, x: Disk) {
    var key := KeyOf(kind);
    && (key in x <==> key in d)
    && (key in d ==>
          || x[key] == d[key]
          || (RewrittenFrom(kind, c, d[key], x) && x[key].Text? && AtCurrentVersion(kind, c, x[key].bytes)))
  }

  predicate RewrittenFrom(kind: Kind, c: Codec, original: Stored, x: Disk) {
    && original.Text? && c.version(original.bytes).Ok?
    && BackupKey(kind, c.version(original.bytes).value) in x
    && x[BackupKey(kind, c.version(original.bytes).value)] == original
  }

  predicate AtCurrentVersion(kind: Kind, c: Codec, bytes: ByteString) {
    c.version(bytes) == Ok(CurrentVersion(kind))
  }

  lemma RewrittenIsUpToDate(kind: Kind, c: Codec, bytes: ByteString, now: I64)
    requires Sound(c) && FitsBytes(kind, c, bytes)
    requires AssessBytes(kind, c, bytes, now).Outdated? && AssessBytes(kind, c, bytes, now).rewritten.Ok?
    ensures AtCurrentVersion(kind, c, AssessBytes(kind, c, bytes, now).rewritten.value)
  {
    RewrittenMeansTheSame(kind, c, bytes, now);
  }

  lemma NothingMoreToRewrite(kind: Kind, c: Codec, x: Disk, e: UpgradeEnv)
    requires KeyOf(kind) in x ==> x[KeyOf(kind)].OtherType? || AtCurrentVersion(kind, c, x[KeyOf(kind)].bytes)
    ensures MigrateAndValidate(kind, c, x, e).disks == []
  {
  }

  lemma UpgradeStaysRecoverable(kind: Kind, c: Codec, d: Disk, x: Disk, e: UpgradeEnv, i: nat)
    requires Sound(c) && Fits(kind, c, d) && Recoverable(kind, c, d, x)
    requires i < |MigrateAndValidate(kind, c, x, e).disks|
    ensures Recoverable(kind, c, d, MigrateAndValidate(kind, c, x, e).disks[i])
  {
    var key := KeyOf(kind);
    AssessOutdated(kind, c, x, e);
    if x[key] != d[key] {
      NothingMoreToRewrite(kind, c, x, e);
      assert false;
    }
    var a := Assess(kind, c, x, e);
    PerformIsRecoverable(key, a, x, e, i);
    if a.rewritten.Ok? {
      RewrittenIsUpToDate(kind, c, a.bytes, e.now);
    }
  }

  /** However often the upgrade is cut off at a write or fails, and started again, the key or
      its backup holds the original text. */
  lemma UpgradeIsAlwaysRecoverable(kind: Kind, c: Codec, d: Disk, cuts: seq<Cut<UpgradeEnv>>)
    requires Sound(c) && Fits(kind, c, d)
    ensures var x := AfterCuts((d, e) => MigrateAndValidate(kind, c, d, e).disks, d, cuts);
            && (KeyOf(kind) in x <==> KeyOf(kind) in d)
            && (KeyOf(kind) in d ==> x[KeyOf(kind)] == d[KeyOf(kind)] || RewrittenFrom(kind, c, d[KeyOf(kind)], x))
  {
    var run := (d, e) => MigrateAndValidate(kind, c, d, e).disks;
    var inv := x => Recoverable(kind, c, d, x);
    forall x, e, i | inv(x) && 0 <= i < |run(x, e)|
      ensures inv(run(x, e)[i])
    {
      UpgradeStaysRecoverable(kind, c, d, x, e, i);
    }
    CutsKeepOutcome(run, inv, x => true, d, cuts);
  }

  /** Without I/O faults the flag means exactly: there is a record and it does not decode. */
  lemma CorruptMeansUndecodable(kind: Kind, c: Codec, d: Disk, now: I64)
    requires Sound(c) && Fits(kind, c, d)
    ensures var e := UpgradeEnv(ReadWorks, Works, Works, ReadWorks, now);
            MigrateAndValidate(kind, c, d, e).corrupt <==> ReadState(kind, c, d, ReadWorks).Err?
  {
    if KeyOf(kind) in d && d[KeyOf(kind)].Text? {
      AssessedMeansUndecodable(kind, c, d[KeyOf(kind)].bytes, now);
    }
  }

  lemma AssessedMeansUndecodable(kind: Kind, c: Codec, bytes: ByteString, now: I64)
    requires Sound(c) && FitsBytes(kind, c, bytes)
    ensures var a := AssessBytes(kind, c, bytes, now);
            c.decode(kind, bytes).Err? <==>
              a.Unusable? || a == Current(false) || (a.Outdated? && (a.rewritten.Err? || !a.rereads))
  {
    if AssessBytes(kind, c, bytes, now).Outdated? {
      RewrittenMeansTheSame(kind, c, bytes, now);
    }
  }

  /** A completed upgrade has nothing left to do: the next open writes nothing. */
  lemma UpgradeIsIdempotent(kind: Kind, c: Codec, d: Disk, e: UpgradeEnv)
    requires Sound(c) && Fits(kind, c, d)
    requires !MigrateAndValidate(kind, c, d, e).corrupt
    ensures var after := Last(d, MigrateAndValidate(kind, c, d, e).disks);
            MigrateAndValidate(kind, c, after, e) == Upgraded([], false)
  {
    var a := Assess(kind, c, d, e);
    if a.Outdated? {
      AssessOutdated(kind, c, d, e);
      RewrittenMeansTheSame(kind, c, a.bytes, e.now);
      var after := Last(d, MigrateAndValidate(kind, c, d, e).disks);
      assert after[KeyOf(kind)] == Text(a.rewritten.value);
      assert Assess(kind, c, after, e) == Current(true);
    }
  }

  // ------------------------------------------------------------------ opening the store

  datatype Opened = Opened(
    disks: seq<Disk>, sequenceCorrupt: bool, lastSuccessCorrupt: bool, dedupeCorrupt: bool, activeJobCorrupt: bool)

  /** The four upgrades in the order `open` runs them. */
  function OpenAll(c: Codec, d: Disk, env: Kind -> UpgradeEnv): Opened {
    var a := MigrateAndValidate(Sequence, c, d, env(Sequence));
    var d1 := Last(d, a.disks);
    var b := MigrateAndValidate(LastSuccess, c, d1, env(LastSuccess));
    var d2 := Last(d1, b.disks);
    var u := MigrateAndValidate(Dedupe, c, d2, env(Dedupe));
    var d3 := Last(d2, u.disks);
    var f := MigrateAndValidate(ActiveJob, c, d3, env(ActiveJob));
    Opened(a.disks + b.disks + u.disks + f.disks, a.corrupt, b.corrupt, u.corrupt, f.corrupt)
  }

  lemma LastOfJoin(d: Disk, xs: seq<Disk>, ys: seq<Disk>)
    ensures Last(d, xs + ys) == Last(Last(d, xs), ys)
  {
  }

  lemma TracesRegroup<T>(t: seq<T>, a: seq<T>, b: seq<T>, u: seq<T>, f: seq<T>)
    ensures t + a + b + u + f == t + (a + b + u + f)
  {
  }

  /** The four upgrades, one after the other, are the opening. */
  lemma TracesJoin(c: Codec, d: Disk, env: Kind -> UpgradeEnv, trace: seq<Disk>)
    ensures var a := MigrateAndValidate(Sequence, c, d, env(Sequence));
            var d1 := Last(d, a.disks);
            var b := MigrateAndValidate(LastSuccess, c, d1, env(LastSuccess));
            var d2 := Last(d1, b.disks);
            var u := MigrateAndValidate(Dedupe, c, d2, env(Dedupe));
            var d3 := Last(d2, u.disks);
            var f := MigrateAndValidate(ActiveJob, c, d3, env(ActiveJob));
            var o := OpenAll(c, d, env);
            && trace + a.disks + b.disks + u.disks + f.disks == trace + o.disks
            && Last(d3, f.disks) == Last(d, o.disks)
  {
    var a := MigrateAndValidate(Sequence, c, d, env(Sequence)).disks;
    var d1 := Last(d, a);
    var b := MigrateAndValidate(LastSuccess, c, d1, env(LastSuccess)).disks;
    var d2 := Last(d1, b);
    var u := MigrateAndValidate(Dedupe, c, d2, env(Dedupe)).disks;
    var d3 := Last(d2, u);
    var f := MigrateAndValidate(ActiveJob, c, d3, env(ActiveJob)).disks;
    TracesRegroup(trace, a, b, u, f);
    LastOfJoin(d, a, b);
    LastOfJoin(d, a + b, u);
    LastOfJoin(d, a + b + u, f);
  }

  ghost predicate SameState(kind: Kind, c: Codec, d: Disk, x: Disk) {
    ReadState(kind, c, x, ReadWorks) == ReadState(kind, c, d, ReadWorks)
  }

  ghost predicate AllSame(kind: Kind, c: Codec, d: Disk, disks: seq<Disk>) {
    forall i :: 0 <= i < |disks| ==> SameState(kind, c, d, disks[i])
  }

  lemma UpgradeKeepsStates(kind: Kind, c: Codec, d: Disk, e: UpgradeEnv, other: Kind) returns (disks: seq<Disk>)
    requires Sound(c) && Fits(other, c, d)
    ensures disks == MigrateAndValidate(kind, c, d, e).disks
    ensures AllSame(other, c, d, disks) && Fits(other, c, Last(d, disks))
  {
    disks := MigrateAndValidate(kind, c, d, e).disks;
    forall i | 0 <= i < |disks|
      ensures SameState(other, c, d, disks[i])
    {
      UpgradeKeepsState(kind, c, d, e, i, other);
    }
  }

  lemma SameFollows(kind: Kind, c: Codec, d: Disk, d1: Disk, xs: seq<Disk>, ys: seq<Disk>)
    requires AllSame(kind, c, d, xs) && d1 == Last(d, xs) && AllSame(kind, c, d1, ys)
    ensures AllSame(kind, c, d, xs + ys) && Last(d, xs + ys) == Last(d1, ys)
  {
    assert SameState(kind, c, d, d1);
    forall i | 0 <= i < |ys|
      ensures SameState(kind, c, d, ys[i])
    {
      assert SameState(kind, c, d1, ys[i]);
    }
  }

  lemma PrefixIsSame(kind: Kind, c: Codec, d: Disk, disks: seq<Disk>, writes: nat)
    requires AllSame(kind, c, d, disks) && writes <= |disks|
    ensures SameState(kind, c, d, Last(d, disks[..writes]))
  {
    if writes > 0 {
      assert SameState(kind, c, d, disks[writes - 1]);
    }
  }

  /** Opening the store, cut off at any write, does not change what a record decodes to. */
  lemma OpenKeepsState(kind: Kind, c: Codec, d: Disk, env: Kind -> UpgradeEnv)
    requires Sound(c) && Fits(kind, c, d)
    ensures AllSame(kind, c, d, OpenAll(c, d, env).disks)
    ensures SameState(kind, c, d, Last(d, OpenAll(c, d, env).disks))
  {
    var a := UpgradeKeepsStates(Sequence, c, d, env(Sequence), kind);
    var d1 := Last(d, a);
    var b := UpgradeKeepsStates(LastSuccess, c, d1, env(LastSuccess), kind);
    SameFollows(kind, c, d, d1, a, b);
    var d2 := Last(d1, b);
    var u := UpgradeKeepsStates(Dedupe, c, d2, env(Dedupe), kind);
    SameFollows(kind, c, d, d2, a + b, u);
    var d3 := Last(d2, u);
    var f := UpgradeKeepsStates(ActiveJob, c, d3, env(ActiveJob), kind);
    SameFollows(kind, c, d, d3, a + b + u, f);
  }

  // ------------------------------------------------------------- allocating a sequence

  const SNAPSHOT_SEQ_MAX: U64 := 0xFFFF_FFFF_FFFF_FFFF

  datatype AllocEnv = AllocEnv(read: ReadFault, save: SaveFault, now: I64)

  datatype Allocated = Allocated(blocked: bool, disks: seq<Disk>, result: Result<U64>)

  function Allocate(c: Codec, blocked: bool, d: Disk, e: AllocEnv): Allocated {
    if blocked then Allocated(true, [], Err("STATE_BLOCKED")) else
    match ReadState(Sequence, c, d, e.read)
    case Err(error) => Allocated(true, [], Err(error))
    case Ok(current) =>
      var highest := if current.Some? && current.value.SequenceState? then current.value.highestAllocated else 0;
      if highest >= SNAPSHOT_SEQ_MAX then Allocated(true, [], Err("OVERFLOW"))
      else
        var next := SequenceState(CurrentVersion(Sequence), highest + 1, e.now);
        var d1 := Saved(d, KeyOf(Sequence), c.encode(next, e.now), e.save);
        Allocated(!e.save.Works?, if e.save.NotWritten? then [] else [d1],
                  if e.save.Works? then Ok(highest + 1) else Err("sequence save failed"))
  }

  // --------------------------------------------------------- loading the other records

  datatype Flags = Flags(
    sequenceBlocked: bool, lastSuccessAvailable: bool, dedupeAvailable: bool, activeJobCorrupted: bool)

  datatype Limits = Limits(maxEntries: U32, ttlMs: I64)

  /** A load of one kind: each decoder yields its own kind of state. */
  function Loaded(kind: Kind, c: Codec, d: Disk, fault: ReadFault): (r: Result<Option<State>>)
    ensures r.Ok? && r.value.Some? ==> KindOf(r.value.value) == kind
  {
    var s :- ReadState(kind, c, d, fault);
    if s.Some? && KindOf(s.value) != kind then Err("wrong kind") else Ok(s)
  }

  lemma LoadedIsRead(kind: Kind, c: Codec, d: Disk, fault: ReadFault)
    requires Sound(c)
    ensures Loaded(kind, c, d, fault) == ReadState(kind, c, d, fault)
  {
  }

  /** A failed load counts as absent. */
  function Present(r: Result<Option<State>>): (s: Option<State>) {
    if r.Ok? then r.value else None
  }

  function EmptyDedupe(lim: Limits): State {
    DedupeState(CurrentVersion(Dedupe), [], lim.maxEntries, lim.ttlMs)
  }

  /** The stored window under the configured bounds; empty when missing or unreadable. */
  function Window(r: Result<Option<State>>, lim: Limits): (s: State)
    requires r.Ok? && r.value.Some? ==> r.value.value.DedupeState?
    ensures s.DedupeState? && s.maxEntries == lim.maxEntries && s.ttlMs == lim.ttlMs
  {
    match Present(r)
    case None => EmptyDedupe(lim)
    case Some(s) => s.(maxEntries := lim.maxEntries, ttlMs := lim.ttlMs)
  }
}
