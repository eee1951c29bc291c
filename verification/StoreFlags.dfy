/** Exactly which records opening the store flags as corrupt, under every failure of the store. */
module StoreFlags {
  import opened Wrappers
  import opened Bytes
  import opened CrashSchedules
  import opened StateSerializer
  import opened StateCodec
  import opened DurableStore
  import opened StateStoreSpec

  /** The record is there and cannot be read, or does not decode. */
  predicate Unreadable(kind: Kind, c: Codec, d: Disk, fault: ReadFault) {
    || fault.HasFails?
    || (KeyOf(kind) in d &&
          (fault.LoadFails? || d[KeyOf(kind)].OtherType? || c.decode(kind, d[KeyOf(kind)].bytes).Err?))
  }

  /** The record is there in an older version. */
  predicate Older(kind: Kind, c: Codec, d: Disk) {
    && KeyOf(kind) in d && d[KeyOf(kind)].Text?
    && c.version(d[KeyOf(kind)].bytes).Ok? && c.version(d[KeyOf(kind)].bytes).value < CurrentVersion(kind)
  }

  predicate UpgradeFails(e: UpgradeEnv) {
    !e.backup.Works? || !e.rewrite.Works? || e.verify != ReadWorks
  }

  /** Flagged: it cannot be read, or it is older and one of backup, rewrite and verification
      fails. */
  predicate Flagged(kind: Kind, c: Codec, d: Disk, e: UpgradeEnv) {
    Unreadable(kind, c, d, e.read) || (Older(kind, c, d) && UpgradeFails(e))
  }

  lemma UpgradeFlagsIff(kind: Kind, c: Codec, d: Disk, e: UpgradeEnv)
    requires Sound(c) && Fits(kind, c, d)
    ensures MigrateAndValidate(kind, c, d, e).corrupt <==> Flagged(kind, c, d, e)
  {
    if KeyOf(kind) in d && d[KeyOf(kind)].Text? {
      var b := d[KeyOf(kind)].bytes;
      AssessedMeansUndecodable(kind, c, b, e.now);
      assert c.decode(kind, b).Ok? ==> c.version(b).Ok? && c.version(b).value <= CurrentVersion(kind);
    }
  }

  /** Nothing is written unless the record is older and could be loaded; then its text becomes the
      backup before anything else is written. */
  lemma UpgradeWritesIff(kind: Kind, c: Codec, d: Disk, e: UpgradeEnv)
    requires Sound(c) && Fits(kind, c, d)
    ensures var disks := MigrateAndValidate(kind, c, d, e).disks;
            && (disks != [] <==> Older(kind, c, d) && e.read == ReadWorks && !e.backup.NotWritten?)
            && (disks != [] ==>
                  disks[0] == d[BackupKey(kind, c.version(d[KeyOf(kind)].bytes).value) := d[KeyOf(kind)]])
  {
  }

  lemma OtherKeyStays(kind: Kind, c: Codec, d: Disk, e: UpgradeEnv, other: Kind)
    requires kind != other
    ensures var x := Last(d, MigrateAndValidate(kind, c, d, e).disks);
            (KeyOf(other) in x <==> KeyOf(other) in d) && (KeyOf(other) in d ==> x[KeyOf(other)] == d[KeyOf(other)])
  {
    KeysAreDistinct(kind, other);
    BackupKeysAreApart(kind, other, 0);
    var a := Assess(kind, c, d, e);
    if a.Outdated? {
      var v := c.version(d[KeyOf(kind)].bytes).value;
      BackupKeysAreApart(kind, other, v);
    }
  }

  lemma FlaggedFollowsKey(kind: Kind, c: Codec, d: Disk, x: Disk, e: UpgradeEnv)
    requires KeyOf(kind) in x <==> KeyOf(kind) in d
    requires KeyOf(kind) in d ==> x[KeyOf(kind)] == d[KeyOf(kind)]
    ensures Flagged(kind, c, x, e) <==> Flagged(kind, c, d, e)
    ensures Fits(kind, c, x) <==> Fits(kind, c, d)
  {
    ReadFollowsKey(kind, c, d, x);
  }

  /** Opening flags each of the four records for its own reasons only. */
  lemma OpenFlagsIff(c: Codec, d: Disk, env: Kind -> UpgradeEnv)
    requires Sound(c) && forall kind :: Fits(kind, c, d)
    ensures var o := OpenAll(c, d, env);
            && (o.sequenceCorrupt <==> Flagged(Sequence, c, d, env(Sequence)))
            && (o.lastSuccessCorrupt <==> Flagged(LastSuccess, c, d, env(LastSuccess)))
            && (o.dedupeCorrupt <==> Flagged(Dedupe, c, d, env(Dedupe)))
            && (o.activeJobCorrupt <==> Flagged(ActiveJob, c, d, env(ActiveJob)))
  {
    var d1 := Last(d, MigrateAndValidate(Sequence, c, d, env(Sequence)).disks);
    var d2 := Last(d1, MigrateAndValidate(LastSuccess, c, d1, env(LastSuccess)).disks);
    var d3 := Last(d2, MigrateAndValidate(Dedupe, c, d2, env(Dedupe)).disks);
    OtherKeyStays(Sequence, c, d, env(Sequence), LastSuccess);
    OtherKeyStays(Sequence, c, d, env(Sequence), Dedupe);
    OtherKeyStays(Sequence, c, d, env(Sequence), ActiveJob);
    OtherKeyStays(LastSuccess, c, d1, env(LastSuccess), Dedupe);
    OtherKeyStays(LastSuccess, c, d1, env(LastSuccess), ActiveJob);
    OtherKeyStays(Dedupe, c, d2, env(Dedupe), ActiveJob);
    FlaggedFollowsKey(LastSuccess, c, d, d1, env(LastSuccess));
    FlaggedFollowsKey(Dedupe, c, d, d2, env(Dedupe));
    FlaggedFollowsKey(ActiveJob, c, d, d3, env(ActiveJob));
    UpgradeFlagsIff(Sequence, c, d, env(Sequence));
    UpgradeFlagsIff(LastSuccess, c, d1, env(LastSuccess));
    UpgradeFlagsIff(Dedupe, c, d2, env(Dedupe));
    UpgradeFlagsIff(ActiveJob, c, d3, env(ActiveJob));
  }
}
