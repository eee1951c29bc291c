/** Sequence numbers over whole histories of the store. */
module SequenceHistory {
  import opened Wrappers
  import opened Bytes
  import opened StateSerializer
  import opened StateCodec
  import opened CrashSchedules
  import opened DurableStore
  import opened StateStoreSpec

  /** Sequence records are small: the envelope holds every one of them. */
  ghost predicate SoundForSequences(c: Codec) {
    Sound(c) && forall s: State :: s.SequenceState? ==> c.fits(s)
  }

  /** The disk, whether a store is open on it and blocked, and every number handed out. */
  datatype System = System(disk: Disk, open: Option<bool>, returned: seq<U64>)

  datatype Op =
    | Open(env: Kind -> UpgradeEnv)
    | OpenCutAt(env: Kind -> UpgradeEnv, writes: nat)   // the process dies after so many writes
    | Allocating(alloc: AllocEnv)
    | AllocatingCut(alloc: AllocEnv)                     // dies after the save, before returning
    | Die
    | OtherWrite(key: string, value: Stored)             // any other key, by any other component

  function Perform(c: Codec, s: System, op: Op): System {
    match op
    case Open(env) =>
      var o := OpenAll(c, s.disk, env);
      System(Last(s.disk, o.disks), Some(o.sequenceCorrupt), s.returned)
    case OpenCutAt(env, writes) =>
      var o := OpenAll(c, s.disk, env);
      System(Last(s.disk, o.disks[..if writes <= |o.disks| then writes else |o.disks|]), None, s.returned)
    case Allocating(e) =>
      if s.open.None? then s else
      var a := Allocate(c, s.open.value, s.disk, e);
      System(Last(s.disk, a.disks), Some(a.blocked), s.returned + if a.result.Ok? then [a.result.value] else [])
    case AllocatingCut(e) =>
      if s.open.None? then s else
      var a := Allocate(c, s.open.value, s.disk, e);
      System(Last(s.disk, a.disks), None, s.returned)
    case Die => s.(open := None)
    case OtherWrite(key, value) =>
      if key == KeyOf(Sequence) then s else s.(disk := s.disk[key := value])
  }

  function Run(c: Codec, s: System, ops: seq<Op>): System
    decreases |ops|
  {
    if ops == [] then s else Run(c, Perform(c, s, ops[0]), ops[1..])
  }

  ghost predicate StrictlyIncreasing(ns: seq<U64>) {
    forall i, j :: 0 <= i < j < |ns| ==> ns[i] < ns[j]
  }

  function SequenceOn(c: Codec, d: Disk): Result<Option<State>> {
    ReadState(Sequence, c, d, ReadWorks)
  }

  /** The highest number ever made durable; 0 before the first. */
  function Highest(c: Codec, d: Disk): (h: nat) {
    match SequenceOn(c, d)
    case Ok(Some(state)) => if state.SequenceState? then state.highestAllocated else 0
    case _ => 0
  }

  ghost predicate AllAtMost(ns: seq<U64>, h: nat) {
    forall i :: 0 <= i < |ns| ==> ns[i] <= h
  }

  /** As long as the record is readable, no number handed out is above its highest. */
  ghost predicate Inv(c: Codec, s: System) {
    && StrictlyIncreasing(s.returned)
    && (SequenceOn(c, s.disk).Ok? ==> AllAtMost(s.returned, Highest(c, s.disk)))
  }

  /** The one step that hands numbers out: always one more than the durable highest. */
  lemma AllocateAdvances(c: Codec, blocked: bool, d: Disk, e: AllocEnv)
    requires SoundForSequences(c)
    ensures var a := Allocate(c, blocked, d, e);
            && |a.disks| <= 1
            && (SequenceOn(c, d).Err? ==> a.result.Err? && a.blocked && a.disks == [])
            && (a.result.Ok? || a.disks != [] ==>
                  && SequenceOn(c, d).Ok?
                  && SequenceOn(c, Last(d, a.disks)) == Ok(Some(SequenceState(1, Highest(c, d) + 1, e.now)))
                  && (a.result.Ok? ==> a.result.value == Highest(c, d) + 1 && a.disks != []))
  {
    var a := Allocate(c, blocked, d, e);
    if a.disks != [] {
      var next := SequenceState(1, Highest(c, d) + 1, e.now);
      assert c.decode(KindOf(next), c.encode(next, e.now)) == Ok(next);
    }
  }

  lemma SequenceFits(c: Codec, d: Disk)
    requires SoundForSequences(c)
    ensures Fits(Sequence, c, d)
  {
    assert SequenceOn(c, d).Ok? && SequenceOn(c, d).value.Some? ==>
             c.decode(Sequence, d[KeyOf(Sequence)].bytes) == Ok(SequenceOn(c, d).value.value);
  }

  lemma OpenKeepsSequence(c: Codec, d: Disk, env: Kind -> UpgradeEnv, writes: nat)
    requires SoundForSequences(c) && writes <= |OpenAll(c, d, env).disks|
    ensures SequenceOn(c, Last(d, OpenAll(c, d, env).disks[..writes])) == SequenceOn(c, d)
  {
    SequenceFits(c, d);
    OpenKeepsState(Sequence, c, d, env);
    PrefixIsSame(Sequence, c, d, OpenAll(c, d, env).disks, writes);
  }

  lemma OpenedKeepsSequence(c: Codec, d: Disk, env: Kind -> UpgradeEnv)
    requires SoundForSequences(c)
    ensures SequenceOn(c, Last(d, OpenAll(c, d, env).disks)) == SequenceOn(c, d)
  {
    SequenceFits(c, d);
    OpenKeepsState(Sequence, c, d, env);
  }

  lemma InvFollows(c: Codec, s: System, s': System)
    requires Inv(c, s) && s'.returned == s.returned && SequenceOn(c, s'.disk) == SequenceOn(c, s.disk)
    ensures Inv(c, s')
  {
  }

  lemma AllocationKeepsInv(c: Codec, s: System, e: AllocEnv, open: Option<bool>, handedOut: bool)
    requires SoundForSequences(c) && Inv(c, s) && s.open.Some?
    ensures var a := Allocate(c, s.open.value, s.disk, e);
            Inv(c, System(Last(s.disk, a.disks), open,
                          s.returned + if handedOut && a.result.Ok? then [a.result.value] else []))
  {
    var a := Allocate(c, s.open.value, s.disk, e);
    AllocateAdvances(c, s.open.value, s.disk, e);
    if a.disks == [] {
      InvFollows(c, s, System(s.disk, open, s.returned));
    } else {
      NextIsAbove(s.returned, Highest(c, s.disk), Highest(c, s.disk) + 1);
      assert s.returned + [] == s.returned;
    }
  }

  lemma NextIsAbove(ns: seq<U64>, h: nat, next: U64)
    requires StrictlyIncreasing(ns) && AllAtMost(ns, h) && next == h + 1
    ensures StrictlyIncreasing(ns + [next]) && AllAtMost(ns + [next], next) && AllAtMost(ns, next)
  {
  }

  lemma StepKeepsInv(c: Codec, s: System, op: Op)
    requires SoundForSequences(c) && Inv(c, s)
    ensures Inv(c, Perform(c, s, op))
    ensures s.returned <= Perform(c, s, op).returned
  {
    var s' := Perform(c, s, op);
    match op
    case Open(env) =>
      OpenedKeepsSequence(c, s.disk, env);
      InvFollows(c, s, s');
    case OpenCutAt(env, writes) =>
      var disks := OpenAll(c, s.disk, env).disks;
      OpenKeepsSequence(c, s.disk, env, if writes <= |disks| then writes else |disks|);
      InvFollows(c, s, s');
    case Allocating(e) =>
      if s.open.Some? {
        var a := Allocate(c, s.open.value, s.disk, e);
        AllocationKeepsInv(c, s, e, Some(a.blocked), true);
      }
    case AllocatingCut(e) =>
      if s.open.Some? {
        AllocationKeepsInv(c, s, e, None, false);
        var a := Allocate(c, s.open.value, s.disk, e);
        assert s.returned + [] == s.returned;
      }
    case Die =>
    case OtherWrite(key, value) =>
      if key != KeyOf(Sequence) {
        ReadFollowsKey(Sequence, c, s.disk, s'.disk);
        InvFollows(c, s, s');
      }
  }

  /** Over any history of opens, allocations, failed saves and crashes, started on any disk,
      the numbers handed out strictly increase: none is ever reused. */
  lemma {:induction false} NumbersNeverRepeat(c: Codec, s: System, ops: seq<Op>)
    requires SoundForSequences(c) && Inv(c, s)
    ensures Inv(c, Run(c, s, ops)) && s.returned <= Run(c, s, ops).returned
    decreases |ops|
  {
    if ops != [] {
      StepKeepsInv(c, s, ops[0]);
      NumbersNeverRepeat(c, Perform(c, s, ops[0]), ops[1..]);
    }
  }

  lemma NumbersStrictlyIncrease(c: Codec, disk: Disk, ops: seq<Op>)
    requires SoundForSequences(c)
    ensures StrictlyIncreasing(Run(c, System(disk, None, []), ops).returned)
  {
    NumbersNeverRepeat(c, System(disk, None, []), ops);
  }

  /** No number can be handed out: the record is unreadable or the range is used up. */
  ghost predicate Exhausted(c: Codec, d: Disk) {
    || SequenceOn(c, d).Err?
    || Highest(c, d) == SNAPSHOT_SEQ_MAX
  }

  lemma StepKeepsExhausted(c: Codec, s: System, op: Op)
    requires SoundForSequences(c) && Exhausted(c, s.disk)
    ensures SequenceOn(c, Perform(c, s, op).disk) == SequenceOn(c, s.disk)
    ensures Perform(c, s, op).returned == s.returned
  {
    match op
    case Open(env) =>
      OpenedKeepsSequence(c, s.disk, env);
    case OpenCutAt(env, writes) =>
      var disks := OpenAll(c, s.disk, env).disks;
      OpenKeepsSequence(c, s.disk, env, if writes <= |disks| then writes else |disks|);
    case Allocating(e) =>
      assert s.open.Some? ==> Allocate(c, s.open.value, s.disk, e).disks == [];
    case AllocatingCut(e) =>
      assert s.open.Some? ==> Allocate(c, s.open.value, s.disk, e).disks == [];
    case Die =>
    case OtherWrite(key, value) =>
      if key != KeyOf(Sequence) {
        ReadFollowsKey(Sequence, c, s.disk, s.disk[key := value]);
      }
  }

  /** An undecodable record or the last number blocks allocation for good: no later run
      hands out a number, and none resets the record. */
  lemma {:induction false} ExhaustedStaysExhausted(c: Codec, s: System, ops: seq<Op>)
    requires SoundForSequences(c) && Exhausted(c, s.disk)
    ensures Run(c, s, ops).returned == s.returned
    ensures SequenceOn(c, Run(c, s, ops).disk) == SequenceOn(c, s.disk)
    decreases |ops|
  {
    if ops != [] {
      StepKeepsExhausted(c, s, ops[0]);
      ExhaustedStaysExhausted(c, Perform(c, s, ops[0]), ops[1..]);
    }
  }
}
