/** Exactly which objects are read as one of the four runtime states. */
module StateTexts {
  import opened Wrappers
  import opened Bytes
  import opened Json
  import opened JsonMembers
  import opened StateSerializer

  /** The version in the object, if there is one, is the current one of its kind. */
  predicate VersionMatches(kind: Kind, j: Json) {
    && j.JObj?
    && ("schemaVersion" in j.fields ==>
          var v := j.fields["schemaVersion"];
          if kind.Sequence? then AsU32(v) == Ok(1) else AsU32(v) == Ok(2))
  }

  predicate IsNamed(j: Json, key: string, names: set<string>) {
    HasText(j, key) && Chars(j.fields[key].s) in names
  }

  const PHASES: set<string> :=
    {"Accepted", "Collecting", "Assembled", "SubmitPrepared", "SubmitUnknown", "RetryWaiting", "CompletedPendingCleanup"}

  const REASONS: set<string> := {"AutoStart", "ChangeEvent", "CloudRequest", "Recovery"}

  const RESULTS: set<string> := {"ALL_OK", "PARTIAL", "FAILED"}

  predicate SequenceReads(j: Json) {
    HasInt(j, "highestAllocated") && (Lacks(j, "updatedAt") || HasInt(j, "updatedAt"))
  }

  predicate ActiveJobReads(j: Json) {
    && HasText(j, "requestId") && HasText(j, "reportId") && HasInt(j, "snapshotSeq") && IsNamed(j, "reason", REASONS)
    && IsNamed(j, "phase", PHASES) && HasShort(j, "attempt") && HasInt(j, "nextRetryAt") && HasText(j, "lastErrorCode")
    && (Lacks(j, "idempotencyKey") || HasText(j, "idempotencyKey")) && FingerprintsOr(j).Ok?
  }

  predicate DedupeReads(t: JsonText, j: Json) {
    && j.JObj? && "entries" in j.fields
    && (forall i :: 0 <= i < |Elements(t, j.fields["entries"])| ==> EntryFromJson(Elements(t, j.fields["entries"])[i]).Ok?)
    && (Lacks(j, "maxEntries") || HasShort(j, "maxEntries")) && (Lacks(j, "ttlMs") || HasInt(j, "ttlMs"))
  }

  /** The number of a last success is that of its snapshot. */
  predicate LastSuccessReads(t: JsonText, j: Json) {
    && HasText(j, "reportId") && HasInt(j, "snapshotSeq") && HasInt(j, "completedAt") && HasText(j, "registryVersion")
    && IsNamed(j, "overallResult", RESULTS) && FingerprintsOr(j).Ok?
    && "snapshot" in j.fields && SnapshotFromJson(t, j.fields["snapshot"]).Ok?
    && AsU64(j.fields["snapshotSeq"]) == Ok(SnapshotFromJson(t, j.fields["snapshot"]).value.snapshotSeq)
  }

  lemma PhaseNames(j: Json)
    ensures NameAt(j, "phase").Ok? && JobPhaseFrom(NameAt(j, "phase").value).Ok? <==> IsNamed(j, "phase", PHASES)
  {
  }

  lemma ReasonNames(j: Json)
    ensures NameAt(j, "reason").Ok? && TriggerReasonFrom(NameAt(j, "reason").value).Ok? <==> IsNamed(j, "reason", REASONS)
  {
  }

  lemma ResultNames(j: Json)
    ensures NameAt(j, "overallResult").Ok? && CollectionStatusFrom(NameAt(j, "overallResult").value).Ok?
            <==> IsNamed(j, "overallResult", RESULTS)
  {
  }

  lemma ActiveJobReadsIff(j: Json)
    ensures ActiveJobFromJson(j).Ok? <==> ActiveJobReads(j)
  {
    PhaseNames(j);
    ReasonNames(j);
  }

  lemma LastSuccessReadsIff(t: JsonText, j: Json)
    ensures LastSuccessFromJson(t, j).Ok? <==> LastSuccessReads(t, j)
  {
    ResultNames(j);
  }

  lemma {:induction false} EntriesReadIff(items: seq<Json>)
    ensures EntriesFromJson(items).Ok? <==> forall i :: 0 <= i < |items| ==> EntryFromJson(items[i]).Ok?
  {
    if items != [] {
      EntriesReadIff(items[1..]);
      assert (forall i :: 0 <= i < |items| ==> EntryFromJson(items[i]).Ok?) <==>
               EntryFromJson(items[0]).Ok? && forall i :: 0 <= i < |items[1..]| ==> EntryFromJson(items[1..][i]).Ok?;
    }
  }

  lemma DedupeReadsIff(t: JsonText, j: Json)
    ensures DedupeFromJson(t, j).Ok? <==> DedupeReads(t, j)
  {
    if j.JObj? && "entries" in j.fields {
      EntriesReadIff(Elements(t, j.fields["entries"]));
    }
  }

  /** What a payload of the current version must hold to be read as its state. */
  lemma ReadsIff(kind: Kind, t: JsonText, j: Json)
    ensures FromJson(kind, t, j).Ok?
            <==> && VersionMatches(kind, j)
                 && match kind
                    case Sequence => SequenceReads(j)
                    case LastSuccess => LastSuccessReads(t, j)
                    case Dedupe => DedupeReads(t, j)
                    case ActiveJob => ActiveJobReads(j)
  {
    match kind
    case Sequence =>
    case LastSuccess => LastSuccessReadsIff(t, j);
    case Dedupe => DedupeReadsIff(t, j);
    case ActiveJob => ActiveJobReadsIff(j);
  }
}
