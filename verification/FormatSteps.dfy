/** What each step of the payload migrations does to the members of a stored object, whatever
    other members it has. */
module FormatSteps {
  import opened Wrappers
  import opened Bytes
  import opened Json
  import opened StateSerializer

  type Members = map<string, Json>

  /** No other member is added, dropped or changed. */
  ghost predicate Keeps(before: Members, after: Members, except: set<string>) {
    forall key :: key !in except ==>
      (key in before <==> key in after) && (key in before && key in after ==> after[key] == before[key])
  }

  /** A member that is there stays; a missing one is added. */
  predicate Defaulted(before: Members, after: Members, key: string, value: Json) {
    key in after && after[key] == if key in before then before[key] else value
  }

  predicate Unknown(j: Json) {
    j == JObj(map[
      "algorithm" := JStr([]), "canonicalization" := JStr([]), "versionFingerprintHex" := JStr([]),
      "snapshotFingerprintHex" := JStr([]), "dedupeKeyHex" := JStr([])])
  }

  /** The fingerprints that are there stay; otherwise they are unknown. */
  predicate Fingerprinted(before: Members, after: Members) {
    "fingerprints" in after
    && if "fingerprints" in before then after["fingerprints"] == before["fingerprints"] else Unknown(after["fingerprints"])
  }

  predicate NowAt(after: Members, version: JsonInt) {
    "schemaVersion" in after && after["schemaVersion"] == JInt(version)
  }

  ghost predicate SequenceStep(before: Members, after: Members) {
    && Keeps(before, after, {"schemaVersion", "updatedAt"})
    && Defaulted(before, after, "schemaVersion", JInt(1)) && Defaulted(before, after, "updatedAt", JInt(0))
  }

  lemma SequenceStepTells(fields: Members)
    ensures var r := MigrateJson(Sequence, JObj(fields), 0); r.Ok? && r.value.JObj? && SequenceStep(fields, r.value.fields)
  {
  }

  ghost predicate LastSuccessStep(before: Members, after: Members, v: nat) {
    if v == 0 then
      && Keeps(before, after, {"schemaVersion", "fingerprint"})
      && Defaulted(before, after, "schemaVersion", JInt(1)) && Defaulted(before, after, "fingerprint", JStr([]))
    else
      && Keeps(before, after, {"schemaVersion", "fingerprint", "fingerprints"})
      && NowAt(after, 2) && "fingerprint" !in after && Fingerprinted(before, after)
  }

  lemma LastSuccessStepTells(fields: Members, v: nat)
    requires v < 2
    ensures var r := MigrateJson(LastSuccess, JObj(fields), v);
            r.Ok? && r.value.JObj? && LastSuccessStep(fields, r.value.fields, v)
  {
  }

  ghost predicate ActiveJobStep(before: Members, after: Members, v: nat) {
    if v == 0 then
      && Keeps(before, after, {"schemaVersion", "idempotencyKey"})
      && Defaulted(before, after, "schemaVersion", JInt(1)) && Defaulted(before, after, "idempotencyKey", JStr([]))
    else
      Keeps(before, after, {"schemaVersion", "fingerprints"}) && NowAt(after, 2) && Fingerprinted(before, after)
  }

  lemma ActiveJobStepTells(fields: Members, v: nat)
    requires v < 2
    ensures var r := MigrateJson(ActiveJob, JObj(fields), v);
            r.Ok? && r.value.JObj? && ActiveJobStep(fields, r.value.fields, v)
  {
  }

  /** The old name of the bound is taken over only when the new one is not there. */
  predicate Renamed(before: Members, after: Members) {
    if "maxSize" in before && "maxEntries" !in before then
      "maxEntries" in after && after["maxEntries"] == before["maxSize"] && "maxSize" !in after
    else
      && ("maxSize" in after <==> "maxSize" in before) && ("maxEntries" in after <==> "maxEntries" in before)
      && ("maxSize" in before && "maxSize" in after ==> after["maxSize"] == before["maxSize"])
      && ("maxEntries" in before && "maxEntries" in after ==> after["maxEntries"] == before["maxEntries"])
  }

  lemma DedupeFirstStepTells(before: Members)
    ensures var r := MigrateJson(Dedupe, JObj(before), 0);
            && r.Ok? && r.value.JObj?
            && var after := r.value.fields;
               && Keeps(before, after, {"schemaVersion", "maxSize", "maxEntries", "ttlMs"}) && Renamed(before, after)
               && Defaulted(before, after, "schemaVersion", JInt(1)) && Defaulted(before, after, "ttlMs", JInt(0))
  {
  }

  /** An entry loses its single fingerprint and has the five of the new format. */
  ghost predicate EntryStep(before: Json, after: Json) {
    && before.JObj? && after.JObj? && Keeps(before.fields, after.fields, {"fingerprint", "fingerprints"})
    && "fingerprint" !in after.fields && Fingerprinted(before.fields, after.fields)
  }

  lemma EntryStepTells(item: Json)
    requires EraseKey(item, "fingerprint").Ok?
    ensures var erased := EraseKey(item, "fingerprint").value;
            var r := SetIfMissing(erased, "fingerprints", FingerprintsToJson(UNKNOWN_FINGERPRINTS));
            r.Ok? && EntryStep(item, r.value)
  {
  }

  lemma {:induction false} EntriesStepTells(items: seq<Json>)
    ensures MigrateEntries(items).Ok? <==> forall i :: 0 <= i < |items| ==> items[i].JObj?
    ensures MigrateEntries(items).Ok? ==>
              && |MigrateEntries(items).value| == |items|
              && forall i :: 0 <= i < |items| ==> EntryStep(items[i], MigrateEntries(items).value[i])
  {
    if items != [] {
      EntriesStepTells(items[1..]);
      assert (forall i :: 0 <= i < |items| ==> items[i].JObj?) <==>
               items[0].JObj? && forall i :: 0 <= i < |items[1..]| ==> items[1..][i].JObj?;
      if items[0].JObj? {
        EntryStepTells(items[0]);
      }
    }
  }

  predicate HasEntries(fields: Members) {
    "entries" in fields && fields["entries"].JArr?
  }

  predicate AllObjects(fields: Members)
    requires HasEntries(fields)
  {
    forall i :: 0 <= i < |fields["entries"].items| ==> fields["entries"].items[i].JObj?
  }

  /** The second step of the window fails exactly when one of its entries is no object. */
  lemma DedupeSecondStepTells(before: Members)
    ensures var r := MigrateJson(Dedupe, JObj(before), 1);
            && (r.Ok? <==> (HasEntries(before) ==> AllObjects(before)))
            && (r.Ok? ==>
                  && r.value.JObj?
                  && var after := r.value.fields;
                     && Keeps(before, after, {"schemaVersion", "entries"}) && NowAt(after, 2)
                     && ("entries" in after <==> "entries" in before)
                     && (HasEntries(before) ==>
                           && HasEntries(after) && |after["entries"].items| == |before["entries"].items|
                           && forall i :: 0 <= i < |before["entries"].items| ==>
                                EntryStep(before["entries"].items[i], after["entries"].items[i]))
                     && ("entries" in before && !HasEntries(before) ==> after["entries"] == before["entries"]))
  {
    if HasEntries(before) {
      EntriesStepTells(before["entries"].items);
    }
  }
}
