/** Exactly which texts of the old store can be read and converted. */
module LegacyTexts {
  import opened Wrappers
  import opened Bytes
  import opened Envelope
  import opened Json
  import opened JsonMembers
  import opened CloudState
  import opened LegacyRecords

  /** A text is readable if and only if it has version 1 and its payload is JSON. */
  lemma ReadableIff(t: JsonText, b: ByteString, j: Json)
    ensures LegacyJson(t, b) == Ok(j)
            <==> && ParseHeader(b).Ok? && ParseHeader(b).value.schemaVersion == 1
                 && t.parse(ExtractPayload(b, ParseHeader(b).value)) == Some(j)
  {
  }

  // --------------------------------------------------------------------------- the records

  lemma TaskConvertsIff(j: Json)
    ensures VehicleTaskFrom(j).Ok?
            <==> && HasText(j, "vehicleTaskId") && HasText(j, "taskRevision") && HasText(j, "targetBaselineId")
                 && HasText(j, "vehicleTaskState") && HasInt(j, "frozenAtMs")
                 && (Lacks(j, "frozenSnapshotPbHex") || HasText(j, "frozenSnapshotPbHex"))
                 && (Lacks(j, "localDispositionResult") || HasText(j, "localDispositionResult"))
                 && (Lacks(j, "superseded") || HasBool(j, "superseded"))
  {
  }

  lemma InventoryConvertsIff(j: Json)
    ensures InventoryFrom(j).Ok?
            <==> && HasText(j, "mode") && HasText(j, "inventoryRevision") && HasText(j, "algorithm")
                 && HasText(j, "ecuListDigest") && HasInt(j, "collectedAtMs")
                 && (Lacks(j, "inventoryPbHex") || HasText(j, "inventoryPbHex"))
                 && (Lacks(j, "fullRequired") || HasBool(j, "fullRequired"))
  {
  }

  lemma ConsentConvertsIff(j: Json)
    ensures ConsentFrom(j).Ok?
            <==> && HasText(j, "vehicleTaskId") && HasText(j, "effectiveStatus") && HasText(j, "receiptId")
                 && HasInt(j, "receiptExpiresAtMs")
                 && (Lacks(j, "consentReceiptPbHex") || HasText(j, "consentReceiptPbHex"))
                 && (Lacks(j, "termsId") || HasText(j, "termsId"))
                 && (Lacks(j, "termsVersion") || HasText(j, "termsVersion"))
  {
  }

  lemma DownloadConvertsIff(j: Json)
    ensures DownloadFrom(j).Ok?
            <==> && HasText(j, "packageId") && HasText(j, "packageRevision") && HasText(j, "etag") && HasInt(j, "offset")
                 && (Lacks(j, "credentialExpiresAtMs") || HasInt(j, "credentialExpiresAtMs"))
                 && HasText(j, "verifyStatus") && HasText(j, "stageResultId") && HasText(j, "stageResultDigest")
                 && (Lacks(j, "ready") || HasBool(j, "ready"))
  {
  }

  predicate HasExecution(j: Json) {
    && HasText(j, "vehicleTaskId") && HasText(j, "executionId") && HasShort(j, "attemptNo") && HasText(j, "permitId")
    && HasText(j, "permitToken") && HasText(j, "controlRevision") && HasInt(j, "validUntilMs")
    && HasText(j, "executionState")
  }

  lemma ExecutionConvertsIff(j: Json)
    ensures ExecutionFrom(j).Ok?
            <==> && HasExecution(j) && HasInt(j, "acceptedSequenceNo") && HasInt(j, "nextSequenceNo")
                 && (Lacks(j, "installPlanVersion") || HasText(j, "installPlanVersion"))
                 && (Lacks(j, "offlinePolicyPbHex") || HasText(j, "offlinePolicyPbHex"))
                 && (Lacks(j, "timeoutPolicyPbHex") || HasText(j, "timeoutPolicyPbHex"))
  {
  }

  lemma EventConvertsIff(j: Json)
    ensures EventFrom(j).Ok?
            <==> && HasInt(j, "sequenceNo") && HasText(j, "eventId") && HasText(j, "eventDigest") && HasText(j, "stage")
                 && (Lacks(j, "progressPercent") || HasShort(j, "progressPercent"))
                 && HasText(j, "result") && HasInt(j, "timestampMs") && HasText(j, "payloadSummary")
                 && HasText(j, "sendStatus") && HasText(j, "eventPbHex")
  {
  }

  lemma ControlConvertsIff(j: Json)
    ensures ControlFrom(j).Ok?
            <==> && HasText(j, "controlRevision") && HasText(j, "commandType") && HasText(j, "applyMode")
                 && HasInt(j, "expiresAtMs") && HasText(j, "reason") && HasText(j, "ackStatus")
                 && HasInt(j, "ackSequenceNo") && HasInt(j, "appliedAtMs")
  {
  }

  lemma PolicyConvertsIff(j: Json)
    ensures PolicyFrom(j).Ok?
            <==> && HasText(j, "basePreferenceVersion") && HasText(j, "preferenceVersion")
                 && (Lacks(j, "conflict") || HasBool(j, "conflict"))
  {
  }

  lemma LogJobConvertsIff(j: Json)
    ensures LogJobFrom(j).Ok?
            <==> && HasText(j, "logRequestId") && HasText(j, "objectKey") && HasText(j, "digestHex")
                 && HasInt(j, "sizeBytes") && HasText(j, "status") && HasInt(j, "completedAtMs")
  {
  }

  lemma {:induction false} AllConvertIff<T>(items: seq<Json>, from: Json -> Result<T>)
    ensures MapAll(items, from).Ok? <==> forall i :: 0 <= i < |items| ==> from(items[i]).Ok?
  {
    if items != [] {
      AllConvertIff(items[1..], from);
      assert (forall i :: 0 <= i < |items| ==> from(items[i]).Ok?) <==>
               from(items[0]).Ok? && forall i :: 0 <= i < |items[1..]| ==> from(items[1..][i]).Ok?;
    }
  }

  /** A key with a list converts if and only if it has the list and every item of it converts. */
  lemma EntriesConvertIff(t: JsonText, j: Json, from: Json -> Result<Record>)
    ensures Entries(t, j, from).Ok?
            <==> && j.JObj? && "entries" in j.fields
                 && forall i :: 0 <= i < |Elements(t, j.fields["entries"])| ==>
                      from(Elements(t, j.fields["entries"])[i]).Ok?
  {
    if j.JObj? && "entries" in j.fields {
      AllConvertIff(Elements(t, j.fields["entries"]), from);
    }
  }

  /** Which of these conversions is used for an old key that holds the object `j`. */
  predicate Converts(t: JsonText, key: OldKey, j: Json) {
    match key
    case OVehicleTask => VehicleTaskFrom(j).Ok?
    case OInventory => InventoryFrom(j).Ok?
    case OConsent => ConsentFrom(j).Ok?
    case ODownloads => Entries(t, j, DownloadFrom).Ok?
    case OExecution => ExecutionFrom(j).Ok?
    case OEventOutbox =>
      HasInt(j, "nextSequenceNo") && HasInt(j, "acceptedSequenceNo") && Entries(t, j, EventFrom).Ok?
    case OControls => Entries(t, j, ControlFrom).Ok?
    case OPolicy => PolicyFrom(j).Ok?
    case OLogJobs => Entries(t, j, LogJobFrom).Ok?
  }

  lemma KeyConvertsIff(t: JsonText, key: OldKey, b: ByteString)
    ensures RecordsFrom(t, key, b).Ok? <==> LegacyJson(t, b).Ok? && Converts(t, key, LegacyJson(t, b).value)
  {
  }
}
