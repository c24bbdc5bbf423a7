/** The Azure build reference, which also carries the evidence from the step that produced it to the gate. */
module AzureBuildRef {
  import opened Wrappers
  import opened ByteStrings
  import opened Decimal
  import opened UrlText

  datatype Evidence = Evidence(
    status: Bytes, message: Bytes, sbomRef: Bytes, vulnerabilityRef: Bytes, provenanceRef: Bytes, signatureRef: Bytes)

  datatype Ref = Ref(
    buildID: Bytes, vmName: Bytes, vmID: Bytes, diskName: Bytes, imageID: Bytes, provisionerIndex: int,
    carried: Evidence)

  const NO_EVIDENCE := Evidence([], [], [], [], [], [])
  const EMPTY_REF := Ref([], [], [], [], [], 0, NO_EVIDENCE)

  /** The reference's evidence; an empty status means there is none. */
  function EvidenceOf(r: Ref): Option<Evidence> {
    if r.carried.status == [] then None else Some(r.carried)
  }

  /** Evidence fields are set together, even when empty, as soon as there is a status. */
  function Entries(r: Ref): seq<Entry> {
    var e, isSet := r.carried, r.carried.status != [];
    [Optional("diskName", r.diskName), Entry("evidenceMessage", e.message, isSet), Optional("evidenceStatus", e.status),
     Optional("imageId", r.imageID), Entry("provenanceRef", e.provenanceRef, isSet),
     Optional("provisionerIndex", if r.provisionerIndex > 0 then Itoa(r.provisionerIndex) else []),
     Entry("sbomRef", e.sbomRef, isSet), Entry("signatureRef", e.signatureRef, isSet),
     Optional("vmId", r.vmID), Optional("vmName", r.vmName), Entry("vulnerabilityRef", e.vulnerabilityRef, isSet)]
  }

  function ToString(r: Ref): Bytes {
    UrlString("azure", "remote-build", "/" + r.buildID, EncodeQuery(Present(Entries(r))))
  }

  function FromUrl(path: Bytes, query: seq<Pair>): Option<Ref> {
    var rawIndex := Get(query, "provisionerIndex");
    var index := if rawIndex == [] then Some(0) else Atoi(rawIndex);
    if index.None? || index.value < 0 then None
    else
      var e := Evidence(Get(query, "evidenceStatus"), Get(query, "evidenceMessage"), Get(query, "sbomRef"),
                        Get(query, "vulnerabilityRef"), Get(query, "provenanceRef"), Get(query, "signatureRef"));
      Some(Ref(TrimByte(path, '/'), Get(query, "vmName"), Get(query, "vmId"), Get(query, "diskName"),
               Get(query, "imageId"), index.value, e))
  }

  function Parse(value: Bytes): Option<Ref> {
    if value == [] then Some(EMPTY_REF)
    else
      var u := ParseUrl(value);
      if u.None? || u.value.scheme != "azure" || u.value.host != "remote-build" then None
      else FromUrl(u.value.path, ParseQuery(u.value.rawQuery))
  }

  /** Two strings are ordered by the first byte in which they differ. */
  lemma {:induction false} DifferAt(a: Bytes, b: Bytes, n: nat)
    requires n < |a| && n < |b| && a[..n] == b[..n] && a[n] < b[n]
    ensures Less(a, b)
  {
    if n > 0 {
      assert a[0] == a[..n][0] == b[..n][0] == b[0];
      assert a[1..][..n - 1] == a[..n][1..] && b[1..][..n - 1] == b[..n][1..];
      DifferAt(a[1..], b[1..], n - 1);
    }
  }

  const KEYS: seq<Bytes> :=
    ["diskName", "evidenceMessage", "evidenceStatus", "imageId", "provenanceRef", "provisionerIndex",
     "sbomRef", "signatureRef", "vmId", "vmName", "vulnerabilityRef"]

  /** Where a key differs from the one after it. */
  const DIFFERENCE: seq<nat> := [0, 8, 0, 0, 4, 0, 1, 0, 2, 1]

  lemma KeysDiffer(i: nat)
    requires i < |KEYS| - 1
    ensures var n := DIFFERENCE[i];
      n < |KEYS[i]| && n < |KEYS[i + 1]| && KEYS[i][n] < KEYS[i + 1][n]
      && forall k :: 0 <= k < n ==> KEYS[i][k] == KEYS[i + 1][k]
  {
  }

  lemma KeysAscend(i: nat)
    requires i < |KEYS| - 1
    ensures Less(KEYS[i], KEYS[i + 1])
  {
    KeysDiffer(i);
    assert KEYS[i][..DIFFERENCE[i]] == KEYS[i + 1][..DIFFERENCE[i]];
    DifferAt(KEYS[i], KEYS[i + 1], DIFFERENCE[i]);
  }

  lemma EntriesAscend(r: Ref)
    ensures Ascending(Entries(r))
  {
    var entries := Entries(r);
    forall i | 0 <= i < |entries| - 1 ensures Less(entries[i].key, entries[i + 1].key) {
      KeysAscend(i);
      assert entries[i].key == KEYS[i] && entries[i + 1].key == KEYS[i + 1];
    }
  }

  /** What survives a print and a parse: a negative index and evidence without a status do not. */
  function Printed(r: Ref): Ref {
    r.(provisionerIndex := if r.provisionerIndex < 0 then 0 else r.provisionerIndex,
       carried := if r.carried.status == [] then NO_EVIDENCE else r.carried)
  }

  lemma GetPlain(r: Ref)
    ensures var query := Present(Entries(r));
      Get(query, "diskName") == r.diskName && Get(query, "imageId") == r.imageID
      && Get(query, "vmId") == r.vmID && Get(query, "vmName") == r.vmName
      && Get(query, "provisionerIndex") == if r.provisionerIndex > 0 then Itoa(r.provisionerIndex) else []
  {
    var entries := Entries(r);
    EntriesAscend(r);
    GetPresent(entries, 0);
    GetPresent(entries, 3);
    GetPresent(entries, 5);
    GetPresent(entries, 8);
    GetPresent(entries, 9);
  }

  lemma GetEvidence(r: Ref)
    ensures var query := Present(Entries(r));
      Evidence(Get(query, "evidenceStatus"), Get(query, "evidenceMessage"), Get(query, "sbomRef"),
               Get(query, "vulnerabilityRef"), Get(query, "provenanceRef"), Get(query, "signatureRef"))
      == Printed(r).carried
  {
    var entries := Entries(r);
    EntriesAscend(r);
    GetPresent(entries, 1);
    GetPresent(entries, 2);
    GetPresent(entries, 4);
    GetPresent(entries, 6);
    GetPresent(entries, 7);
    GetPresent(entries, 10);
  }

  lemma FromPrinted(r: Ref)
    requires MIN_INT64 <= r.provisionerIndex <= MAX_INT64
    ensures FromUrl("/" + r.buildID, Present(Entries(r))) == Some(Printed(r))
  {
    GetPlain(r);
    GetEvidence(r);
    AtoiOfItoa(r.provisionerIndex);
    assert ("/" + r.buildID)[1..] == r.buildID;
  }

  /** What a printed reference reads back as, for every index a Go int can hold. */
  lemma ParseOfToString(r: Ref)
    requires MIN_INT64 <= r.provisionerIndex <= MAX_INT64
    ensures Parse(ToString(r)) == Some(Printed(r))
    ensures ToString(r) != []
  {
    ParseUrlOfString("azure", "remote-build", "/" + r.buildID, Present(Entries(r)));
    FromPrinted(r);
  }

  /** Parsing undoes printing exactly when the index is not negative and no status means no evidence at all. */
  lemma RoundTrip(r: Ref)
    requires MIN_INT64 <= r.provisionerIndex <= MAX_INT64
    ensures Parse(ToString(r)) == Some(r)
      <==> 0 <= r.provisionerIndex && (r.carried.status == [] ==> r.carried == NO_EVIDENCE)
  {
    ParseOfToString(r);
  }
}
