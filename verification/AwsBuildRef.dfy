/** The AWS build reference: the string that is the only memory a remote build has between reconciles. */
module AwsBuildRef {
  import opened Wrappers
  import opened ByteStrings
  import opened Decimal
  import opened UrlText

  datatype Ref = Ref(
    buildID: Bytes, instanceID: Bytes, imageID: Bytes, provisionerIndex: int, commandID: Bytes)

  const EMPTY_REF := Ref([], [], [], 0, [])

  /** The query values, in the order url.Values.Encode sorts their keys. */
  function Entries(r: Ref): seq<Entry> {
    [Optional("commandId", r.commandID), Optional("imageId", r.imageID), Optional("instanceId", r.instanceID),
     Optional("provisionerIndex", if r.provisionerIndex > 0 then Itoa(r.provisionerIndex) else [])]
  }

  function ToString(r: Ref): Bytes {
    UrlString("aws", "remote-build", "/" + r.buildID, EncodeQuery(Present(Entries(r))))
  }

  function FromUrl(path: Bytes, query: seq<Pair>): Option<Ref> {
    var rawIndex := Get(query, "provisionerIndex");
    var index := if rawIndex == [] then Some(0) else Atoi(rawIndex);
    if index.None? || index.value < 0 then None
    else Some(Ref(TrimByte(path, '/'), Get(query, "instanceId"), Get(query, "imageId"),
                  index.value, Get(query, "commandId")))
  }

  function Parse(value: Bytes): Option<Ref> {
    if value == [] then Some(EMPTY_REF)
    else
      var u := ParseUrl(value);
      if u.None? || u.value.scheme != "aws" || u.value.host != "remote-build" then None
      else FromUrl(u.value.path, ParseQuery(u.value.rawQuery))
  }

  lemma EntriesAscend(r: Ref)
    ensures Ascending(Entries(r))
  {
    assert Less("commandId", "imageId") && Less("instanceId", "provisionerIndex");
    assert Less("imageId", "instanceId") by { assert Less("mageId", "nstanceId"); }
  }

  lemma GetEntries(r: Ref)
    ensures var query := Present(Entries(r));
      Get(query, "commandId") == r.commandID && Get(query, "imageId") == r.imageID
      && Get(query, "instanceId") == r.instanceID
      && Get(query, "provisionerIndex") == if r.provisionerIndex > 0 then Itoa(r.provisionerIndex) else []
  {
    EntriesAscend(r);
    GetPresent(Entries(r), 0);
    GetPresent(Entries(r), 1);
    GetPresent(Entries(r), 2);
    GetPresent(Entries(r), 3);
  }

  /** The value an index reads back as: String prints nothing for a negative one. */
  function Printed(r: Ref): Ref {
    r.(provisionerIndex := if r.provisionerIndex < 0 then 0 else r.provisionerIndex)
  }

  lemma FromPrinted(r: Ref)
    requires MIN_INT64 <= r.provisionerIndex <= MAX_INT64
    ensures FromUrl("/" + r.buildID, Present(Entries(r))) == Some(Printed(r))
  {
    GetEntries(r);
    AtoiOfItoa(r.provisionerIndex);
    assert ("/" + r.buildID)[1..] == r.buildID;
  }

  /** What a printed reference reads back as, for every index a Go int can hold. */
  lemma ParseOfToString(r: Ref)
    requires MIN_INT64 <= r.provisionerIndex <= MAX_INT64
    ensures Parse(ToString(r)) == Some(Printed(r))
    ensures ToString(r) != []
  {
    var query := Present(Entries(r));
    ParseUrlOfString("aws", "remote-build", "/" + r.buildID, query);
    FromPrinted(r);
  }

  /** Parsing undoes printing exactly on the references whose index is not negative. */
  lemma RoundTrip(r: Ref)
    requires MIN_INT64 <= r.provisionerIndex <= MAX_INT64
    ensures Parse(ToString(r)) == Some(r) <==> 0 <= r.provisionerIndex
  {
    ParseOfToString(r);
  }
}
