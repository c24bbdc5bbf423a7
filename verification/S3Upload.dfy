/** The S3 side of a resumable upload, the upload loop, and every run of attempts cut off by crashes. */
module S3Upload {
  import opened Wrappers
  import opened ByteStrings
  import opened ArtifactFile
  import opened S3Parts
  import opened Checkpoint

  datatype StoredPart = StoredPart(body: seq<octet>, etag: Bytes)

  /** The bytes part k has to hold. */
  function Chunk(data: seq<octet>, k: int): seq<octet>
    requires 1 <= k && (k - 1) * PART_SIZE < |data|
  {
    data[(k - 1) * PART_SIZE..Min(k * PART_SIZE, |data|)]
  }

  /** Every part stored under any upload ID holds the bytes its number stands for, and none is missing before it. */
  ghost predicate HoldsChunks(uploads: map<Bytes, map<int, StoredPart>>, data: seq<octet>) {
    forall id :: id in uploads ==> StoresChunks(uploads[id], data) && Contiguous(uploads[id])
  }

  ghost predicate StoresChunks(stored: map<int, StoredPart>, data: seq<octet>) {
    forall k :: k in stored ==> RightPart(stored[k], k, data)
  }

  ghost predicate RightPart(part: StoredPart, k: int, data: seq<octet>) {
    1 <= k <= MAX_PARTS && (k - 1) * PART_SIZE < |data| && part.body == Chunk(data, k) && part.etag != []
  }

  ghost predicate Contiguous(stored: map<int, StoredPart>) {
    forall k :: k in stored && k > 1 ==> k - 1 in stored
  }

  /** Uploads that are still there are as they were. */
  ghost predicate Dropped(before: map<Bytes, map<int, StoredPart>>, after: map<Bytes, map<int, StoredPart>>) {
    after.Keys <= before.Keys && forall id :: id in after ==> after[id] == before[id]
  }

  /** One part was stored or replaced, with some ETag, and other uploads are as they were or gone. */
  ghost predicate PartStored(before: map<Bytes, map<int, StoredPart>>, id: Bytes, number: int, body: seq<octet>,
                             after: map<Bytes, map<int, StoredPart>>) {
    && after.Keys <= before.Keys && id in after
    && (forall other :: other in after && other != id ==> after[other] == before[other])
    && exists tag: Bytes :: StoredAs(before[id], number, StoredPart(body, tag), after[id])
  }

  ghost predicate StoredAs(before: map<int, StoredPart>, number: int, part: StoredPart, after: map<int, StoredPart>) {
    part.etag != [] && after == before[number := part]
  }

  lemma DropThenStore(before: map<Bytes, map<int, StoredPart>>, held: map<Bytes, map<int, StoredPart>>, id: Bytes,
                      number: int, part: StoredPart)
    requires Dropped(before, held) && id in held && part.etag != []
    ensures PartStored(before, id, number, part.body, held[id := held[id][number := part]])
  {
    var after := held[id := held[id][number := part]];
    assert StoredAs(before[id], number, StoredPart(part.body, part.etag), after[id]);
  }

  /** What CompleteMultipartUpload assembles from the parts it is given. */
  function Assemble(stored: map<int, StoredPart>, parts: seq<CompletedPart>): seq<octet>
    requires forall p :: p in parts ==> p.number in stored
  {
    if parts == [] then []
    else Assemble(stored, parts[..|parts| - 1]) + stored[parts[|parts| - 1].number].body
  }

  /** ListParts' view of the stored parts numbered from..10000, in ascending order. */
  function Listed(stored: map<int, StoredPart>, upto: int): seq<ListedPart>
    decreases upto
  {
    if upto <= 0 then []
    else
      Listed(stored, upto - 1) + if upto !in stored then [] else [Entry(stored, upto)]
  }

  function Entry(stored: map<int, StoredPart>, number: int): ListedPart
    requires number in stored
  {
    ListedPart(Some(number), Some(|stored[number].body|), Some(stored[number].etag))
  }

  lemma ListedFromEnd(stored: map<int, StoredPart>, n: int, tail: seq<ListedPart>)
    requires n > 0
    ensures Listed(stored, n) + tail
      == Listed(stored, n - 1) + if n in stored then [Entry(stored, n)] + tail else tail
  {
    if n in stored {
      assert Listed(stored, n - 1) + [Entry(stored, n)] + tail == Listed(stored, n - 1) + ([Entry(stored, n)] + tail);
    } else {
      assert Listed(stored, n - 1) + [] == Listed(stored, n - 1);
    }
  }

  lemma EmptyPageInFront(pages: seq<Page>, tail: seq<ListedPart>)
    requires Listing(pages) == Some(tail)
    ensures Listing([Parts([], Some(true), Some("marker"))] + pages) == Some(tail)
  {
    assert ([Parts([], Some(true), Some("marker"))] + pages)[1..] == pages && [] + tail == tail;
  }

  lemma EntryInFront(pages: seq<Page>, entry: ListedPart, tail: seq<ListedPart>)
    requires pages != [] && pages[0].Parts? && Listing(pages) == Some(tail)
    ensures Listing([pages[0].(parts := [entry] + pages[0].parts)] + pages[1..]) == Some([entry] + tail)
  {
    var first := pages[0].(parts := [entry] + pages[0].parts);
    assert ([first] + pages[1..])[1..] == pages[1..];
    assert forall rest: seq<ListedPart> :: first.parts + rest == [entry] + (pages[0].parts + rest);
  }

  /** The bucket, for the one object key an uploader writes. `content` is what a GET would return. */
  class Bucket {
    var uploads: map<Bytes, map<int, StoredPart>>
    var issued: set<Bytes>
    var content: Option<seq<octet>>
    /** A request to create or to list has failed for no reason of its own, or a reply lacked its tag. */
    var faulted: bool
    /** The part numbers of all UploadPart requests. */
    ghost var sent: seq<int>

    constructor ()
      ensures uploads == map[] && issued == {} && content == None && !faulted && sent == []
    {
      uploads, issued, content, faulted, sent := map[], {}, None, false, [];
    }

    /** Lifecycle rules and explicit aborts can drop any upload at any time. */
    method Expire()
      modifies this`uploads
      ensures Dropped(old(uploads), uploads)
    {
      var dropped: set<Bytes> := *;
      uploads := uploads - dropped;
    }

    /** A reply without an upload ID is possible, and IDs are never issued twice. */
    method CreateMultipartUpload() returns (id: Option<Bytes>)
      modifies this`uploads, this`issued, this`faulted
      ensures id.None? || id.value == [] ==> faulted
      ensures old(faulted) ==> faulted
      ensures id.None? || id.value == [] ==> uploads == old(uploads) && issued == old(issued)
      ensures id.Some? && id.value != [] ==>
        id.value !in old(issued) && issued == old(issued) + {id.value} && uploads == old(uploads)[id.value := map[]]
    {
      id := *;
      if id.Some? && id.value != [] {
        if id.value in issued {
          faulted := true;
          return None;
        }
        issued := issued + {id.value};
        uploads := uploads[id.value := map[]];
      } else {
        faulted := true;
      }
    }

    /**
     An error reply does not mean that the part was not stored, and a reply can come without its ETag header.
     Uploads can have been dropped since the request before this one.
     */
    method UploadPart(id: Bytes, number: int, body: seq<octet>) returns (etag: Option<Bytes>)
      modifies this`uploads, this`faulted, this`sent
      ensures old(faulted) ==> faulted
      ensures sent == old(sent) + [number]
      ensures etag == Some([]) ==> faulted
      ensures Dropped(old(uploads), uploads)
        || (id in old(uploads) && 1 <= number <= MAX_PARTS
            && PartStored(old(uploads), id, number, body, uploads))
      ensures etag.Some? ==>
        id in old(uploads) && PartStored(old(uploads), id, number, body, uploads)
        && (etag.value == uploads[id][number].etag || etag.value == [])
    {
      sent := sent + [number];
      Expire();
      if id !in uploads || !(1 <= number <= MAX_PARTS) {
        return None;
      }
      if * {
        return None;
      }
      var tag: Bytes := *;
      if tag == [] {
        return None;
      }
      ghost var held := uploads;
      uploads := uploads[id := uploads[id][number := StoredPart(body, tag)]];
      DropThenStore(old(uploads), held, id, number, StoredPart(body, tag));
      if * {
        return None;
      }
      etag := Some(tag);
      if * {
        etag, faulted := Some([]), true;
      }
    }

    /** The replies to successive ListParts calls: honest, cut into pages anywhere, or an API error. */
    method ListParts(id: Bytes) returns (pages: seq<Page>)
      modifies this`faulted
      ensures id !in uploads ==> pages == [NoSuchUpload] || (faulted && pages == [ApiError])
      ensures id in uploads ==> NoSuchUpload !in pages
      ensures id in uploads && Listing(pages).Some? ==> Listing(pages).value == Listed(uploads[id], MAX_PARTS)
      ensures id in uploads && !faulted ==> Listing(pages).Some?
      ensures old(faulted) ==> faulted
    {
      if * {
        faulted := true;
        return [ApiError];
      }
      if id !in uploads {
        return [NoSuchUpload];
      }
      pages := [Parts([], Some(false), None)];
      var n := MAX_PARTS;
      ghost var tail: seq<ListedPart> := [];
      ghost var all := Listed(uploads[id], MAX_PARTS);
      while n > 0
        invariant 0 <= n <= MAX_PARTS && faulted == old(faulted)
        invariant pages != [] && pages[0].Parts? && NoSuchUpload !in pages
        invariant Listing(pages) == Some(tail)
        invariant Listed(uploads[id], n) + tail == all
      {
        if * {
          EmptyPageInFront(pages, tail);
          pages := [Parts([], Some(true), Some("marker"))] + pages;
        }
        ListedFromEnd(uploads[id], n, tail);
        if n in uploads[id] {
          var entry := Entry(uploads[id], n);
          EntryInFront(pages, entry, tail);
          pages := [pages[0].(parts := [entry] + pages[0].parts)] + pages[1..];
          tail := [entry] + tail;
        }
        n := n - 1;
      }
      assert [] + tail == tail;
    }

    /** Completing needs the upload and, for each part named, its current ETag; the reply can be lost. */
    method CompleteMultipartUpload(id: Bytes, parts: seq<CompletedPart>) returns (ok: bool)
      modifies this`uploads, this`content
      ensures content == old(content)
        || (id in old(uploads) && (forall p :: p in parts ==> p.number in old(uploads)[id])
            && content == Some(Assemble(old(uploads)[id], parts)))
      ensures ok ==> id in old(uploads) && forall p :: p in parts ==> p.number in old(uploads)[id]
      ensures ok ==> content == Some(Assemble(old(uploads)[id], parts))
      ensures Dropped(old(uploads), uploads)
    {
      Expire();
      if id !in uploads
        || exists p :: p in parts && (p.number !in uploads[id] || uploads[id][p.number].etag != p.etag)
      {
        return false;
      }
      if * {
        return false;
      }
      content := Some(Assemble(uploads[id], parts));
      uploads := uploads - {id};
      ok := *;
    }
  }

  // ---------------------------------------------------------------------------------------------
  // The client
  // ---------------------------------------------------------------------------------------------

  datatype AttemptEnd = Completed | Failed | Crashed

  ghost predicate Numbered(parts: seq<CompletedPart>) {
    forall i :: 0 <= i < |parts| ==> parts[i].number == i + 1
  }

  /** A session is a true statement about the file: its parts are 1..n and its offset is where they end. */
  ghost predicate SessionFits(s: Session, data: seq<octet>) {
    && s.uploadID != [] && s.size == |data|
    && s.offset == Min(|s.parts| * PART_SIZE, |data|) && Numbered(s.parts)
  }

  ghost predicate TokenFits(token: Disk<Session>, data: seq<octet>) {
    && (Valid(token.primary) ==> SessionFits(token.primary.value, data))
    && (Valid(token.backup) ==> SessionFits(token.backup.value, data))
  }

  lemma TokenKeepsFitting(before: Disk<Session>, s: Session, after: Disk<Session>, ending: Ending, data: seq<octet>)
    requires TokenFits(before, data) && SessionFits(s, data) && WriteStep(before, s, after, ending)
    ensures TokenFits(after, data)
  {
  }

  /** What Rebuild makes of the listing of such an upload: it accepts it, with all parts there are. */
  ghost predicate RebuiltAll(r: Option<Rebuilt>, stored: map<int, StoredPart>, n: int, data: seq<octet>) {
    && r.Some? && Numbered(r.value.parts) && r.value.offset == Min(|r.value.parts| * PART_SIZE, |data|)
    && (n == 0 || n in stored ==> |r.value.parts| == n)
    && (r.value.parts == [] || |r.value.parts| in stored)
  }

  lemma {:induction false} ListingIsAccepted(stored: map<int, StoredPart>, n: int, data: seq<octet>)
    requires StoresChunks(stored, data) && Contiguous(stored) && 0 <= n
    ensures RebuiltAll(Rebuild(Listed(stored, n), |data|, NOTHING), stored, n, data)
    decreases n
  {
    if n > 0 {
      ListingIsAccepted(stored, n - 1, data);
      if n in stored {
        EntryIsAccepted(stored, n, data, Rebuild(Listed(stored, n - 1), |data|, NOTHING).value);
        RebuildSplits(Listed(stored, n - 1), [Entry(stored, n)], |data|, NOTHING);
      } else {
        assert Listed(stored, n - 1) + [] == Listed(stored, n - 1);
      }
    }
  }

  lemma EntryIsAccepted(stored: map<int, StoredPart>, n: int, data: seq<octet>, before: Rebuilt)
    requires StoresChunks(stored, data) && n in stored
    requires Numbered(before.parts) && |before.parts| == n - 1 && before.offset == Min((n - 1) * PART_SIZE, |data|)
    ensures RebuiltAll(Rebuild([Entry(stored, n)], |data|, before), stored, n, data)
  {
    ChunkLength(data, n);
    assert stored[n].body == Chunk(data, n);
    RebuildOfOne(Entry(stored, n), before, |data|);
  }

  lemma ChunkLength(data: seq<octet>, n: int)
    requires 1 <= n && (n - 1) * PART_SIZE < |data|
    ensures 0 < |Chunk(data, n)| == Min(n * PART_SIZE, |data|) - (n - 1) * PART_SIZE
    ensures |Chunk(data, n)| == PART_SIZE || (n - 1) * PART_SIZE + |Chunk(data, n)| == |data|
  {
  }

  lemma RebuildOfOne(entry: ListedPart, before: Rebuilt, size: int)
    requires Acceptable(entry, before, size)
    ensures Rebuild([entry], size, before) == Some(Extend(entry, before))
  {
    assert [entry][1..] == [];
  }

  /** Every part is stored under its number with its bytes, for the parts 1..n. */
  ghost predicate PartsStored(stored: map<int, StoredPart>, parts: seq<CompletedPart>, data: seq<octet>) {
    forall i :: 0 <= i < |parts| ==> PartIsStored(stored, parts[i], i, data)
  }

  ghost predicate PartIsStored(stored: map<int, StoredPart>, part: CompletedPart, i: nat, data: seq<octet>) {
    part.number == i + 1 && i + 1 in stored && i * PART_SIZE < |data| && stored[i + 1].body == Chunk(data, i + 1)
  }

  lemma ChunkExtends(data: seq<octet>, n: nat)
    requires n * PART_SIZE < |data|
    ensures data[..n * PART_SIZE] + Chunk(data, n + 1) == data[..Min((n + 1) * PART_SIZE, |data|)]
  {
    var a, b := n * PART_SIZE, Min((n + 1) * PART_SIZE, |data|);
    assert data[..a] + data[a..b] == data[..b];
  }

  /** Parts 1..n assemble to the first n part-sizes of the file. */
  lemma {:induction false} AssembledChunks(stored: map<int, StoredPart>, parts: seq<CompletedPart>, data: seq<octet>)
    requires PartsStored(stored, parts, data)
    ensures forall p :: p in parts ==> p.number in stored
    ensures Assemble(stored, parts) == data[..Min(|parts| * PART_SIZE, |data|)]
  {
    forall i | 0 <= i < |parts| ensures parts[i].number in stored {
      assert PartIsStored(stored, parts[i], i, data);
    }
    if parts != [] {
      var n := |parts| - 1;
      AssembledChunks(stored, parts[..n], data);
      assert PartIsStored(stored, parts[n], n, data);
      ChunkExtends(data, n);
    }
  }

  /** The session lists exactly the parts the service holds, whatever the token said about them. */
  ghost predicate HeldByService(uploads: map<Bytes, map<int, StoredPart>>, s: Session) {
    s.uploadID in uploads
    && Rebuild(Listed(uploads[s.uploadID], MAX_PARTS), s.size, NOTHING) == Some(Rebuilt(s.parts, s.offset))
  }

  lemma {:induction false} NothingIsListed(upto: int)
    ensures Listed(map[], upto) == []
    decreases upto
  {
    if upto > 0 {
      NothingIsListed(upto - 1);
    }
  }

  /** The last part of the session is stored, if its upload is still there. */
  ghost predicate HasLastPart(uploads: map<Bytes, map<int, StoredPart>>, s: Session) {
    s.uploadID in uploads && s.parts != [] ==> |s.parts| in uploads[s.uploadID]
  }

  /** What a token has to say before the service is asked about its upload. */
  predicate TokenMatches(s: Session, size: int) {
    s.uploadID != [] && s.size == size && 0 <= s.offset <= size && s.offset % PART_SIZE == 0
  }

  /** When a service that answers lets an attempt start from this token. */
  predicate Resumable(token: Option<Session>, size: int) {
    token.Some? ==> TokenMatches(token.value, size)
  }

  /** A token this program wrote is part-aligned unless it was written after a short last part. */
  lemma AlignedUnlessShortPart(s: Session, data: seq<octet>)
    requires SessionFits(s, data)
    ensures s.offset % PART_SIZE == 0 <==> s.offset < |data| || |data| % PART_SIZE == 0
  {
    if s.offset < |data| {
      assert s.offset == |s.parts| * PART_SIZE;
    }
  }

  /** prepareMultipartSession: rebuild the upload the token names, or start a new one when it is gone. */
  method PrepareMultipartSession(bucket: Bucket, size: int, token: Option<Session>, ghost data: seq<octet>)
    returns (r: Option<Session>)
    requires HoldsChunks(bucket.uploads, data) && size == |data|
    modifies bucket
    ensures HoldsChunks(bucket.uploads, data) && bucket.content == old(bucket.content)
    ensures r.Some? ==> SessionFits(r.value, data) && r.value.uploadID != []
    ensures r.Some? ==>
      || (token.Some? && r.value.uploadID == token.value.uploadID && bucket.uploads == old(bucket.uploads)
          && HeldByService(bucket.uploads, r.value))
      || (r.value.uploadID !in old(bucket.issued) && r.value.parts == [] && r.value.offset == 0)
    ensures token.Some? && token.value.uploadID in old(bucket.uploads) && r.Some? ==>
      r.value.uploadID == token.value.uploadID
    ensures r.Some? ==> HasLastPart(bucket.uploads, r.value) && HeldByService(bucket.uploads, r.value)
    ensures bucket.sent == old(bucket.sent)
    ensures !bucket.faulted ==> (r.Some? <==> Resumable(token, size))
    ensures token.Some? && SessionFits(token.value, data) && !bucket.faulted ==>
      (r.Some? <==> token.value.offset < size || size % PART_SIZE == 0)
    ensures token.Some? && !TokenMatches(token.value, size) ==> r == None && bucket.uploads == old(bucket.uploads)
  {
    if token.Some? {
      var state := token.value;
      if SessionFits(state, data) {
        AlignedUnlessShortPart(state, data);
      }
      if state.uploadID == [] || state.size != size || state.offset < 0 || state.offset > size
        || state.offset % PART_SIZE != 0
      {
        return None;
      }
      var pages := bucket.ListParts(state.uploadID);
      var rebuilt := Reconstruct(pages, state);
      if state.uploadID in bucket.uploads {
        ListingIsAccepted(bucket.uploads[state.uploadID], MAX_PARTS, data);
      }
      if rebuilt.Success? {
        return Some(rebuilt.value);
      }
      if rebuilt.error != UploadMissing {
        return None;
      }
    }
    var id := bucket.CreateMultipartUpload();
    if id.None? || id.value == [] {
      return None;
    }
    NothingIsListed(MAX_PARTS);
    return Some(Session(id.value, size, 0, []));
  }

  /** The number of parts a file of this size has. */
  function PartCount(size: int): int {
    (size + PART_SIZE - 1) / PART_SIZE
  }

  lemma StoredPartKeeps(before: map<Bytes, map<int, StoredPart>>, id: Bytes, number: int, body: seq<octet>,
                        after: map<Bytes, map<int, StoredPart>>, data: seq<octet>)
    requires HoldsChunks(before, data) && id in before && PartStored(before, id, number, body, after)
    requires 1 <= number <= MAX_PARTS && (number - 1) * PART_SIZE < |data| && body == Chunk(data, number)
    requires number > 1 ==> number - 1 in before[id]
    ensures HoldsChunks(after, data)
  {
    var tag: Bytes :| StoredAs(before[id], number, StoredPart(body, tag), after[id]);
    OnePartMore(before[id], number, StoredPart(body, tag), data);
  }

  lemma OnePartMore(stored: map<int, StoredPart>, number: int, part: StoredPart, data: seq<octet>)
    requires StoresChunks(stored, data) && Contiguous(stored)
    requires 1 <= number <= MAX_PARTS && (number - 1) * PART_SIZE < |data|
    requires part.body == Chunk(data, number) && part.etag != []
    requires number > 1 ==> number - 1 in stored
    ensures StoresChunks(stored[number := part], data) && Contiguous(stored[number := part])
  {
    assert RightPart(part, number, data);
  }

  lemma DropKeeps(before: map<Bytes, map<int, StoredPart>>, after: map<Bytes, map<int, StoredPart>>, data: seq<octet>)
    requires HoldsChunks(before, data) && Dropped(before, after)
    ensures HoldsChunks(after, data)
  {
  }

  lemma NumberedAreStored(stored: map<int, StoredPart>, parts: seq<CompletedPart>, data: seq<octet>)
    requires StoresChunks(stored, data) && Numbered(parts)
    requires forall p :: p in parts ==> p.number in stored
    ensures PartsStored(stored, parts, data)
  {
    forall i | 0 <= i < |parts| ensures PartIsStored(stored, parts[i], i, data) {
      assert parts[i] in parts;
    }
  }

  /** Completing with parts 1..PartCount assembles the file, whatever attempt stored them. */
  lemma CompleteAssemblesFile(stored: map<int, StoredPart>, parts: seq<CompletedPart>, data: seq<octet>)
    requires StoresChunks(stored, data) && Numbered(parts) && |data| <= |parts| * PART_SIZE
    requires forall p :: p in parts ==> p.number in stored
    ensures Assemble(stored, parts) == data
  {
    NumberedAreStored(stored, parts, data);
    AssembledChunks(stored, parts, data);
    assert data[..|data|] == data;
  }

  /** Part numbers sent one after the other, from `first`, and none past the last part of the file. */
  ghost predicate SentInOrder(sent: seq<int>, first: int, size: int) {
    forall i :: 0 <= i < |sent| ==> sent[i] == first + i && sent[i] <= PartCount(size)
  }

  /** What was sent after `before` was sent in order. */
  ghost predicate SentFrom(before: seq<int>, sent: seq<int>, first: int, size: int) {
    before <= sent && SentInOrder(sent[|before|..], first, size)
  }

  lemma SentOneMore(before: seq<int>, sent: seq<int>, first: int, size: int)
    requires SentFrom(before, sent, first, size) && first + |sent| - |before| <= PartCount(size)
    ensures SentFrom(before, sent + [first + |sent| - |before|], first, size)
  {
    var next := first + |sent| - |before|;
    assert (sent + [next])[|before|..] == sent[|before|..] + [next];
  }

  /** The session after n full parts: where part n + 1 starts, how long it is, and that it exists. */
  lemma NextPart(n: int, size: int)
    requires 0 <= n && Min(n * PART_SIZE, size) < size
    ensures Min(n * PART_SIZE, size) == n * PART_SIZE && Min(n * PART_SIZE, size) / PART_SIZE == n
    ensures n * PART_SIZE + Min(PART_SIZE, size - n * PART_SIZE) == Min((n + 1) * PART_SIZE, size)
    ensures n + 1 <= PartCount(size)
  {
  }

  lemma LastPart(s: Session, before: seq<int>, sent: seq<int>, first: int, data: seq<octet>)
    requires SessionFits(s, data) && s.offset >= s.size
    requires SentFrom(before, sent, first, |data|) && sent != before && |s.parts| == first - 1 + |sent| - |before|
    ensures |s.parts| == PartCount(|data|)
  {
    var more := sent[|before|..];
    assert sent == before + more;
    assert more[|more| - 1] == |s.parts|;
  }

  /** A part already in the list is replaced, any other is appended. */
  function PutPart(parts: seq<CompletedPart>, entry: CompletedPart): seq<CompletedPart>
    requires 1 <= entry.number
  {
    if |parts| >= entry.number then parts[entry.number - 1 := entry] else parts + [entry]
  }

  /** What a process that starts now would read from the token. */
  ghost function Durable(token: CheckpointFile<Session>): Result<Option<Session>, ()>
    reads token
  {
    Read(token.OnDisk())
  }

  /** The durable token is for this upload. */
  ghost predicate NamesUpload(durable: Result<Option<Session>, ()>, id: Bytes) {
    durable.Success? && durable.value.Some? && durable.value.value.uploadID == id
  }

  /** The checkpoint callback. */
  method SaveSession(token: CheckpointFile<Session>, state: Session, ghost data: seq<octet>) returns (ending: Ending)
    requires TokenFits(token.OnDisk(), data) && SessionFits(state, data)
    modifies token
    ensures WriteStep(old(token.OnDisk()), state, token.OnDisk(), ending) && TokenFits(token.OnDisk(), data)
    ensures Durable(token) == old(Durable(token)) || Durable(token) == Success(Some(state))
    ensures ending.Written? ==> Durable(token) == Success(Some(state))
  {
    ending := token.Write(state);
    TokenKeepsFitting(old(token.OnDisk()), state, token.OnDisk(), ending, data);
    WriteIsAtomic(old(token.OnDisk()), state, token.OnDisk(), ending);
  }

  /** The upload loop between two rounds: its session, the parts stored for it, and the token on disk. */
  datatype Local = Local(session: Session, stored: map<int, StoredPart>, disk: Disk<Session>)

  /** A round in which the next part was stored and the session that includes it checkpointed. */
  ghost predicate PartRound(a: Local, b: Local, data: seq<octet>) {
    var n := |a.session.parts| + 1;
    && n <= MAX_PARTS && (n - 1) * PART_SIZE < |data|
    && WriteStep(a.disk, b.session, b.disk, Written)
    && |b.session.parts| == n && PartKept(a.stored, n, data, b.stored, b.session.parts[n - 1].etag)
    && b.session == a.session.(
         parts := a.session.parts + [CompletedPart(n, b.session.parts[n - 1].etag)],
         offset := Min(n * PART_SIZE, |data|))
  }

  /** Part n was stored with the bytes it stands for and the ETag the client was told, if it was told one. */
  ghost predicate PartKept(before: map<int, StoredPart>, n: int, data: seq<octet>, after: map<int, StoredPart>,
                           told: Bytes)
    requires 1 <= n && (n - 1) * PART_SIZE < |data|
  {
    && n in after && (told == after[n].etag || told == [])
    && StoredAs(before, n, StoredPart(Chunk(data, n), after[n].etag), after)
  }

  /** Read the next part and send it. */
  method StorePart(bucket: Bucket, body: Reader, buffer: array<octet>, session: Session, partNumber: int)
    returns (etag: Option<Bytes>)
    requires HoldsChunks(bucket.uploads, body.data) && HasLastPart(bucket.uploads, session)
    requires SessionFits(session, body.data) && session.offset < session.size && body.pos == session.offset
    requires partNumber == |session.parts| + 1 && buffer.Length == PART_SIZE
    modifies bucket, body, buffer
    ensures HoldsChunks(bucket.uploads, body.data)
    ensures bucket.content == old(bucket.content) && bucket.issued == old(bucket.issued)
    ensures old(bucket.faulted) || etag == Some([]) ==> bucket.faulted
    ensures bucket.sent == old(bucket.sent) + [partNumber] || (etag.None? && bucket.sent == old(bucket.sent))
    ensures etag.Some? ==>
      session.uploadID in old(bucket.uploads) && session.uploadID in bucket.uploads && partNumber <= MAX_PARTS
      && PartKept(old(bucket.uploads)[session.uploadID], partNumber, body.data,
                  bucket.uploads[session.uploadID], etag.value)
    ensures etag.Some? ==> body.pos == Min(partNumber * PART_SIZE, |body.data|)
  {
    NextPart(|session.parts|, |body.data|);
    var partBytes := Min(PART_SIZE, session.size - session.offset);
    var read := body.ReadFull(buffer, partBytes);
    if !read {
      return None;
    }
    assert buffer[..partBytes] == Chunk(body.data, partNumber);
    ghost var before := bucket.uploads;
    etag := bucket.UploadPart(session.uploadID, partNumber, buffer[..partBytes]);
    if Dropped(before, bucket.uploads) {
      DropKeeps(before, bucket.uploads, body.data);
    } else {
      StoredPartKeeps(before, session.uploadID, partNumber, buffer[..partBytes], bucket.uploads, body.data);
    }
  }

  lemma NextSessionFits(s: Session, entry: CompletedPart, data: seq<octet>)
    requires SessionFits(s, data) && s.offset < s.size && entry.number == |s.parts| + 1
    ensures var next := s.(parts := PutPart(s.parts, entry), offset := s.offset + Min(PART_SIZE, s.size - s.offset));
      && next == s.(parts := s.parts + [entry], offset := Min(entry.number * PART_SIZE, |data|))
      && SessionFits(next, data) && s.offset < next.offset
  {
    NextPart(|s.parts|, |data|);
  }

  lemma IsPartRound(a: Local, b: Local, entry: CompletedPart, data: seq<octet>)
    requires 1 <= entry.number <= MAX_PARTS && (entry.number - 1) * PART_SIZE < |data|
    requires entry.number == |a.session.parts| + 1 && PartKept(a.stored, entry.number, data, b.stored, entry.etag)
    requires b.session
      == a.session.(parts := a.session.parts + [entry], offset := Min(entry.number * PART_SIZE, |data|))
    requires WriteStep(a.disk, b.session, b.disk, Written)
    ensures PartRound(a, b, data)
  {
  }

  /** One round of the upload loop: read a part, send it, and checkpoint the session that includes it. */
  method SendPart(bucket: Bucket, body: Reader, buffer: array<octet>, session: Session, partNumber: int,
                  token: CheckpointFile<Session>)
    returns (end: AttemptEnd, state: Session)
    requires HoldsChunks(bucket.uploads, body.data) && TokenFits(token.OnDisk(), body.data)
    requires SessionFits(session, body.data) && session.offset < session.size && body.pos == session.offset
    requires partNumber == |session.parts| + 1 && buffer.Length == PART_SIZE && HasLastPart(bucket.uploads, session)
    modifies bucket, body, buffer, token
    ensures HoldsChunks(bucket.uploads, body.data) && TokenFits(token.OnDisk(), body.data)
    ensures bucket.content == old(bucket.content) && bucket.issued == old(bucket.issued)
    ensures end.Completed? ==>
      SessionFits(state, body.data) && body.pos == state.offset > session.offset
      && state.uploadID == session.uploadID && |state.parts| == |session.parts| + 1
      && state.uploadID in old(bucket.uploads) && state.uploadID in bucket.uploads && HasLastPart(bucket.uploads, state)
    ensures old(bucket.faulted) ==> bucket.faulted
    ensures bucket.sent == old(bucket.sent) + [partNumber] || (!end.Completed? && bucket.sent == old(bucket.sent))
    ensures old(NamesUpload(Durable(token), session.uploadID)) ==> NamesUpload(Durable(token), session.uploadID)
    ensures end.Completed? && !bucket.faulted ==>
      state.parts[|state.parts| - 1].etag == bucket.uploads[state.uploadID][|state.parts|].etag
    ensures end.Completed? ==>
      PartRound(Local(session, old(bucket.uploads)[state.uploadID], old(token.OnDisk())),
                Local(state, bucket.uploads[state.uploadID], token.OnDisk()), body.data)
    ensures end.Completed? ==> Durable(token) == Success(Some(state))
  {
    state := session;
    var partBytes := Min(PART_SIZE, state.size - state.offset);
    var etag := StorePart(bucket, body, buffer, session, partNumber);
    if * {
      return Crashed, state;
    }
    if etag.None? {
      return Failed, state;
    }
    var entry := CompletedPart(partNumber, etag.value);
    NextSessionFits(session, entry, body.data);
    state := state.(parts := PutPart(state.parts, entry), offset := state.offset + partBytes);
    var ending := SaveSession(token, state, body.data);
    if !ending.Written? {
      return (if ending.Cut? then Crashed else Failed), state;
    }
    IsPartRound(Local(session, old(bucket.uploads)[session.uploadID], old(token.OnDisk())),
                Local(state, bucket.uploads[session.uploadID], token.OnDisk()), entry, body.data);
    return Completed, state;
  }

  /** The end of uploadMultipartResume: complete with all parts. The object appears even if the reply is lost. */
  method CompleteUpload(bucket: Bucket, state: Session, ghost data: seq<octet>) returns (end: AttemptEnd)
    requires HoldsChunks(bucket.uploads, data) && SessionFits(state, data) && state.offset >= state.size
    modifies bucket
    ensures HoldsChunks(bucket.uploads, data) && bucket.issued == old(bucket.issued)
    ensures bucket.content == old(bucket.content) || bucket.content == Some(data)
    ensures end.Completed? ==> bucket.content == Some(data)
    ensures bucket.faulted == old(bucket.faulted) && bucket.sent == old(bucket.sent)
  {
    ghost var before := bucket.uploads;
    var ok := bucket.CompleteMultipartUpload(state.uploadID, state.parts);
    if bucket.content != old(bucket.content) || ok {
      CompleteAssemblesFile(before[state.uploadID], state.parts, data);
    }
    if * {
      return Crashed;
    }
    return if ok then Completed else Failed;
  }

  /** The upload loop: the session is what the token says, fits the file, and its last part is stored. */
  ghost predicate Underway(bucket: Bucket, token: CheckpointFile<Session>, state: Session, data: seq<octet>)
    reads bucket, token
  {
    && HoldsChunks(bucket.uploads, data) && TokenFits(token.OnDisk(), data)
    && SessionFits(state, data) && HasLastPart(bucket.uploads, state) && Durable(token) == Success(Some(state))
  }

  /** One round, as the loop sees it. */
  method SendNext(bucket: Bucket, body: Reader, buffer: array<octet>, session: Session, partNumber: int,
                   token: CheckpointFile<Session>)
    returns (end: AttemptEnd, state: Session)
    requires Underway(bucket, token, session, body.data) && session.offset < session.size && body.pos == session.offset
    requires partNumber == |session.parts| + 1 && buffer.Length == PART_SIZE
    modifies bucket, body, buffer, token
    ensures HoldsChunks(bucket.uploads, body.data) && TokenFits(token.OnDisk(), body.data)
    ensures bucket.content == old(bucket.content) && bucket.issued == old(bucket.issued)
    ensures old(bucket.faulted) ==> bucket.faulted
    ensures NamesUpload(Durable(token), session.uploadID)
    ensures bucket.sent == old(bucket.sent) + [partNumber] || (!end.Completed? && bucket.sent == old(bucket.sent))
    ensures end.Completed? ==>
      Underway(bucket, token, state, body.data) && body.pos == state.offset > session.offset
      && state.uploadID == session.uploadID && |state.parts| == partNumber
  {
    end, state := SendPart(bucket, body, buffer, session, partNumber, token);
  }

  /** The loop of uploadMultipartResume, from part `first`. */
  method SendParts(bucket: Bucket, body: Reader, session: Session, first: int, token: CheckpointFile<Session>)
    returns (end: AttemptEnd, state: Session)
    requires Underway(bucket, token, session, body.data) && body.pos == session.offset
    requires session.offset < session.size ==> first == |session.parts| + 1
    modifies bucket, body, token
    ensures HoldsChunks(bucket.uploads, body.data) && TokenFits(token.OnDisk(), body.data)
    ensures bucket.content == old(bucket.content) && bucket.issued == old(bucket.issued)
    ensures (old(bucket.faulted) ==> bucket.faulted) && NamesUpload(Durable(token), session.uploadID)
    ensures SentFrom(old(bucket.sent), bucket.sent, |session.parts| + 1, |body.data|)
    ensures end.Completed? ==>
      Underway(bucket, token, state, body.data) && state.uploadID == session.uploadID && state.offset >= state.size
      && |bucket.sent| == |old(bucket.sent)| + |state.parts| - |session.parts|
      && (session.offset < session.size ==> |state.parts| > |session.parts|)
  {
    state := session;
    var partNumber := first;
    var buffer := new octet[PART_SIZE];
    ghost var before := bucket.sent;
    while state.offset < state.size
      invariant Underway(bucket, token, state, body.data)
      invariant state.uploadID == session.uploadID && body.pos == state.offset
      invariant state.offset < state.size ==> partNumber == |state.parts| + 1
      invariant bucket.content == old(bucket.content) && bucket.issued == old(bucket.issued)
      invariant old(bucket.faulted) ==> bucket.faulted
      invariant |bucket.sent| == |before| + |state.parts| - |session.parts|
      invariant SentFrom(before, bucket.sent, |session.parts| + 1, |body.data|)
      invariant state == session || |state.parts| > |session.parts|
      decreases state.size - state.offset
    {
      NextPart(|state.parts|, |body.data|);
      SentOneMore(before, bucket.sent, |session.parts| + 1, |body.data|);
      end, state := SendNext(bucket, body, buffer, state, partNumber, token);
      if !end.Completed? {
        return;
      }
      partNumber := partNumber + 1;
    }
    end := Completed;
  }

  /** uploadMultipartResume */
  method UploadMultipartResume(bucket: Bucket, body: Reader, session: Session, token: CheckpointFile<Session>)
    returns (end: AttemptEnd, state: Session)
    requires Underway(bucket, token, session, body.data) && body.pos == session.offset
    modifies bucket, body, token
    ensures HoldsChunks(bucket.uploads, body.data) && TokenFits(token.OnDisk(), body.data)
    ensures bucket.content == old(bucket.content) || bucket.content == Some(body.data)
    ensures NamesUpload(Durable(token), session.uploadID)
    ensures end.Completed? ==> Durable(token) == Success(Some(state))
    ensures MAX_PARTS * PART_SIZE <= session.offset ==> end.Failed? && bucket.sent == old(bucket.sent)
    ensures end.Completed? ==>
      bucket.content == Some(body.data) && state.uploadID == session.uploadID && Numbered(state.parts)
      && state.offset == state.size == |body.data|
    ensures end.Completed? && session.offset < session.size ==> |state.parts| == PartCount(|body.data|)
    ensures SentFrom(old(bucket.sent), bucket.sent, |session.parts| + 1, |body.data|)
    ensures end.Completed? ==> |bucket.sent| == |old(bucket.sent)| + |state.parts| - |session.parts|
    ensures bucket.issued == old(bucket.issued) && (old(bucket.faulted) ==> bucket.faulted)
  {
    state := session;
    if state.uploadID == [] || state.offset > state.size {
      return Failed, state;
    }
    var partIndex := state.offset / PART_SIZE;
    if partIndex < 0 || partIndex >= MAX_PARTS {
      return Failed, state;
    }
    if state.offset < state.size {
      NextPart(|state.parts|, |body.data|);
    }
    end, state := SendParts(bucket, body, session, partIndex + 1, token);
    if !end.Completed? {
      return;
    }
    if session.offset < session.size {
      LastPart(state, old(bucket.sent), bucket.sent, |session.parts| + 1, body.data);
    }
    end := CompleteUpload(bucket, state, body.data);
  }

  /** A file of at most 10,000 parts never needs a part number S3 does not have. */
  lemma NumbersWithinS3(size: int, sent: seq<int>, first: int)
    requires 0 <= size && SentInOrder(sent, first, size)
    ensures size <= MAX_PARTS * PART_SIZE <==> PartCount(size) <= MAX_PARTS
    ensures size <= MAX_PARTS * PART_SIZE ==> forall n :: n in sent ==> first <= n <= MAX_PARTS
  {
  }

  /** The durable token was written after a short last part: its offset is the end of the file, and not aligned. */
  ghost predicate Stuck(durable: Result<Option<Session>, ()>, data: seq<octet>) {
    durable.Success? && durable.value.Some? && durable.value.value.offset >= |data| && |data| % PART_SIZE != 0
  }

  /**
   PrepareUpload and the checkpoint after it. `accepted` is the session that was prepared, as the service holds
   it. Without faults there is one exactly when the durable token is not stuck; a stuck one is always refused.
   */
  method PrepareUpload(bucket: Bucket, token: CheckpointFile<Session>, size: int, ghost data: seq<octet>)
    returns (end: AttemptEnd, session: Session, ghost accepted: Option<Session>)
    requires HoldsChunks(bucket.uploads, data) && TokenFits(token.OnDisk(), data) && size == |data| > 0
    modifies bucket, token
    ensures HoldsChunks(bucket.uploads, data) && TokenFits(token.OnDisk(), data)
    ensures bucket.content == old(bucket.content) && bucket.sent == old(bucket.sent)
    ensures accepted.Some? ==>
      SessionFits(accepted.value, data) && HeldByService(bucket.uploads, accepted.value)
      && HasLastPart(bucket.uploads, accepted.value)
      && (Durable(token) == old(Durable(token)) || Durable(token) == Success(Some(accepted.value)))
    ensures accepted.None? ==> !end.Completed? && token.OnDisk() == old(token.OnDisk())
    ensures end.Completed? ==> accepted == Some(session) && Durable(token) == Success(Some(session))
    ensures old(Durable(token)).Success? && !bucket.faulted ==> (accepted.Some? <==> !old(Stuck(Durable(token), data)))
    ensures old(Stuck(Durable(token), data)) ==> accepted.None?
  {
    accepted, session := None, Session([], size, 0, []);
    var requested := Read(token.OnDisk());
    if requested.Failure? {
      return Failed, session, accepted;
    }
    if requested.value.Some? {
      AlignedUnlessShortPart(requested.value.value, data);
    }
    var prepared := PrepareMultipartSession(bucket, size, requested.value, data);
    accepted := prepared;
    if * {
      return Crashed, session, accepted;
    }
    if prepared.None? {
      return Failed, session, accepted;
    }
    session := prepared.value;
    var ending := SaveSession(token, session, data);
    return (if ending.Written? then Completed else if ending.Cut? then Crashed else Failed), session, accepted;
  }

  /**
   UploadResumable: one attempt, from whatever token the previous attempts left. Without faults it prepares a
   session exactly when the token is not stuck; from a stuck token it never does, and leaves token and object
   as they were.
   */
  method UploadResumable(bucket: Bucket, data: seq<octet>, token: CheckpointFile<Session>)
    returns (end: AttemptEnd, ghost accepted: Option<Session>)
    requires HoldsChunks(bucket.uploads, data) && TokenFits(token.OnDisk(), data)
    modifies bucket, token
    ensures HoldsChunks(bucket.uploads, data) && TokenFits(token.OnDisk(), data)
    ensures bucket.content == old(bucket.content) || bucket.content == Some(data)
    ensures end.Completed? ==>
      bucket.content == Some(data) && accepted.Some? && Durable(token).Success? && Durable(token).value.Some?
      && Durable(token).value.value.offset == |data|
    ensures accepted.Some? ==>
      SessionFits(accepted.value, data)
      && (Durable(token) == old(Durable(token)) || NamesUpload(Durable(token), accepted.value.uploadID))
      && SentFrom(old(bucket.sent), bucket.sent, |accepted.value.parts| + 1, |data|)
    ensures accepted.None? ==>
      token.OnDisk() == old(token.OnDisk()) && bucket.content == old(bucket.content) && bucket.sent == old(bucket.sent)
    ensures old(Durable(token)).Success? && |data| > 0 && !bucket.faulted ==>
      (accepted.Some? <==> !old(Stuck(Durable(token), data)))
    ensures old(Stuck(Durable(token), data)) ==> accepted.None?
  {
    if |data| == 0 {
      return Failed, None;
    }
    var session;
    end, session, accepted := PrepareUpload(bucket, token, |data|, data);
    if !end.Completed? {
      return;
    }
    var file := new Reader(data);
    file.Seek(session.offset);
    var state;
    end, state := UploadMultipartResume(bucket, file, session, token);
  }

  /**
   Any number of attempts from any state earlier ones can have left, each cut off anywhere, with uploads
   expiring between any two requests: the object stays as it was or is the file, and is the file once an
   attempt has reported completion. If the durable token is stuck, no attempt completes, the object stays as
   it was, and the token stays stuck.
   */
  method Attempts(bucket: Bucket, data: seq<octet>, token: CheckpointFile<Session>, n: nat)
    returns (ends: seq<AttemptEnd>)
    requires HoldsChunks(bucket.uploads, data) && TokenFits(token.OnDisk(), data)
    modifies bucket, token
    ensures |ends| == n
    ensures HoldsChunks(bucket.uploads, data) && TokenFits(token.OnDisk(), data)
    ensures bucket.content == old(bucket.content) || bucket.content == Some(data)
    ensures Completed in ends ==> bucket.content == Some(data)
    ensures old(Stuck(Durable(token), data)) ==>
      token.OnDisk() == old(token.OnDisk()) && Completed !in ends && bucket.content == old(bucket.content)
      && bucket.sent == old(bucket.sent)
  {
    ends := [];
    for i := 0 to n
      invariant |ends| == i
      invariant HoldsChunks(bucket.uploads, data) && TokenFits(token.OnDisk(), data)
      invariant bucket.content == old(bucket.content) || bucket.content == Some(data)
      invariant Completed in ends ==> bucket.content == Some(data)
      invariant old(Stuck(Durable(token), data)) ==>
        token.OnDisk() == old(token.OnDisk()) && Completed !in ends && bucket.content == old(bucket.content)
        && bucket.sent == old(bucket.sent)
    {
      ghost var held := bucket.uploads;
      bucket.Expire();
      DropKeeps(held, bucket.uploads, data);
      var end;
      ghost var accepted;
      end, accepted := UploadResumable(bucket, data, token);
      ends := ends + [end];
    }
  }

  ghost predicate Rounds(path: seq<Local>, data: seq<octet>) {
    path != [] && forall i :: 0 <= i < |path| - 1 ==> PartRound(path[i], path[i + 1], data)
  }

  /** The round after n parts in which nothing fails. */
  function NextRound(a: Local, data: seq<octet>, tag: Bytes): Local
    requires |a.session.parts| * PART_SIZE < |data|
  {
    var n := |a.session.parts| + 1;
    var session := a.session.(parts := a.session.parts + [CompletedPart(n, tag)], offset := Min(n * PART_SIZE, |data|));
    var backup := if Valid(a.disk.primary) then a.disk.primary else a.disk.backup;
    Local(session, a.stored[n := StoredPart(Chunk(data, n), tag)], Disk(Stored(1, session), backup))
  }

  lemma NextRoundSends(a: Local, data: seq<octet>, tag: Bytes)
    requires |a.session.parts| * PART_SIZE < |data| && |a.session.parts| < MAX_PARTS
    requires tag != [] && !a.disk.primary.Unreadable?
    ensures PartRound(a, NextRound(a, data, tag), data)
  {
  }

  lemma OneMoreRound(a: Local, path: seq<Local>, data: seq<octet>)
    requires Rounds(path, data) && PartRound(a, path[0], data)
    ensures Rounds([a] + path, data)
  {
  }

  /** From any session an undisturbed upload reaches the end, with a durable token that says so. */
  lemma {:induction false} RoundsToTheEnd(start: Local, data: seq<octet>, tag: Bytes) returns (path: seq<Local>)
    requires |start.session.parts| * PART_SIZE < |data| <= MAX_PARTS * PART_SIZE
    requires tag != [] && !start.disk.primary.Unreadable?
    ensures Rounds(path, data) && path[0] == start
    ensures Stuck(Read(path[|path| - 1].disk), data) <==> |data| % PART_SIZE != 0
    decreases |data| - |start.session.parts| * PART_SIZE
  {
    var next := NextRound(start, data, tag);
    NextRoundSends(start, data, tag);
    if next.session.offset < |data| {
      var rest := RoundsToTheEnd(next, data, tag);
      OneMoreRound(start, rest, data);
      path := [start] + rest;
    } else {
      OneMoreRound(start, [next], data);
      path := [start, next];
    }
  }

  /**
   The run that gets stuck, for every file S3 can hold whose last part is short: the first attempt creates an
   upload, sends every part and checkpoints each, and dies before it can complete. No other files get stuck.
   */
  lemma StuckIsReached(data: seq<octet>, id: Bytes, tag: Bytes) returns (path: seq<Local>)
    requires 0 < |data| <= MAX_PARTS * PART_SIZE && id != [] && tag != []
    ensures Rounds(path, data) && path[0].session == Session(id, |data|, 0, []) && path[0].stored == map[]
    ensures WriteStep(Disk(Missing, Missing), path[0].session, path[0].disk, Written)
    ensures Stuck(Read(path[|path| - 1].disk), data) <==> |data| % PART_SIZE != 0
  {
    var session := Session(id, |data|, 0, []);
    path := RoundsToTheEnd(Local(session, map[], Disk(Stored(1, session), Missing)), data, tag);
  }
}
