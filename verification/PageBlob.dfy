/**
 Azure Page Blob uploads: 512-byte aligned ranges written concurrently in any order, or one after the other
 with an offset checkpointed after each.
 */
module PageRanges {
  import opened ByteStrings
  import opened ArtifactFile

  const PAGE_SIZE: int := 512

  datatype Range = Range(offset: int, count: int)

  /** A blob client accepts page-aligned ranges inside the blob only. */
  predicate Aligned(r: Range) {
    0 <= r.offset && 0 < r.count && r.offset % PAGE_SIZE == 0 && r.count % PAGE_SIZE == 0
  }

  predicate Covers(r: Range, k: int) {
    r.offset <= k < r.offset + r.count
  }

  /** The ranges follow each other without gap or overlap and end at `size`. */
  ghost predicate Partition(ranges: seq<Range>, size: int) {
    && (forall i :: 0 <= i < |ranges| ==> Aligned(ranges[i]) && ranges[i].offset + ranges[i].count <= size)
    && (forall i, j :: 0 <= i < j < |ranges| ==> ranges[i].offset + ranges[i].count <= ranges[j].offset)
    && (forall k :: 0 <= k < size ==> Covered(ranges, k))
  }

  ghost predicate Covered(ranges: seq<Range>, k: int) {
    exists i :: 0 <= i < |ranges| && Covers(ranges[i], k)
  }

  lemma AppendRange(ranges: seq<Range>, offset: int, count: int)
    requires 0 <= offset && offset % PAGE_SIZE == 0 && 0 < count && count % PAGE_SIZE == 0
    requires Partition(ranges, offset)
    ensures Partition(ranges + [Range(offset, count)], offset + count)
  {
    var next := ranges + [Range(offset, count)];
    forall k | 0 <= k < offset + count ensures Covered(next, k) {
      if k < offset {
        assert Covered(ranges, k);
        var i :| 0 <= i < |ranges| && Covers(ranges[i], k);
        assert next[i] == ranges[i];
      } else {
        assert Covers(next[|ranges|], k);
      }
    }
  }

  /** The ranges uploadPageBlob hands to its workers. */
  method SplitRanges(size: int, chunk: int) returns (ranges: seq<Range>)
    requires 0 <= size && size % PAGE_SIZE == 0 && 0 < chunk && chunk % PAGE_SIZE == 0
    ensures Partition(ranges, size)
    ensures forall r :: r in ranges ==> r.count <= chunk
  {
    ranges := [];
    var offset := 0;
    while offset < size
      invariant 0 <= offset && offset % PAGE_SIZE == 0
      invariant Partition(ranges, Min(offset, size))
      invariant forall r :: r in ranges ==> r.count <= chunk
    {
      var r := Range(offset, Min(chunk, size - offset));
      AppendRange(ranges, offset, r.count);
      ranges := ranges + [r];
      offset := offset + chunk;
    }
  }

  /** UploadPages of one range of the file. */
  function WriteRange(blob: seq<octet>, r: Range, data: seq<octet>): (after: seq<octet>)
    requires 0 <= r.offset && 0 <= r.count && r.offset + r.count <= |data| == |blob|
    ensures |after| == |blob|
    ensures forall k :: 0 <= k < |blob| ==> after[k] == if Covers(r, k) then data[k] else blob[k]
  {
    blob[..r.offset] + data[r.offset..r.offset + r.count] + blob[r.offset + r.count..]
  }

  function WriteRanges(blob: seq<octet>, writes: seq<Range>, data: seq<octet>): (after: seq<octet>)
    requires |data| == |blob|
    requires forall r :: r in writes ==> 0 <= r.offset && 0 <= r.count && r.offset + r.count <= |data|
    ensures |after| == |blob|
  {
    if writes == [] then blob
    else WriteRange(WriteRanges(blob, writes[..|writes| - 1], data), writes[|writes| - 1], data)
  }

  lemma {:induction false} WrittenBytes(blob: seq<octet>, writes: seq<Range>, data: seq<octet>, k: int)
    requires |data| == |blob| && 0 <= k < |blob|
    requires forall r :: r in writes ==> 0 <= r.offset && 0 <= r.count && r.offset + r.count <= |data|
    ensures WriteRanges(blob, writes, data)[k]
      == if exists r :: r in writes && Covers(r, k) then data[k] else blob[k]
  {
    if writes != [] {
      var before, last := writes[..|writes| - 1], writes[|writes| - 1];
      WrittenBytes(blob, before, data, k);
      assert writes == before + [last];
    }
  }

  /**
   Whatever the order in which concurrent writes finish, and however often a range is sent again: once every
   range of a partition has been written, the blob is the file.
   */
  lemma AnyOrderWritesTheFile(blob: seq<octet>, ranges: seq<Range>, writes: seq<Range>, data: seq<octet>)
    requires |data| == |blob| && Partition(ranges, |data|)
    requires forall r :: r in writes <==> r in ranges
    ensures forall r :: r in writes ==> 0 <= r.offset && 0 <= r.count && r.offset + r.count <= |data|
    ensures WriteRanges(blob, writes, data) == data
  {
    forall r | r in writes ensures 0 <= r.offset && 0 <= r.count && r.offset + r.count <= |data| {
      var i :| 0 <= i < |ranges| && ranges[i] == r;
    }
    forall k | 0 <= k < |data| ensures WriteRanges(blob, writes, data)[k] == data[k] {
      WrittenBytes(blob, writes, data, k);
      assert Covered(ranges, k);
      var i :| 0 <= i < |ranges| && Covers(ranges[i], k);
      assert ranges[i] in writes;
    }
  }
}

module PageBlob {
  import opened Wrappers
  import opened ByteStrings
  import opened ArtifactFile
  import opened PageRanges
  import opened Checkpoint

  /** The resume token. */
  datatype Session = Session(size: int, offset: int)

  datatype AttemptEnd = Completed | Failed | Crashed

  datatype CreateReply = Created | AlreadyExists | CreateFailed

  function Zeros(n: nat): (z: seq<octet>)
    ensures |z| == n && forall k :: 0 <= k < n ==> z[k] == 0
  {
    seq(n, _ => 0)
  }

  /** The blob with some bytes replaced. */
  function Put(blob: seq<octet>, offset: int, bytes: seq<octet>): (after: seq<octet>)
    requires 0 <= offset <= offset + |bytes| <= |blob|
    ensures |after| == |blob|
  {
    blob[..offset] + bytes + blob[offset + |bytes|..]
  }

  /** The blob after the file's bytes from..upto were written over it. */
  function Overwritten(blob: seq<octet>, from: int, upto: int, data: seq<octet>): (after: seq<octet>)
    requires 0 <= from <= upto <= |data| && upto <= |blob|
    ensures |after| == |blob|
  {
    Put(blob, from, data[from..upto])
  }

  lemma OverwriteExtends(blob: seq<octet>, from: int, offset: int, upto: int, data: seq<octet>)
    requires 0 <= from <= offset <= upto <= |data| && upto <= |blob|
    ensures Put(Overwritten(blob, from, offset, data), offset, data[offset..upto])
      == Overwritten(blob, from, upto, data)
  {
    assert data[from..offset] + data[offset..upto] == data[from..upto];
  }

  lemma OverwrittenWhole(blob: seq<octet>, data: seq<octet>)
    requires |blob| <= |data|
    ensures Overwritten(blob, 0, |blob|, data) == data[..|blob|]
  {
  }

  /** The staging container, for the one blob name an uploader writes. */
  class Container {
    var blob: Option<seq<octet>>
    /** Some request has failed for no reason of its own. */
    var faulted: bool

    constructor ()
      ensures blob == None && !faulted
    {
      blob, faulted := None, false;
    }

    /** Does this request, or its reply, get lost? */
    method Fault() returns (fails: bool)
      modifies this`faulted
      ensures faulted == (old(faulted) || fails)
    {
      fails := *;
      faulted := faulted || fails;
    }

    /** Lifecycle management or an operator removes the staging blob. */
    method Vanish()
      modifies this`blob
      ensures blob == None || blob == old(blob)
    {
      if * {
        blob := None;
      }
    }

    /** Create makes a blob of zeros and refuses to replace one; an error reply can hide a created blob. */
    method Create(size: nat) returns (reply: CreateReply)
      modifies this
      ensures reply.AlreadyExists? <==> old(blob).Some?
      ensures reply.Created? ==> blob == Some(Zeros(size))
      ensures reply.AlreadyExists? ==> blob == old(blob)
      ensures reply.CreateFailed? ==> faulted
      ensures blob == old(blob) || (old(blob) == None && blob == Some(Zeros(size)))
      ensures old(faulted) ==> faulted
    {
      if blob.Some? {
        return AlreadyExists;
      }
      var fails := Fault();
      if fails {
        return CreateFailed;
      }
      blob := Some(Zeros(size));
      fails := Fault();
      return if fails then CreateFailed else Created;
    }

    method Delete() returns (ok: bool)
      modifies this
      ensures ok ==> blob == None
      ensures !ok ==> faulted
      ensures blob == None || blob == old(blob)
      ensures old(faulted) ==> faulted
    {
      var fails := Fault();
      if fails {
        return false;
      }
      blob := None;
      fails := Fault();
      return !fails;
    }

    /**
     UploadPages: an error reply does not mean that nothing was written, and the blob can have been removed
     since the request before this one.
     */
    method UploadPages(r: Range, bytes: seq<octet>) returns (ok: bool)
      requires Aligned(r) && |bytes| == r.count
      modifies this
      ensures blob == None || blob == old(blob)
        || (old(blob).Some? && r.offset + r.count <= |old(blob).value|
            && blob == Some(Put(old(blob).value, r.offset, bytes)))
      ensures ok ==> old(blob).Some? && r.offset + r.count <= |old(blob).value|
      ensures ok ==> blob == Some(Put(old(blob).value, r.offset, bytes))
      ensures !ok ==> faulted || old(blob).None? || r.offset + r.count > |old(blob).value|
      ensures old(faulted) ==> faulted
    {
      var fails := Fault();
      if fails {
        Vanish();
      }
      if blob.None? || r.offset + r.count > |blob.value| {
        return false;
      }
      fails := Fault();
      if fails {
        return false;
      }
      blob := Some(Put(blob.value, r.offset, bytes));
      fails := Fault();
      return !fails;
    }
  }

  /** recreatePageBlob: an empty blob of the right size in place of whatever was there. */
  method RecreatePageBlob(container: Container, size: nat) returns (ok: bool)
    modifies container
    ensures ok ==> container.blob == Some(Zeros(size))
    ensures !ok ==> container.faulted
    ensures old(container.faulted) ==> container.faulted
  {
    var reply := container.Create(size);
    if reply.AlreadyExists? {
      var deleted := container.Delete();
      if !deleted {
        return false;
      }
      reply := container.Create(size);
    }
    return reply.Created?;
  }

  ghost predicate AllWithin(writes: seq<Range>, size: int) {
    forall r :: r in writes ==> 0 <= r.offset && 0 <= r.count && r.offset + r.count <= size
  }

  /** Every range is still to be written or has been, and nothing else is. */
  ghost predicate InFlight(ranges: seq<Range>, pending: seq<Range>, order: seq<Range>) {
    && (forall r :: r in pending ==> r in ranges)
    && (forall r :: r in order ==> r in ranges)
    && (forall r :: r in ranges ==> r in pending || r in order)
  }

  lemma OneLanded(ranges: seq<Range>, pending: seq<Range>, order: seq<Range>, i: nat)
    requires i < |pending| && InFlight(ranges, pending, order)
    ensures InFlight(ranges, pending[..i] + pending[i + 1..], order + [pending[i]])
  {
    assert pending == pending[..i] + [pending[i]] + pending[i + 1..];
  }

  lemma OneMoreWritten(blob: seq<octet>, writes: seq<Range>, r: Range, data: seq<octet>)
    requires |data| == |blob| && AllWithin(writes, |data|) && AllWithin([r], |data|)
    ensures AllWithin(writes + [r], |data|)
    ensures WriteRanges(blob, writes + [r], data) == WriteRange(WriteRanges(blob, writes, data), r, data)
  {
    assert r in [r];
    assert (writes + [r])[..|writes|] == writes;
  }

  /** One worker: its range of the file is written, or the request failed. */
  method WriteOne(container: Container, r: Range, data: seq<octet>) returns (ok: bool)
    requires container.blob.Some? ==> |container.blob.value| == |data|
    requires Aligned(r) && r.offset + r.count <= |data|
    modifies container
    ensures container.blob.Some? ==> |container.blob.value| == |data|
    ensures ok ==> old(container.blob).Some? && container.blob == Some(WriteRange(old(container.blob).value, r, data))
    ensures !ok ==> container.faulted || old(container.blob).None?
    ensures old(container.faulted) ==> container.faulted
  {
    ok := container.UploadPages(r, data[r.offset..r.offset + r.count]);
  }

  /**
   uploadPageBlob: all ranges are handed to workers, which finish in any order; `order` is the order in which
   writes took effect. The first error makes the upload fail, but other writes may still land.
   */
  method UploadConcurrently(container: Container, data: seq<octet>, chunk: int)
    returns (ok: bool, ghost order: seq<Range>)
    requires 0 < chunk && chunk % PAGE_SIZE == 0
    modifies container
    ensures |data| == 0 || |data| % PAGE_SIZE != 0 ==> !ok && container.blob == old(container.blob)
    ensures ok ==> container.blob == Some(data)
    ensures !ok ==> container.faulted || |data| == 0 || |data| % PAGE_SIZE != 0
  {
    order := [];
    if |data| <= 0 || |data| % PAGE_SIZE != 0 {
      return false, order;
    }
    ok := RecreatePageBlob(container, |data|);
    if !ok {
      return;
    }
    var ranges := SplitRanges(|data|, chunk);
    ghost var empty := container.blob.value;
    var pending := ranges;
    while pending != []
      invariant container.blob.Some? ==> |container.blob.value| == |data|
      invariant InFlight(ranges, pending, order) && AllWithin(order, |data|)
      invariant ok ==> container.blob == Some(WriteRanges(empty, order, data))
      invariant !ok ==> container.faulted
      decreases |pending|
    {
      var n: nat := *;
      var i := n % |pending|;
      var r := pending[i];
      assert r in ranges;
      var sent := WriteOne(container, r, data);
      ok := ok && sent;
      OneLanded(ranges, pending, order, i);
      OneMoreWritten(empty, order, r, data);
      order := order + [r];
      pending := pending[..i] + pending[i + 1..];
    }
    if ok {
      AnyOrderWritesTheFile(empty, ranges, order, data);
    }
  }

  /** A token preparePageBlobSession accepts for a file of this size. */
  predicate Fits(s: Session, size: int) {
    s.size == size && 0 <= s.offset <= size && s.offset % PAGE_SIZE == 0
  }

  /**
   When a service that answers lets an attempt start: with a token that fits, from a blob of the right size or
   none; without a token, only if there is no blob at all.
   */
  predicate Resumable(requested: Option<Session>, blob: Option<seq<octet>>, size: nat) {
    if requested.None? then blob.None?
    else Fits(requested.value, size) && (blob.Some? ==> |blob.value| == size)
  }

  /**
   What preparing does: go on with the blob the token names, or create one where there is none, which can be
   lost on the way back; or nothing.
   */
  ghost predicate PrepareStep(requested: Option<Session>, before: Option<seq<octet>>, r: Option<Session>,
                              after: Option<seq<octet>>, size: nat) {
    || (r.Some? && r == requested && Fits(r.value, size) && after == before && before.Some? && |before.value| == size)
    || ((r == None || r == Some(Session(size, 0))) && before == None && after == Some(Zeros(size))
        && (requested.Some? ==> Fits(requested.value, size)))
    || (r == None && after == before)
  }

  /** preparePageBlobSession */
  method PreparePageBlobSession(container: Container, size: nat, requested: Option<Session>)
    returns (r: Option<Session>)
    requires size % PAGE_SIZE == 0
    modifies container
    ensures PrepareStep(requested, old(container.blob), r, container.blob, size)
    ensures !container.faulted ==> (r.Some? <==> Resumable(requested, old(container.blob), size))
  {
    if requested.Some? {
      var state := requested.value;
      if state.size != size || state.offset < 0 || state.offset > size || state.offset % PAGE_SIZE != 0 {
        return None;
      }
      var fails := container.Fault();
      if fails {
        return None;
      }
      if container.blob.Some? {
        if |container.blob.value| != size {
          return None;
        }
        return Some(state);
      }
    }
    var fails := container.Fault();
    if fails {
      return None;
    }
    var reply := container.Create(size);
    if !reply.Created? {
      return None;
    }
    return Some(Session(size, 0));
  }

  /** The blob is as expected, unless it has been removed. */
  predicate GoneOr(blob: Option<seq<octet>>, expected: seq<octet>) {
    blob == None || blob == Some(expected)
  }

  /** One round of a sequential upload: read the next range into the buffer and send it. */
  method SendRange(container: Container, body: Reader, buffer: array<octet>, offset: int, count: int,
                   ghost from: int, ghost before: seq<octet>) returns (ok: bool, ghost reached: int)
    requires Aligned(Range(offset, count)) && offset + count <= |before| && count <= buffer.Length
    requires 0 <= from <= offset == body.pos <= |body.data|
    requires container.blob == Some(Overwritten(before, from, offset, body.data))
    modifies container, body, buffer
    ensures reached == offset || reached == offset + count <= |body.data|
    ensures GoneOr(container.blob, Overwritten(before, from, reached, body.data))
    ensures ok ==> reached == offset + count == body.pos && container.blob.Some?
    ensures ok ==> container.blob == Some(Put(old(container.blob).value, offset, body.data[offset..offset + count]))
  {
    ok := body.ReadFull(buffer, count);
    reached := offset;
    if !ok {
      return;
    }
    ghost var held := container.blob;
    ok := container.UploadPages(Range(offset, count), buffer[..count]);
    OverwriteExtends(before, from, offset, offset + count, body.data);
    if container.blob != held || ok {
      reached := offset + count;
    }
  }

  /** UploadBlobStream: a fresh blob filled front to back, removed again unless it was completed. */
  method UploadBlobStream(container: Container, body: Reader, size: int, chunk: int) returns (ok: bool)
    requires 0 < chunk && chunk % PAGE_SIZE == 0 && body.pos == 0
    modifies container, body
    ensures size <= 0 || size % PAGE_SIZE != 0 ==> !ok && container.blob == old(container.blob)
    ensures ok ==> size <= |body.data| && container.blob == Some(body.data[..size])
  {
    if size <= 0 || size % PAGE_SIZE != 0 {
      return false;
    }
    ok := RecreatePageBlob(container, size);
    if !ok {
      return;
    }
    var buffer := new octet[chunk];
    var offset := 0;
    assert Overwritten(Zeros(size), 0, 0, body.data) == Zeros(size);
    while offset < size
      invariant 0 <= offset <= size && offset % PAGE_SIZE == 0 && body.pos == offset <= |body.data|
      invariant container.blob == Some(Overwritten(Zeros(size), 0, offset, body.data))
    {
      var count := Min(chunk, size - offset);
      var sent, reached := SendRange(container, body, buffer, offset, count, 0, Zeros(size));
      if !sent {
        var gone := container.Delete();
        return false;
      }
      offset := offset + count;
    }
    OverwrittenWhole(Zeros(size), body.data);
    return true;
  }

  /** What the token reads back as, once every write of this attempt went through WriteStep. */
  function Durable(token: CheckpointFile<Session>): Result<Option<Session>, ()>
    reads token
  {
    Read(token.OnDisk())
  }

  /** The checkpoint callback. */
  method SaveSession(token: CheckpointFile<Session>, state: Session) returns (ending: Ending)
    modifies token
    ensures WriteStep(old(token.OnDisk()), state, token.OnDisk(), ending)
    ensures Durable(token) == old(Durable(token)) || Durable(token) == Success(Some(state))
    ensures ending.Written? ==> Durable(token) == Success(Some(state))
  {
    ending := token.Write(state);
    WriteIsAtomic(old(token.OnDisk()), state, token.OnDisk(), ending);
  }

  /** The upload loop between two rounds: its session, the blob, and the token on disk. */
  datatype Local = Local(session: Session, blob: seq<octet>, disk: Disk<Session>)

  /** A round in which the next range was sent and the session checkpointed. */
  ghost predicate SendStep(a: Local, b: Local, chunk: int, data: seq<octet>)
    requires 0 < chunk
  {
    var offset, count := a.session.offset, Min(chunk, a.session.size - a.session.offset);
    && 0 <= offset < a.session.size && offset + count <= |data| == |a.blob|
    && b.session == a.session.(offset := offset + count)
    && b.blob == Put(a.blob, offset, data[offset..offset + count])
    && WriteStep(a.disk, b.session, b.disk, Written)
  }

  /** The range after a session that fits is made of pages and leads to one that fits. */
  lemma NextRange(state: Session, size: int, chunk: int)
    requires Fits(state, size) && state.offset < size && size % PAGE_SIZE == 0 && 0 < chunk && chunk % PAGE_SIZE == 0
    ensures var count := Min(chunk, size - state.offset);
      Aligned(Range(state.offset, count)) && Fits(state.(offset := state.offset + count), size)
  {
  }

  /** One round of uploadPageBlobResume. */
  method SendAndCheckpoint(container: Container, body: Reader, buffer: array<octet>, state: Session,
                           token: CheckpointFile<Session>, ghost from: int, ghost before: seq<octet>)
    returns (end: AttemptEnd, next: Session, ghost reached: int)
    requires 0 < buffer.Length && buffer.Length % PAGE_SIZE == 0 && |body.data| % PAGE_SIZE == 0
    requires Fits(state, |body.data|) && body.pos == state.offset < state.size && 0 <= from <= state.offset
    requires |before| == |body.data| && container.blob == Some(Overwritten(before, from, state.offset, body.data))
    requires Durable(token) == Success(Some(state))
    modifies container, body, buffer, token
    ensures state.offset <= reached <= |body.data|
    ensures GoneOr(container.blob, Overwritten(before, from, reached, body.data))
    ensures Durable(token) == Success(Some(state)) || Durable(token) == Success(Some(state.(offset := reached)))
    ensures end.Completed? ==>
      Fits(next, |body.data|) && state.offset < next.offset == reached == body.pos && container.blob.Some?
      && Durable(token) == Success(Some(next))
      && SendStep(Local(state, old(container.blob).value, old(token.OnDisk())),
                  Local(next, container.blob.value, token.OnDisk()), buffer.Length, body.data)
    ensures Fits(state.(offset := reached), |body.data|)
  {
    next := state;
    var count := Min(buffer.Length, state.size - state.offset);
    NextRange(state, |body.data|, buffer.Length);
    var sent;
    sent, reached := SendRange(container, body, buffer, state.offset, count, from, before);
    if * {
      return Crashed, next, reached;
    }
    if !sent {
      return Failed, next, reached;
    }
    next := state.(offset := state.offset + count);
    var ending := SaveSession(token, next);
    return (if ending.Written? then Completed else if ending.Cut? then Crashed else Failed), next, reached;
  }

  /**
   uploadPageBlobResume, from an accepted session. `reached` is how far the blob was overwritten; the durable
   offset never passes it, so a range sent but not checkpointed is sent again over itself.
   */
  method UploadPageBlobResume(container: Container, body: Reader, session: Session, token: CheckpointFile<Session>,
                              chunk: int) returns (end: AttemptEnd, ghost reached: int)
    requires 0 < chunk && chunk % PAGE_SIZE == 0 && |body.data| % PAGE_SIZE == 0
    requires Fits(session, |body.data|) && body.pos == session.offset
    requires container.blob.Some? && |container.blob.value| == |body.data|
    requires Durable(token) == Success(Some(session))
    modifies container, body, token
    ensures session.offset <= reached <= |body.data|
    ensures GoneOr(container.blob, Overwritten(old(container.blob).value, session.offset, reached, body.data))
    ensures Durable(token).Success? && Durable(token).value.Some?
    ensures var s := Durable(token).value.value; Fits(s, |body.data|) && session.offset <= s.offset <= reached
    ensures end.Completed? ==>
      container.blob.Some? && reached == |body.data| && Durable(token).value.value.offset == |body.data|
  {
    var buffer := new octet[chunk];
    var state := session;
    reached := session.offset;
    ghost var before := container.blob.value;
    assert Overwritten(before, reached, reached, body.data) == before;
    while state.offset < state.size
      invariant Fits(state, |body.data|) && session.offset <= state.offset == reached == body.pos
      invariant container.blob == Some(Overwritten(before, session.offset, reached, body.data))
      invariant Durable(token) == Success(Some(state))
      decreases state.size - state.offset
    {
      end, state, reached := SendAndCheckpoint(container, body, buffer, state, token, session.offset, before);
      if !end.Completed? {
        return;
      }
    }
    if * {
      return Crashed, reached;
    }
    return Completed, reached;
  }

  // ---------------------------------------------------------------------------------------------
  // What a completed upload leaves, in every run. A blob is created before its token says so, and until
  // then the token of the blob before it is in force.
  // ---------------------------------------------------------------------------------------------

  function Punched(data: seq<octet>, hole: nat): (blob: seq<octet>)
    requires hole <= |data|
    ensures |blob| == |data|
  {
    Zeros(hole) + data[hole..]
  }

  /** Up to `offset` the blob is the file with a hole. */
  ghost predicate HoldsUpTo(offset: int, blob: seq<octet>, data: seq<octet>, hole: nat) {
    0 <= offset <= |data| == |blob| ==> hole <= offset && blob[..offset] == Punched(data, hole)[..offset]
  }

  /** What there is outside the process: what the token reads back as, and the blob. */
  datatype Snap = Snap(durable: Result<Option<Session>, ()>, blob: Option<seq<octet>>)

  ghost function Now(container: Container, token: CheckpointFile<Session>): Snap
    reads container, token
  {
    Snap(Durable(token), container.blob)
  }

  /** The blob, when there is one, holds the punched file as far as the token says that it was sent. */
  ghost predicate Sound(s: Snap, data: seq<octet>, hole: nat) {
    s.durable.Success? && s.durable.value.Some? && s.blob.Some? ==>
      HoldsUpTo(s.durable.value.value.offset, s.blob.value, data, hole)
  }

  function DurableOffset(durable: Result<Option<Session>, ()>): nat {
    if durable.Success? && durable.value.Some? && durable.value.value.offset > 0 then durable.value.value.offset else 0
  }

  /** The hole in a blob that an attempt created: as long as the durable offset while there are only zeros. */
  function FreshHole(left: Snap, size: nat): nat {
    if left.blob == Some(Zeros(size)) then DurableOffset(left.durable) else 0
  }

  /** Overwriting a punched file from any offset that lies behind the hole keeps it one. */
  lemma ResumedBytes(blob: seq<octet>, from: int, reached: int, data: seq<octet>, hole: nat)
    requires 0 <= from <= reached <= |data| == |blob| && HoldsUpTo(from, blob, data, hole)
    ensures var after := Overwritten(blob, from, reached, data);
      after[..reached] == Punched(data, hole)[..reached] && (reached == |data| ==> after == Punched(data, hole))
  {
    var after := Overwritten(blob, from, reached, data);
    forall k | 0 <= k < reached ensures after[k] == Punched(data, hole)[k] {
      if k < from {
        assert blob[..from][k] == Punched(data, hole)[..from][k];
      }
    }
    if reached == |data| {
      assert after[..reached] == after && Punched(data, hole)[..reached] == Punched(data, hole);
    }
  }

  lemma HoldsForLess(offset: int, reached: int, blob: seq<octet>, data: seq<octet>, hole: nat)
    requires hole <= offset <= reached <= |data| == |blob| && blob[..reached] == Punched(data, hole)[..reached]
    ensures HoldsUpTo(offset, blob, data, hole)
  {
    assert blob[..reached][..offset] == blob[..offset];
    assert Punched(data, hole)[..reached][..offset] == Punched(data, hole)[..offset];
  }

  /**
   One attempt, from what it found to what it left. If it found a blob, what held of its hole still holds,
   whatever the hole; if it found none, the blob it may have created has a hole of its own, and a blob it
   completed has none. A hole of its own is not empty only in front of an untouched token, or harmless.
   */
  ghost predicate AttemptStep(found: Snap, end: AttemptEnd, left: Snap, data: seq<octet>) {
    && (found.blob.Some? ==> forall hole: nat :: Sound(found, data, hole) ==>
          Sound(left, data, hole) && (end.Completed? ==> hole <= |data| && left.blob == Some(Punched(data, hole))))
    && (found.blob.None? ==> FreshStep(found, end, left, data, FreshHole(left, |data|)))
    && (found.durable == Success(None) && found.blob.Some? ==> !end.Completed? && left == found)
    && (end.Completed? ==> DurableOffset(left.durable) == |data|)
  }

  ghost predicate FreshStep(found: Snap, end: AttemptEnd, left: Snap, data: seq<octet>, hole: nat) {
    && Sound(left, data, hole) && (end.Completed? ==> left.blob == Some(data))
    && (hole > 0 ==>
          (!end.Completed? && left.durable == found.durable) || (hole <= |data| && data[..hole] == Zeros(hole)))
  }

  /** What is known after the rounds of an attempt, however they ended. */
  lemma RoundsKeepSound(blob: seq<octet>, from: int, reached: int, data: seq<octet>, hole: nat, left: Snap)
    requires 0 <= from <= reached <= |data| == |blob| && HoldsUpTo(from, blob, data, hole)
    requires GoneOr(left.blob, Overwritten(blob, from, reached, data))
    requires from <= DurableOffset(left.durable) <= reached
    ensures Sound(left, data, hole)
    ensures left.blob.Some? && reached == |data| ==> left.blob == Some(Punched(data, hole))
  {
    ResumedBytes(blob, from, reached, data, hole);
    HoldsForLess(DurableOffset(left.durable), reached, Overwritten(blob, from, reached, data), data, hole);
  }

  /** The state after an accepted preparation, and how far its rounds got. */
  ghost predicate RoundsFrom(mid: Snap, end: AttemptEnd, left: Snap, data: seq<octet>, reached: int) {
    var from := DurableOffset(mid.durable);
    && mid.durable.Success? && mid.durable.value.Some? && mid.durable.value.value.offset == from
    && mid.blob.Some? && from <= reached <= |data| == |mid.blob.value|
    && GoneOr(left.blob, Overwritten(mid.blob.value, from, reached, data))
    && from <= DurableOffset(left.durable) <= reached
    && (end.Completed? ==> left.blob.Some? && DurableOffset(left.durable) == |data|)
  }

  lemma FoundBlob(found: Snap, end: AttemptEnd, left: Snap, data: seq<octet>, reached: int)
    requires RoundsFrom(found, end, left, data, reached)
    ensures AttemptStep(found, end, left, data)
  {
    forall hole: nat | Sound(found, data, hole)
      ensures Sound(left, data, hole) && (end.Completed? ==> hole <= |data| && left.blob == Some(Punched(data, hole)))
    {
      RoundsKeepSound(found.blob.value, DurableOffset(found.durable), reached, data, hole, left);
    }
  }

  lemma CreatedBlob(found: Snap, mid: Snap, end: AttemptEnd, left: Snap, data: seq<octet>, reached: int)
    requires found.blob == None && RoundsFrom(mid, end, left, data, reached)
    requires mid.blob == Some(Zeros(|data|)) && DurableOffset(mid.durable) == 0
    ensures AttemptStep(found, end, left, data)
  {
    assert Punched(data, 0) == data;
    RoundsKeepSound(Zeros(|data|), 0, reached, data, 0, left);
    ZerosAreSound(left, data);
  }

  /** A blob of zeros has a hole up to the durable offset; if it is sound without one, the file has zeros there. */
  lemma ZerosAreSound(s: Snap, data: seq<octet>)
    requires s.blob == Some(Zeros(|data|))  ==> DurableOffset(s.durable) <= |data|
    ensures s.blob == Some(Zeros(|data|)) ==> Sound(s, data, DurableOffset(s.durable))
    ensures s.blob == Some(Zeros(|data|)) && Sound(s, data, 0) ==>
      data[..DurableOffset(s.durable)] == Zeros(DurableOffset(s.durable))
  {
    var offset := DurableOffset(s.durable);
    if s.blob == Some(Zeros(|data|)) {
      assert Zeros(|data|)[..offset] == Zeros(offset) == Punched(data, offset)[..offset];
      assert Punched(data, 0) == data;
    }
  }

  /** An attempt that ended before its rounds: nothing happened, or a blob was created. */
  lemma EndedEarly(found: Snap, end: AttemptEnd, left: Snap, data: seq<octet>)
    requires !end.Completed? && PreparedStep(found, left, |data|)
    ensures AttemptStep(found, end, left, data)
  {
    if DurableOffset(left.durable) <= |data| {
      ZerosAreSound(left, data);
    }
  }

  /** Preparing keeps everything, or creates a blob where there was none, and may then checkpoint offset 0. */
  ghost predicate PreparedStep(found: Snap, left: Snap, size: nat) {
    || left == found
    || (found.blob == None && left.blob == Some(Zeros(size))
        && (left.durable == found.durable || left.durable == Success(Some(Session(size, 0)))))
  }

  /** PrepareUpload and the checkpoint after it. */
  method PrepareUpload(container: Container, token: CheckpointFile<Session>, size: nat)
    returns (end: AttemptEnd, session: Session)
    requires size % PAGE_SIZE == 0
    modifies container, token
    ensures PreparedStep(old(Now(container, token)), Now(container, token), size)
    ensures end.Completed? ==> Fits(session, size) && Durable(token) == Success(Some(session))
    ensures end.Completed? ==> container.blob.Some? && |container.blob.value| == size
    ensures end.Completed? && old(container.blob) == None ==> session.offset == 0
    ensures old(Durable(token)) == Success(None) && old(container.blob).Some? ==> !end.Completed?
  {
    session := Session(size, 0);
    var requested := Read(token.OnDisk());
    if requested.Failure? {
      return Failed, session;
    }
    var accepted := PreparePageBlobSession(container, size, requested.value);
    if * {
      return Crashed, session;
    }
    if accepted.None? {
      return Failed, session;
    }
    session := accepted.value;
    var ending := SaveSession(token, session);
    return (if ending.Written? then Completed else if ending.Cut? then Crashed else Failed), session;
  }

  /** UploadResumable: one attempt, whatever the previous ones left. */
  method UploadResumable(container: Container, data: seq<octet>, token: CheckpointFile<Session>, chunk: int)
    returns (end: AttemptEnd)
    requires 0 < chunk && chunk % PAGE_SIZE == 0
    modifies container, token
    ensures AttemptStep(old(Now(container, token)), end, Now(container, token), data)
  {
    ghost var found := Now(container, token);
    if |data| == 0 || |data| % PAGE_SIZE != 0 {
      EndedEarly(found, Failed, found, data);
      return Failed;
    }
    var session;
    end, session := PrepareUpload(container, token, |data|);
    if !end.Completed? {
      EndedEarly(found, end, Now(container, token), data);
      return;
    }
    ghost var mid := Now(container, token);
    var file := new Reader(data);
    file.Seek(session.offset);
    ghost var reached;
    end, reached := UploadPageBlobResume(container, file, session, token, chunk);
    if found.blob.Some? {
      FoundBlob(found, end, Now(container, token), data, reached);
    } else {
      CreatedBlob(found, mid, end, Now(container, token), data, reached);
    }
  }

  /** A hole of x bytes is harmless for the files that start with x zeros, and for no others. */
  lemma ZerosLoseThePrefix(data: seq<octet>, x: nat)
    requires x <= |data|
    ensures Punched(data, x) == data <==> data[..x] == Zeros(x)
  {
    assert data[..x] + data[x..] == data;
    assert Punched(data, x)[..x] == Zeros(x);
  }

  /** One attempt of a run. */
  datatype Attempt = Attempt(found: Snap, end: AttemptEnd, left: Snap)

  /** Nothing happened in between, except that the blob can have been removed. */
  ghost predicate Between(left: Snap, found: Snap) {
    found == left || found == left.(blob := None)
  }

  const NOTHING_YET := Snap(Success(None), None)

  function Last(run: seq<Attempt>): Snap {
    if run == [] then NOTHING_YET else run[|run| - 1].left
  }

  /** Attempts one after the other, from an empty container and no token. */
  ghost predicate IsRun(run: seq<Attempt>, data: seq<octet>) {
    forall i :: 0 <= i < |run| ==>
      Between(Last(run[..i]), run[i].found) && AttemptStep(run[i].found, run[i].end, run[i].left, data)
  }

  /** Where the file starts in the blob a run has left; before that the blob is zeros. */
  function Hole(run: seq<Attempt>, size: nat): nat {
    if run == [] then 0
    else
      var last := run[|run| - 1];
      if last.found.blob.None? then FreshHole(last.left, size) else Hole(run[..|run| - 1], size)
  }

  lemma RunOfOneMore(run: seq<Attempt>, last: Attempt, data: seq<octet>)
    requires IsRun(run, data) && Between(Last(run), last.found) && AttemptStep(last.found, last.end, last.left, data)
    ensures IsRun(run + [last], data)
  {
    var more := run + [last];
    forall i | 0 <= i < |more|
      ensures Between(Last(more[..i]), more[i].found) && AttemptStep(more[i].found, more[i].end, more[i].left, data)
    {
      assert more[..i] == run[..i];
      assert i < |run| ==> more[i] == run[i];
    }
    assert run[..|run|] == run;
  }

  lemma PrefixIsRun(run: seq<Attempt>, data: seq<octet>, n: nat)
    requires n <= |run| && IsRun(run, data)
    ensures IsRun(run[..n], data)
  {
    forall i | 0 <= i < n
      ensures Between(Last(run[..n][..i]), run[i].found) && AttemptStep(run[i].found, run[i].end, run[i].left, data)
    {
      assert run[..n][..i] == run[..i];
    }
  }

  ghost predicate LeavesPunched(blob: Option<seq<octet>>, data: seq<octet>, hole: nat) {
    && hole <= |data| && blob == Some(Punched(data, hole))
    && (blob == Some(data) <==> data[..hole] == Zeros(hole))
  }

  /**
   In every run, an attempt that completes leaves the file with the hole of the run, so it leaves the file
   exactly when the file has zeros there.
   */
  lemma {:induction false} RunLeavesPunched(run: seq<Attempt>, data: seq<octet>)
    requires IsRun(run, data)
    ensures Sound(Last(run), data, Hole(run, |data|))
    ensures run != [] && run[|run| - 1].end.Completed? ==> LeavesPunched(Last(run).blob, data, Hole(run, |data|))
  {
    if run != [] {
      var last := run[|run| - 1];
      PrefixIsRun(run, data, |run| - 1);
      RunLeavesPunched(run[..|run| - 1], data);
      LastLeavesPunched(Last(run[..|run| - 1]), last, data, Hole(run[..|run| - 1], |data|), Hole(run, |data|));
    }
  }

  lemma LastLeavesPunched(before: Snap, last: Attempt, data: seq<octet>, hole: nat, now: nat)
    requires Sound(before, data, hole) && Between(before, last.found)
    requires AttemptStep(last.found, last.end, last.left, data)
    requires now == if last.found.blob.None? then FreshHole(last.left, |data|) else hole
    ensures Sound(last.left, data, now)
    ensures last.end.Completed? ==> LeavesPunched(last.left.blob, data, now)
  {
    if last.end.Completed? {
      assert now <= |data|;
      ZerosLoseThePrefix(data, now);
    }
  }

  /** If attempt i completed, it left the file with the hole of the run up to it. */
  ghost predicate LeftPunched(run: seq<Attempt>, i: nat, data: seq<octet>)
    requires i < |run|
  {
    run[i].end.Completed? ==> LeavesPunched(run[i].left.blob, data, Hole(run[..i + 1], |data|))
  }

  ghost predicate AllLeftPunched(run: seq<Attempt>, data: seq<octet>) {
    forall i :: 0 <= i < |run| ==> LeftPunched(run, i, data)
  }

  lemma EachLeavesPunched(run: seq<Attempt>, i: nat, data: seq<octet>)
    requires i < |run| && IsRun(run, data)
    ensures LeftPunched(run, i, data)
  {
    var prefix := run[..i + 1];
    PrefixIsRun(run, data, i + 1);
    RunLeavesPunched(prefix, data);
    assert prefix[|prefix| - 1] == run[i];
  }

  /** A hole comes only from an attempt that created the blob, left the token as it was and did not complete. */
  lemma {:induction false} HoleHasASource(run: seq<Attempt>, data: seq<octet>)
    requires IsRun(run, data) && 0 < Hole(run, |data|)
    ensures (Hole(run, |data|) <= |data| && data[..Hole(run, |data|)] == Zeros(Hole(run, |data|)))
      || exists i :: 0 <= i < |run| && IsSource(run[i], Hole(run, |data|), |data|)
  {
    var last := run[|run| - 1];
    if last.found.blob.None? {
      assert IsSource(last, Hole(run, |data|), |data|) || data[..Hole(run, |data|)] == Zeros(Hole(run, |data|));
    } else {
      PrefixIsRun(run, data, |run| - 1);
      HoleHasASource(run[..|run| - 1], data);
    }
  }

  /** The attempt ended between creating a blob and its checkpoint, with the durable offset at `hole`. */
  ghost predicate IsSource(a: Attempt, hole: nat, size: nat) {
    && a.found.blob == None && a.left.blob == Some(Zeros(size)) && !a.end.Completed?
    && a.left.durable == a.found.durable && DurableOffset(a.found.durable) == hole
  }

  /**
   Any number of attempts, each cut off anywhere, with the blob disappearing between any two requests: they are
   a run, from the empty container to what is there now, so each that completes leaves the file with the
   hole of the run up to it.
   */
  method Attempts(container: Container, data: seq<octet>, token: CheckpointFile<Session>, chunk: int, n: nat)
    returns (ends: seq<AttemptEnd>, ghost run: seq<Attempt>)
    requires 0 < chunk && chunk % PAGE_SIZE == 0
    requires container.blob == None && token.OnDisk() == Disk(Missing, Missing)
    modifies container, token
    ensures |ends| == |run| == n && forall i :: 0 <= i < n ==> run[i].end == ends[i]
    ensures IsRun(run, data) && Last(run) == Now(container, token)
    ensures Sound(Now(container, token), data, Hole(run, |data|))
    ensures AllLeftPunched(run, data)
  {
    ends, run := [], [];
    for i := 0 to n
      invariant |ends| == |run| == i && forall k :: 0 <= k < i ==> run[k].end == ends[k]
      invariant IsRun(run, data) && Last(run) == Now(container, token)
    {
      container.Vanish();
      ghost var found := Now(container, token);
      var end := UploadResumable(container, data, token, chunk);
      ghost var attempt := Attempt(found, end, Now(container, token));
      RunOfOneMore(run, attempt, data);
      ends, run := ends + [end], run + [attempt];
    }
    RunLeavesPunched(run, data);
    forall i | 0 <= i < n ensures LeftPunched(run, i, data) {
      EachLeavesPunched(run, i, data);
    }
  }

  /** A path of rounds of one attempt. */
  ghost predicate Rounds(path: seq<Local>, chunk: int, data: seq<octet>)
    requires 0 < chunk
  {
    path != [] && forall i :: 0 <= i < |path| - 1 ==> SendStep(path[i], path[i + 1], chunk, data)
  }

  /** The round in which nothing fails. */
  function NextRound(a: Local, chunk: int, data: seq<octet>): Local
    requires 0 < chunk && 0 <= a.session.offset < a.session.size == |data| == |a.blob|
  {
    var offset, count := a.session.offset, Min(chunk, |data| - a.session.offset);
    var session := a.session.(offset := offset + count);
    var backup := if Valid(a.disk.primary) then a.disk.primary else a.disk.backup;
    Local(session, Put(a.blob, offset, data[offset..offset + count]), Disk(Stored(1, session), backup))
  }

  lemma NextRoundSends(a: Local, chunk: int, data: seq<octet>)
    requires 0 < chunk && 0 <= a.session.offset < a.session.size == |data| == |a.blob|
    requires !a.disk.primary.Unreadable?
    ensures SendStep(a, NextRound(a, chunk, data), chunk, data)
  {
  }

  lemma OneMoreRound(a: Local, path: seq<Local>, chunk: int, data: seq<octet>)
    requires 0 < chunk && Rounds(path, chunk, data) && SendStep(a, path[0], chunk, data)
    ensures Rounds([a] + path, chunk, data)
  {
  }

  /** From any session an undisturbed upload reaches the end. */
  lemma {:induction false} RoundsToTheEnd(start: Local, chunk: int, data: seq<octet>) returns (path: seq<Local>)
    requires 0 < chunk && start.session.size == |data| == |start.blob| && 0 <= start.session.offset <= |data|
    requires !start.disk.primary.Unreadable? && Read(start.disk) == Success(Some(start.session))
    ensures Rounds(path, chunk, data) && path[0] == start
    ensures path[|path| - 1].session == start.session.(offset := |data|)
    ensures Read(path[|path| - 1].disk) == Success(Some(path[|path| - 1].session))
    ensures path[|path| - 1].blob == Overwritten(start.blob, start.session.offset, |data|, data)
    decreases |data| - start.session.offset
  {
    var offset := start.session.offset;
    if offset == |data| {
      assert Overwritten(start.blob, offset, offset, data) == start.blob;
      return [start];
    }
    var next := NextRound(start, chunk, data);
    NextRoundSends(start, chunk, data);
    var rest := RoundsToTheEnd(next, chunk, data);
    OneMoreRound(start, rest, chunk, data);
    OverwriteTwice(start.blob, offset, next.session.offset, data);
    path := [start] + rest;
  }

  lemma OverwriteTwice(blob: seq<octet>, from: int, offset: int, data: seq<octet>)
    requires 0 <= from <= offset <= |data| == |blob|
    ensures Overwritten(Put(blob, from, data[from..offset]), offset, |data|, data)
      == Overwritten(blob, from, |data|, data)
  {
    assert data[from..offset] + data[offset..] == data[from..];
  }

  /**
   The run that punches a hole, for every file and chunk size: attempt 1 creates the blob, sends the first
   chunk, checkpoints it and dies; the blob is removed; attempt 2 creates it again and dies before its
   checkpoint; attempt 3 finds a blob of the right size, goes on behind the first chunk, and completes. Every
   step of it is one the methods are proved to take.
   */
  lemma HoleIsReached(data: seq<octet>, chunk: int)
    returns (first: Local, sent: Local, path: seq<Local>, run: seq<Attempt>)
    requires 0 < chunk && chunk % PAGE_SIZE == 0 && 0 < |data| && |data| % PAGE_SIZE == 0
    ensures var n := |data|;
      && PrepareStep(None, None, Some(first.session), Some(first.blob), n)
      && WriteStep(Disk(Missing, Missing), first.session, first.disk, Written)
      && SendStep(first, sent, chunk, data)
      && PrepareStep(Some(sent.session), None, Some(Session(n, 0)), Some(Zeros(n)), n)
      && Rounds(path, chunk, data) && path[0].blob == Zeros(n)
      && PrepareStep(Some(sent.session), Some(Zeros(n)), Some(path[0].session), Some(Zeros(n)), n)
      && WriteStep(sent.disk, path[0].session, path[0].disk, Written)
      && path[|path| - 1].session.offset == n
      && path[|path| - 1].blob == Punched(data, Min(chunk, n))
    ensures IsRun(run, data) && |run| == 3 && run[2].end.Completed? && Hole(run, |data|) == Min(chunk, |data|)
    ensures run[0].left == Outside(sent)
    ensures run[1] == Attempt(run[0].left.(blob := None), Crashed, run[0].left.(blob := Some(Zeros(|data|))))
    ensures run[2].found == run[1].left && run[2].left == Outside(path[|path| - 1])
  {
    var n, k := |data|, Min(chunk, |data|);
    first := Local(Session(n, 0), Zeros(n), Disk(Stored(1, Session(n, 0)), Missing));
    sent := Local(Session(n, k), Put(Zeros(n), 0, data[0..k]), Disk(Stored(1, Session(n, k)), first.disk.primary));
    path := RoundsToTheEnd(Local(sent.session, Zeros(n), Disk(sent.disk.primary, sent.disk.primary)), chunk, data);
    assert Overwritten(Zeros(n), k, n, data) == Punched(data, k);
    run := HoleRun(data, k, sent, path[|path| - 1]);
  }

  /** What is left of the upload loop when the process dies. */
  function Outside(a: Local): Snap {
    Snap(Read(a.disk), Some(a.blob))
  }

  lemma HoleRun(data: seq<octet>, k: int, sent: Local, done: Local) returns (run: seq<Attempt>)
    requires 0 < k <= |data|
    requires Outside(sent) == Snap(Success(Some(Session(|data|, k))), Some(Overwritten(Zeros(|data|), 0, k, data)))
    requires Outside(done)
      == Snap(Success(Some(Session(|data|, |data|))), Some(Overwritten(Zeros(|data|), k, |data|, data)))
    ensures IsRun(run, data) && |run| == 3 && run[2].end.Completed? && Hole(run, |data|) == k
    ensures run[0].left == Outside(sent)
    ensures run[1] == Attempt(run[0].left.(blob := None), Crashed, run[0].left.(blob := Some(Zeros(|data|))))
    ensures run[2].found == run[1].left && run[2].left == Outside(done)
  {
    var a := Attempt(NOTHING_YET, Crashed, Outside(sent));
    CreatedBlob(NOTHING_YET, Snap(Success(Some(Session(|data|, 0))), Some(Zeros(|data|))), Crashed, a.left, data, k);
    var b := Attempt(a.left.(blob := None), Crashed, a.left.(blob := Some(Zeros(|data|))));
    EndedEarly(b.found, Crashed, b.left, data);
    var c := Attempt(b.left, Completed, Outside(done));
    FoundBlob(c.found, Completed, c.left, data, |data|);
    var none: seq<Attempt> := [];
    RunOfOneMore(none, a, data);
    RunOfOneMore(none + [a], b, data);
    RunOfOneMore(none + [a] + [b], c, data);
    run := none + [a] + [b] + [c];
    HoleOfOneMore(none + [a], b, |data|);
    HoleOfOneMore(none + [a] + [b], c, |data|);
  }

  lemma HoleOfOneMore(run: seq<Attempt>, last: Attempt, size: nat)
    ensures Hole(run + [last], size) == if last.found.blob.None? then FreshHole(last.left, size) else Hole(run, size)
  {
    assert (run + [last])[..|run|] == run;
  }
}
