/**
 Cloud Storage resumable uploads: the committed offset is asked for before each attempt and taken from the
 Range header of each 308 reply within it. Ranges are written as in section 14.4 of RFC 9110.
 */
module GcsRange {
  import opened Wrappers
  import opened ByteStrings
  import opened Decimal

  /** gcsRangeOffset */
  function RangeOffset(header: Bytes): (offset: int)
    ensures 0 <= offset <= MAX_INT64 || offset == MIN_INT64
  {
    var parts := Split(TrimSpace(header), '-');
    if |parts| != 2 then 0
    else
      var end := Atoi(parts[1]);
      if end.None? || end.value < 0 then 0 else Wrap64(end.value + 1)
  }

  const FROM_START: Bytes := "bytes=0"

  /** The Range header of a server that has committed n bytes: none at all before the first one. */
  function RangeHeader(n: nat): Bytes {
    if n == 0 then [] else FROM_START + ['-'] + Digits(n - 1)
  }

  lemma FromStartHasNoDash()
    ensures FROM_START != [] && !IsSpace(FROM_START[0]) && '-' !in FROM_START
  {
  }

  lemma OffsetOfParts(prefix: Bytes, n: nat)
    requires prefix != [] && !IsSpace(prefix[0]) && '-' !in prefix && n <= MAX_INT64
    ensures RangeOffset(prefix + ['-'] + Digits(n)) == Wrap64(n + 1)
  {
    var header := prefix + ['-'] + Digits(n);
    assert TrimSpace(header) == header by {
      assert IsDigit(header[|header| - 1]);
      TrimSpaceFixes(header);
    }
    SplitAt(prefix, '-', Digits(n));
    assert Itoa(n) == Digits(n);
    AtoiOfItoa(n);
  }

  lemma NoHeaderOffset()
    ensures RangeOffset(RangeHeader(0)) == 0
  {
  }

  lemma SomeHeaderOffset(n: nat)
    requires 0 < n <= MAX_INT64 + 1
    ensures RangeOffset(RangeHeader(n)) == Wrap64(n)
  {
    FromStartHasNoDash();
    OffsetOfParts(FROM_START, n - 1);
  }

  /** Every offset a server can state is read back, modulo 64 bits: only the largest position wraps around. */
  lemma OffsetOfHeader(n: nat)
    requires n <= MAX_INT64 + 1
    ensures RangeOffset(RangeHeader(n)) == Wrap64(n)
  {
    if n == 0 {
      NoHeaderOffset();
    } else {
      SomeHeaderOffset(n);
    }
  }

  /** A header moves the offset exactly when it holds one dash and a non-negative 64-bit number after it. */
  lemma OffsetIffOneRange(header: Bytes)
    ensures RangeOffset(header) != 0 <==> exists first, last :: OneRange(TrimSpace(header), first, last)
  {
    var text := TrimSpace(header);
    var parts := Split(text, '-');
    if RangeOffset(header) != 0 {
      assert parts[0] in parts && parts[1] in parts;
      assert Join(parts[1..], '-') == parts[1];
      assert OneRange(text, parts[0], parts[1]);
    }
    forall first, last | OneRange(text, first, last) ensures RangeOffset(header) != 0 {
      SplitAt(first, '-', last);
    }
  }

  predicate OneRange(text: Bytes, first: Bytes, last: Bytes) {
    text == first + ['-'] + last && '-' !in first && '-' !in last && Atoi(last).Some? && Atoi(last).value >= 0
  }

  lemma WrapIsIdentity(x: int)
    ensures Wrap64(x) == x <==> MIN_INT64 <= x <= MAX_INT64
  {
  }

  lemma HonestOffset(n: nat)
    requires n <= MAX_INT64
    ensures RangeOffset(RangeHeader(n)) == n
  {
    OffsetOfHeader(n);
    WrapIsIdentity(n);
  }
}

module GcsResume {
  import opened Wrappers
  import opened ByteStrings
  import opened ArtifactFile
  import opened Checkpoint
  import opened GcsRange

  const CHUNK_SIZE: int := 16 * 1024 * 1024

  datatype Session = Session(uri: Bytes, size: int, offset: int)

  datatype AttemptEnd = Completed | Failed | Crashed

  /** What a client sees of a request: no reply at all, or a status code and the Range header. */
  datatype Reply = NoReply | Status(code: int, range: Bytes)

  predicate Success2xx(reply: Reply) {
    reply.Status? && 200 <= reply.code < 300
  }

  predicate Incomplete(reply: Reply) {
    reply.Status? && reply.code == 308
  }

  predicate Gone(reply: Reply) {
    reply.Status? && (reply.code == 404 || reply.code == 410)
  }

  // ---------------------------------------------------------------------------------------------
  // Where the bytes of a session came from
  // ---------------------------------------------------------------------------------------------

  /** `count` bytes that were read at position `from` of the file. */
  datatype Piece = Piece(from: nat, count: nat)

  ghost predicate WithinFile(pieces: seq<Piece>, size: nat) {
    forall i :: 0 <= i < |pieces| ==> pieces[i].from + pieces[i].count <= size
  }

  function Length(pieces: seq<Piece>): nat {
    if pieces == [] then 0 else Length(pieces[..|pieces| - 1]) + pieces[|pieces| - 1].count
  }

  /** The pieces one after the other. */
  function Gather(data: seq<octet>, pieces: seq<Piece>): (bytes: seq<octet>)
    requires WithinFile(pieces, |data|)
    ensures |bytes| == Length(pieces)
  {
    if pieces == [] then []
    else
      var last := pieces[|pieces| - 1];
      Gather(data, pieces[..|pieces| - 1]) + data[last.from..last.from + last.count]
  }

  /** Piece i was read from the position it was put at. */
  predicate Straight(pieces: seq<Piece>, i: nat)
    requires i < |pieces|
  {
    pieces[i].from == Length(pieces[..i])
  }

  ghost predicate AllStraight(pieces: seq<Piece>) {
    forall i :: 0 <= i < |pieces| ==> Straight(pieces, i)
  }

  /** Piece i holds the bytes that belong where it was put. */
  predicate Right(data: seq<octet>, pieces: seq<Piece>, i: nat)
    requires i < |pieces|
  {
    Belongs(data, pieces[i], Length(pieces[..i]))
  }

  predicate Belongs(data: seq<octet>, p: Piece, at: nat) {
    && p.from + p.count <= |data| && at + p.count <= |data|
    && data[p.from..p.from + p.count] == data[at..at + p.count]
  }

  ghost predicate AllRight(data: seq<octet>, pieces: seq<Piece>) {
    forall i :: 0 <= i < |pieces| ==> Right(data, pieces, i)
  }

  lemma LengthOfOneMore(pieces: seq<Piece>, p: Piece)
    ensures Length(pieces + [p]) == Length(pieces) + p.count
    ensures AllStraight(pieces + [p]) <==> AllStraight(pieces) && p.from == Length(pieces)
  {
    var more := pieces + [p];
    assert more[..|pieces|] == pieces;
    assert Straight(more, |pieces|) <==> p.from == Length(pieces);
    forall i | 0 <= i < |pieces| ensures Straight(more, i) <==> Straight(pieces, i) {
      assert more[..i] == pieces[..i];
    }
  }

  lemma RightOfOneMore(data: seq<octet>, pieces: seq<Piece>, p: Piece)
    ensures AllRight(data, pieces + [p]) <==> AllRight(data, pieces) && Right(data, pieces + [p], |pieces|)
  {
    var more := pieces + [p];
    forall i | 0 <= i < |pieces| ensures Right(data, more, i) <==> Right(data, pieces, i) {
      assert more[..i] == pieces[..i];
    }
  }

  lemma GatherOfOneMore(data: seq<octet>, pieces: seq<Piece>, p: Piece)
    requires WithinFile(pieces, |data|) && p.from + p.count <= |data|
    ensures WithinFile(pieces + [p], |data|)
    ensures Gather(data, pieces + [p]) == Gather(data, pieces) + data[p.from..p.from + p.count]
  {
    var more := pieces + [p];
    assert more[..|pieces|] == pieces && more[|pieces|] == p;
  }

  predicate Starts(data: seq<octet>, bytes: seq<octet>) {
    |bytes| <= |data| && bytes == data[..|bytes|]
  }

  /** Bytes put behind a prefix of the file make a prefix exactly when they are the ones that belong there. */
  lemma PrefixGrowsIff(data: seq<octet>, at: nat, from: nat, count: nat)
    requires at + count <= |data| && from + count <= |data|
    ensures Starts(data, data[..at] + data[from..from + count]) <==> data[from..from + count] == data[at..at + count]
  {
    var bytes := data[..at] + data[from..from + count];
    assert bytes[at..] == data[from..from + count];
    assert data[..at + count][at..] == data[at..at + count];
    assert data[..at] + data[at..at + count] == data[..at + count];
  }

  /** What was gathered is a prefix of the file exactly when every piece holds the bytes that belong there. */
  lemma {:induction false} PrefixIffAllRight(data: seq<octet>, pieces: seq<Piece>)
    requires WithinFile(pieces, |data|) && Length(pieces) <= |data|
    ensures Starts(data, Gather(data, pieces)) <==> AllRight(data, pieces)
  {
    if pieces != [] {
      var n := |pieces| - 1;
      assert pieces[..n] + [pieces[n]] == pieces;
      PrefixIffAllRight(data, pieces[..n]);
      RightOfOneMore(data, pieces[..n], pieces[n]);
      GatherOfOneMore(data, pieces[..n], pieces[n]);
      RightAtTheEnd(data, pieces[..n], pieces[n]);
      ExtendedPrefixIff(data, Gather(data, pieces[..n]), pieces[n], Gather(data, pieces));
    }
  }

  lemma RightAtTheEnd(data: seq<octet>, before: seq<Piece>, p: Piece)
    ensures Right(data, before + [p], |before|) <==> Belongs(data, p, Length(before))
  {
    var more := before + [p];
    assert more[..|before|] == before && more[|before|] == p;
  }

  lemma ExtendedPrefixIff(data: seq<octet>, held: seq<octet>, p: Piece, now: seq<octet>)
    requires |held| + p.count <= |data| && p.from + p.count <= |data| && now == held + data[p.from..p.from + p.count]
    ensures Starts(data, now) <==> Starts(data, held) && Belongs(data, p, |held|)
  {
    if Starts(data, held) {
      PrefixGrowsIff(data, |held|, p.from, p.count);
    }
    if Starts(data, now) {
      PrefixOfPrefix(held, data[p.from..p.from + p.count], data);
    }
  }

  lemma PrefixOfPrefix(held: seq<octet>, more: seq<octet>, data: seq<octet>)
    requires Starts(data, held + more)
    ensures Starts(data, held)
  {
    assert held == (held + more)[..|held|];
  }

  lemma StraightIsRight(data: seq<octet>, pieces: seq<Piece>)
    requires WithinFile(pieces, |data|) && AllStraight(pieces)
    ensures AllRight(data, pieces)
  {
    forall i | 0 <= i < |pieces| ensures Right(data, pieces, i) {
      assert Straight(pieces, i);
    }
  }

  // ---------------------------------------------------------------------------------------------
  // The service
  // ---------------------------------------------------------------------------------------------

  /** A session that holds `held` is sent `body` for position `start`: it keeps some prefix of what is new. */
  ghost predicate Commits(held: seq<octet>, start: int, body: seq<octet>, after: seq<octet>) {
    || after == held
    || (0 <= start <= |held| < |after| <= start + |body| && after == held + body[|held| - start..|after| - start])
  }

  /** How an honest server answers about a session that holds `held` of `size` bytes. */
  ghost predicate HonestReply(reply: Reply, held: seq<octet>, size: int) {
    && (Success2xx(reply) ==> |held| == size)
    && (Incomplete(reply) ==> |held| < size && reply.range == RangeHeader(|held|))
    && !Gone(reply)
  }

  /**
   What the service holds: the bytes of each session, the object once there is one, for both of them where in
   the client's file the bytes had been read, and how many of its replies acknowledged less than their chunk.
   */
  datatype Service = Service(
    sessions: map<Bytes, seq<octet>>, content: Option<seq<octet>>, laid: map<Bytes, seq<Piece>>,
    finished: seq<Piece>, shortfalls: nat)

  function LaidIn(s: Service, uri: Bytes): seq<Piece> {
    if uri in s.laid then s.laid[uri] else []
  }

  /** Sessions other than `uri` are as they were, or have ended. */
  ghost predicate OthersKept(before: Service, uri: Bytes, after: Service) {
    && after.sessions.Keys <= before.sessions.Keys
    && forall other :: other in after.sessions && other != uri ==>
         after.sessions[other] == before.sessions[other] && LaidIn(after, other) == LaidIn(before, other)
  }

  /** A session took some of `body`, which was sent for position `start` and read at `from`. */
  ghost predicate Takes(held: seq<octet>, pieces: seq<Piece>, start: int, body: seq<octet>, from: int,
                        now: seq<octet>, after: seq<Piece>) {
    Commits(held, start, body, now) && after == Grown(pieces, from + |held| - start, |now| - |held|)
  }

  /** The named session, if it is still there, takes some of the body, and the object appears with its last byte. */
  ghost predicate PutEffect(before: Service, uri: Bytes, start: int, size: int, body: seq<octet>, from: int,
                            after: Service) {
    && OthersKept(before, uri, after)
    && if uri !in after.sessions then after.content == before.content && after.finished == before.finished
       else
         var held, now := before.sessions[uri], after.sessions[uri];
         && Takes(held, LaidIn(before, uri), start, body, from, now, LaidIn(after, uri))
         && after.content == (if |held| < size == |now| then Some(now) else before.content)
         && after.finished == (if |held| < size == |now| then LaidIn(after, uri) else before.finished)
  }

  function Grown(pieces: seq<Piece>, from: int, count: int): seq<Piece> {
    if from < 0 || count <= 0 then pieces else pieces + [Piece(from, count)]
  }

  ghost predicate Started(before: Service, after: Service) {
    && after.content == before.content && after.finished == before.finished && after.shortfalls == before.shortfalls
    && (forall uri :: uri in before.sessions ==>
          uri in after.sessions && after.sessions[uri] == before.sessions[uri]
          && LaidIn(after, uri) == LaidIn(before, uri))
    && (forall uri :: uri in after.sessions && uri !in before.sessions ==>
          after.sessions[uri] == [] && LaidIn(after, uri) == [])
  }

  const NEW_SERVICE := Service(map[], None, map[], [], 0)

  /** The reply acknowledges less of a session than up to `upto`. */
  ghost predicate FallsShort(reply: Reply, s: Service, uri: Bytes, upto: int) {
    Incomplete(reply) && uri in s.sessions && |s.sessions[uri]| < upto
  }

  /** The service, for the one object name an uploader writes. Unless it is honest, any reply is possible. */
  class Server {
    const honest: bool
    var sessions: map<Bytes, seq<octet>>
    var content: Option<seq<octet>>
    ghost var laid: map<Bytes, seq<Piece>>
    ghost var finished: seq<Piece>
    ghost var shortfalls: nat

    constructor (honest: bool)
      ensures this.honest == honest && State() == NEW_SERVICE
    {
      this.honest := honest;
      sessions, content := map[], None;
      laid, finished, shortfalls := map[], [], 0;
    }

    ghost function State(): Service
      reads this
    {
      Service(sessions, content, laid, finished, shortfalls)
    }

    /** Sessions end after a week without use, or at any other time. */
    method Expire()
      modifies this`sessions
      ensures sessions.Keys <= old(sessions).Keys
      ensures forall uri :: uri in sessions ==> sessions[uri] == old(sessions)[uri]
    {
      var dropped: set<Bytes> := *;
      sessions := sessions - dropped;
    }

    /** A session can exist although its URI never reached the client. */
    method Start(size: int) returns (uri: Option<Bytes>)
      modifies this`sessions, this`laid
      ensures Started(old(State()), State())
      ensures uri.Some? ==> uri.value !in old(sessions) && uri.value in sessions
    {
      var name: Bytes := *;
      if name in sessions {
        return None;
      }
      sessions := sessions[name := []];
      laid := laid[name := []];
      if * {
        return None;
      }
      return Some(name);
    }

    /** An empty request with an open range asks how much was committed. */
    method Query(uri: Bytes, size: int) returns (reply: Reply)
      ensures honest && uri in sessions ==> HonestReply(reply, sessions[uri], size)
      ensures honest && uri !in sessions ==> !Success2xx(reply) && !Incomplete(reply)
    {
      reply := *;
      if honest {
        if uri !in sessions {
          return Status(404, []);
        }
        if !reply.NoReply? {
          return if |sessions[uri]| == size then Status(200, []) else if |sessions[uri]| < size
            then Status(308, RangeHeader(|sessions[uri]|)) else NoReply;
        }
      }
    }

    /**
     One chunk, which the client read at `from`. Sessions can have ended since the request before this one.
     The object appears once the last byte is committed, even if the reply is lost.
     */
    method Put(uri: Bytes, start: int, size: int, body: seq<octet>, ghost from: int) returns (reply: Reply)
      modifies this
      ensures PutEffect(old(State()), uri, start, size, body, from, State()) || !honest
      ensures honest && uri in sessions ==> HonestReply(reply, sessions[uri], size)
      ensures honest && uri !in sessions ==> !Success2xx(reply) && !Incomplete(reply)
      ensures honest ==>
        shortfalls == old(shortfalls) + if FallsShort(reply, State(), uri, start + |body|) then 1 else 0
    {
      reply := *;
      if !honest {
        content := *;
        return;
      }
      Expire();
      if uri !in sessions {
        return Status(404, []);
      }
      Commit(uri, start, size, body, from);
      if !reply.NoReply? {
        reply := if |sessions[uri]| == size then Status(200, []) else if |sessions[uri]| < size
          then Status(308, RangeHeader(|sessions[uri]|)) else NoReply;
      }
      if FallsShort(reply, State(), uri, start + |body|) {
        shortfalls := shortfalls + 1;
      }
    }

    /** Some of what is new in the body is added to its session. */
    method Commit(uri: Bytes, start: int, size: int, body: seq<octet>, ghost from: int)
      requires uri in sessions
      modifies this`sessions, this`content, this`laid, this`finished
      ensures PutEffect(old(State()), uri, start, size, body, from, State()) && uri in sessions
    {
      var held := sessions[uri];
      if 0 <= start <= |held| < start + |body| {
        var kept: nat := *;
        var upto := |held| + kept % (start + |body| - |held| + 1);
        sessions := sessions[uri := held + body[|held| - start..upto - start]];
        laid := laid[uri := Grown(LaidIn(old(State()), uri), from + |held| - start, upto - |held|)];
        if |held| < size == |sessions[uri]| {
          content := Some(sessions[uri]);
          finished := laid[uri];
        }
      }
    }
  }

  /** The pieces gather to these bytes of the file. */
  ghost predicate IsGathered(bytes: seq<octet>, data: seq<octet>, pieces: seq<Piece>) {
    WithinFile(pieces, |data|) && |bytes| <= |data| && bytes == Gather(data, pieces)
  }

  /** Every session and the object are what was laid into them, and a full session has made an object. */
  ghost predicate Accounted(s: Service, data: seq<octet>) {
    && (forall uri :: uri in s.sessions ==> IsGathered(s.sessions[uri], data, LaidIn(s, uri)))
    && (s.content.Some? ==> IsGathered(s.content.value, data, s.finished) && |s.content.value| == |data|)
    && (forall uri :: uri in s.sessions && |s.sessions[uri]| == |data| ==> s.content.Some?)
  }

  /** Nothing has been put anywhere but at the position it was read from. */
  ghost predicate NothingDisplaced(s: Service) {
    && (forall uri :: uri in s.sessions ==> AllStraight(LaidIn(s, uri)))
    && (s.content.Some? ==> AllStraight(s.finished))
  }

  lemma StartKeepsAccount(before: Service, after: Service, data: seq<octet>)
    requires Started(before, after) && Accounted(before, data) && |data| > 0
    ensures Accounted(after, data)
    ensures NothingDisplaced(before) ==> NothingDisplaced(after)
  {
  }

  lemma ExpiryKeepsAccount(before: Service, after: Service, data: seq<octet>)
    requires after.sessions.Keys <= before.sessions.Keys && after == before.(sessions := after.sessions)
    requires forall uri :: uri in after.sessions ==> after.sessions[uri] == before.sessions[uri]
    requires Accounted(before, data)
    ensures Accounted(after, data)
    ensures NothingDisplaced(before) ==> NothingDisplaced(after)
  {
  }

  /** A piece taken from the front of what was read at `from` and sent for the end of a session. */
  lemma TakenPiece(held: seq<octet>, pieces: seq<Piece>, body: seq<octet>, from: nat, now: seq<octet>,
                   after: seq<Piece>, data: seq<octet>)
    requires IsGathered(held, data, pieces) && Takes(held, pieces, |held|, body, from, now, after)
    requires |held| + |body| <= |data| && from + |body| <= |data| && body == data[from..from + |body|]
    ensures IsGathered(now, data, after)
    ensures AllStraight(pieces) && from == |held| ==> AllStraight(after)
  {
    if now != held {
      var k := |now| - |held|;
      assert body[..k] == data[from..from + k];
      GatherOfOneMore(data, pieces, Piece(from, k));
      LengthOfOneMore(pieces, Piece(from, k));
    }
  }

  /** A chunk read anywhere in the file and sent for the end of its session, however much of it was committed. */
  lemma PutKeepsAccount(before: Service, uri: Bytes, body: seq<octet>, from: nat, after: Service, data: seq<octet>)
    requires uri in before.sessions
    requires var start := |before.sessions[uri]|;
      start + |body| <= |data| && PutEffect(before, uri, start, |data|, body, from, after)
    requires from + |body| <= |data| && body == data[from..from + |body|]
    ensures Accounted(before, data) ==> Accounted(after, data)
    ensures Accounted(before, data) && NothingDisplaced(before) && from == |before.sessions[uri]| ==>
      NothingDisplaced(after)
  {
    if Accounted(before, data) {
      if uri in after.sessions {
        var now := after.sessions[uri];
        TakenPiece(before.sessions[uri], LaidIn(before, uri), body, from, now, LaidIn(after, uri), data);
      }
      PutAccounts(before, uri, |before.sessions[uri]|, body, from, after, data);
    }
  }

  lemma PutAccounts(before: Service, uri: Bytes, start: int, body: seq<octet>, from: nat, after: Service,
                    data: seq<octet>)
    requires Accounted(before, data) && PutEffect(before, uri, start, |data|, body, from, after)
    requires uri in after.sessions ==> IsGathered(after.sessions[uri], data, LaidIn(after, uri))
    ensures Accounted(after, data)
    ensures NothingDisplaced(before) && (uri in after.sessions ==> AllStraight(LaidIn(after, uri))) ==>
      NothingDisplaced(after)
  {
  }

  /** The object is the file exactly when every piece in it holds the bytes that belong there. */
  lemma ObjectIsFileIff(s: Service, data: seq<octet>)
    requires Accounted(s, data) && s.content.Some?
    ensures s.content == Some(data) <==> AllRight(data, s.finished)
    ensures NothingDisplaced(s) ==> s.content == Some(data)
  {
    PrefixIffAllRight(data, s.finished);
    assert data[..|data|] == data;
    if AllStraight(s.finished) {
      StraightIsRight(data, s.finished);
    }
  }

  // ---------------------------------------------------------------------------------------------
  // The client
  // ---------------------------------------------------------------------------------------------

  /** prepareGCSResumeSession. `aged` says that the token's session is close to its week of inactivity. */
  method PrepareResumeSession(server: Server, size: int, requested: Option<Session>, aged: bool)
    returns (r: Option<Session>)
    requires 0 <= size <= MAX_INT64
    modifies server`sessions, server`laid
    ensures r.Some? ==> r.value.size == size
    ensures r.Some? && server.honest ==>
      r.value.uri in server.sessions && |server.sessions[r.value.uri]| == r.value.offset <= size
    ensures Started(old(server.State()), server.State())
    ensures requested.Some? && requested.value.size != size ==> r.None?
    ensures server.honest && requested.Some? && !aged && requested.value.uri in old(server.sessions) && r.Some? ==>
      r.value.uri == requested.value.uri && server.sessions == old(server.sessions)
  {
    if requested.Some? {
      var state := requested.value;
      if state.uri == [] || state.size != size {
        return None;
      }
      if !aged {
        var reply := server.Query(state.uri, size);
        if Success2xx(reply) {
          return Some(state.(offset := size));
        }
        if Incomplete(reply) {
          if server.honest {
            HonestOffset(|server.sessions[state.uri]|);
          }
          return Some(state.(offset := RangeOffset(reply.range)));
        }
        if !Gone(reply) {
          return None;
        }
      }
    }
    var uri := server.Start(size);
    if uri.None? || uri.value == [] {
      return None;
    }
    return Some(Session(uri.value, size, 0));
  }

  /** The session as the service holds it. */
  ghost predicate InStep(server: Server, state: Session)
    reads server
  {
    state.uri in server.sessions && |server.sessions[state.uri]| == state.offset <= state.size
  }

  /** What a process that starts now would read from the token. */
  ghost function Durable(token: CheckpointFile<Session>): Result<Option<Session>, ()>
    reads token
  {
    Read(token.OnDisk())
  }

  /** The checkpoint callback. */
  method SaveSession(token: CheckpointFile<Session>, state: Session) returns (ending: Ending)
    modifies token
    ensures ending.Written? ==> Durable(token) == Success(Some(state))
  {
    ending := token.Write(state);
    WriteIsAtomic(old(token.OnDisk()), state, token.OnDisk(), ending);
  }

  /** The upload loop between two rounds: what the session holds, and where the reader is. */
  datatype Spot = Spot(held: seq<octet>, pos: int)

  /** A round after which the loop goes on: a chunk from the reader's position was sent, and some of it taken. */
  ghost predicate RoundStep(a: Spot, b: Spot, data: seq<octet>) {
    var count := Min(CHUNK_SIZE, |data| - |a.held|);
    && |a.held| < |data| && |a.held| < |b.held| && 0 <= a.pos && a.pos + count == b.pos <= |data|
    && Commits(a.held, |a.held|, data[a.pos..b.pos], b.held)
  }

  /** A session that was right is right after a round exactly when the bytes taken belong where they were put. */
  ghost predicate RightIffTheyBelong(held: seq<octet>, pos: int, now: seq<octet>, data: seq<octet>) {
    Starts(data, held) && now != held ==>
      && 0 <= pos && |held| < |now| <= |data| && pos + |now| - |held| <= |data|
      && (Starts(data, now) <==> data[pos..pos + |now| - |held|] == data[|held|..|now|])
  }

  lemma CommitIsRightIff(held: seq<octet>, pos: nat, count: nat, now: seq<octet>, data: seq<octet>)
    requires |held| + count <= |data| && pos + count <= |data|
    requires Commits(held, |held|, data[pos..pos + count], now)
    ensures RightIffTheyBelong(held, pos, now, data)
  {
    if now != held && Starts(data, held) {
      var k := |now| - |held|;
      assert data[pos..pos + count][..k] == data[pos..pos + k];
      PrefixGrowsIff(data, |held|, pos, k);
    }
  }

  /** The bytes of the file from..upto were sent for the end of a session. */
  ghost predicate SentFrom(before: Service, uri: Bytes, from: int, upto: int, after: Service, data: seq<octet>) {
    && 0 <= from <= upto <= |data| && uri in before.sessions && |before.sessions[uri]| + upto - from <= |data|
    && PutEffect(before, uri, |before.sessions[uri]|, |data|, data[from..upto], from, after)
  }

  /** What sending them keeps, wherever they are from, and what it depends on that they are the right ones. */
  lemma SentFromAnywhere(before: Service, uri: Bytes, from: int, upto: int, after: Service, data: seq<octet>)
    requires SentFrom(before, uri, from, upto, after, data)
    ensures Accounted(before, data) ==> Accounted(after, data)
    ensures Accounted(before, data) && NothingDisplaced(before) && from == |before.sessions[uri]| ==>
      NothingDisplaced(after)
    ensures uri in after.sessions ==> RightIffTheyBelong(before.sessions[uri], from, after.sessions[uri], data)
  {
    if uri in after.sessions {
      CommitIsRightIff(before.sessions[uri], from, upto - from, after.sessions[uri], data);
    }
    PutKeepsAccount(before, uri, data[from..upto], from, after, data);
  }

  /** The request of one round: read a chunk and send it. */
  method ReadAndPut(server: Server, body: Reader, buffer: array<octet>, session: Session)
    returns (reply: Option<Reply>)
    requires 0 <= session.offset < session.size == |body.data| <= MAX_INT64
    requires buffer.Length == CHUNK_SIZE && 0 <= body.pos
    requires server.honest ==> InStep(server, session)
    modifies server, body, buffer
    ensures 0 <= body.pos
    ensures reply.None? ==> server.State() == old(server.State())
    ensures reply.Some? ==> body.pos == old(body.pos) + Min(CHUNK_SIZE, session.size - session.offset) <= |body.data|
    ensures reply.Some? && server.honest ==>
      SentFrom(old(server.State()), session.uri, old(body.pos), body.pos, server.State(), body.data)
    ensures reply.Some? && server.honest && session.uri in server.sessions ==>
      HonestReply(reply.value, server.sessions[session.uri], session.size)
    ensures reply.Some? && server.honest && session.uri !in server.sessions ==>
      !Success2xx(reply.value) && !Incomplete(reply.value)
    ensures reply.Some? && server.honest ==>
      server.shortfalls == old(server.shortfalls)
        + if FallsShort(reply.value, server.State(), session.uri,
                        session.offset + Min(CHUNK_SIZE, session.size - session.offset))
          then 1 else 0
  {
    var count := Min(CHUNK_SIZE, session.size - session.offset);
    var read := body.ReadFull(buffer, count);
    if !read {
      return None;
    }
    var answer := server.Put(session.uri, session.offset, session.size, buffer[..count], old(body.pos));
    return Some(answer);
  }

  /** The session as the reply leaves it; no session when the reply is an error or moves the offset nowhere. */
  function AfterReply(session: Session, reply: Reply): (next: Option<Session>)
    ensures next.Some? ==> session.offset < next.value.offset && (Incomplete(reply) || Success2xx(reply))
  {
    var offset :=
      if Incomplete(reply) then RangeOffset(reply.range)
      else if Success2xx(reply) then session.size
      else session.offset;
    if offset <= session.offset then None else Some(session.(offset := offset))
  }

  /** An honest reply that lets the loop go on has moved the offset to where the session now ends. */
  lemma AcknowledgedRound(before: Service, session: Session, from: int, upto: int, after: Service, reply: Reply,
                          data: seq<octet>)
    requires SentFrom(before, session.uri, from, upto, after, data) && session.uri in after.sessions
    requires |before.sessions[session.uri]| == session.offset < session.size == |data| <= MAX_INT64
    requires upto == from + Min(CHUNK_SIZE, session.size - session.offset)
    requires HonestReply(reply, after.sessions[session.uri], session.size) && AfterReply(session, reply).Some?
    ensures AfterReply(session, reply).value.offset == |after.sessions[session.uri]| <= session.size
    ensures RoundStep(Spot(before.sessions[session.uri], from), Spot(after.sessions[session.uri], upto), data)
  {
    HonestOffset(|after.sessions[session.uri]|);
  }

  /**
   One round of the upload loop: read a chunk, send it, take the new offset, checkpoint. Whatever is wrong
   with the reader's position, what the service then holds is accounted for, and right if it was right.
   */
  method SendChunk(server: Server, body: Reader, buffer: array<octet>, session: Session, token: CheckpointFile<Session>)
    returns (end: AttemptEnd, state: Session, ghost reply: Reply)
    requires 0 <= session.offset < session.size == |body.data| <= MAX_INT64
    requires buffer.Length == CHUNK_SIZE && 0 <= body.pos
    requires server.honest ==> InStep(server, session)
    modifies server, body, buffer, token
    ensures state.uri == session.uri && state.size == session.size
    ensures end.Completed? ==> session.offset < state.offset && Durable(token) == Success(Some(state))
    ensures !end.Crashed? && Success2xx(reply) ==> state.offset == session.size
    ensures !end.Crashed? && Incomplete(reply) ==> state.offset == RangeOffset(reply.range) || end.Failed?
    ensures end.Completed? ==> Success2xx(reply) || Incomplete(reply)
    ensures end.Completed? ==> body.pos == old(body.pos) + Min(CHUNK_SIZE, session.size - session.offset) <= |body.data|
    ensures end.Completed? && server.honest ==>
      InStep(server, state)
      && RoundStep(Spot(old(server.sessions)[state.uri], old(body.pos)),
                   Spot(server.sessions[state.uri], body.pos), body.data)
    ensures end.Completed? && server.honest ==>
      (old(server.shortfalls) < server.shortfalls
       <==> state.offset < session.offset + Min(CHUNK_SIZE, session.size - session.offset))
    ensures server.honest ==> old(server.shortfalls) <= server.shortfalls
    ensures server.honest && session.uri in server.sessions ==>
      RightIffTheyBelong(old(server.sessions)[session.uri], old(body.pos), server.sessions[session.uri], body.data)
    ensures server.honest && old(Accounted(server.State(), body.data)) ==> Accounted(server.State(), body.data)
    ensures server.honest && old(Accounted(server.State(), body.data) && NothingDisplaced(server.State())) ==>
      var upto := old(body.pos) + Min(CHUNK_SIZE, session.size - session.offset);
      old(body.pos) == session.offset || upto > |body.data| ==>
        NothingDisplaced(server.State())
  {
    state, reply := session, NoReply;
    var answer := ReadAndPut(server, body, buffer, session);
    if answer.None? {
      return Failed, state, reply;
    }
    reply := answer.value;
    if server.honest {
      SentFromAnywhere(old(server.State()), session.uri, old(body.pos), body.pos, server.State(), body.data);
    }
    if * {
      return Crashed, state, reply;
    }
    var next := AfterReply(session, answer.value);
    if next.None? {
      return Failed, state, reply;
    }
    if server.honest {
      AcknowledgedRound(old(server.State()), session, old(body.pos), body.pos, server.State(), reply, body.data);
    }
    state := next.value;
    var ending := SaveSession(token, state);
    return (if ending.Written? then Completed else if ending.Cut? then Crashed else Failed), state, reply;
  }

  /** The reader is ahead of the offset only behind a first chunk, so only then can a displaced chunk be read. */
  lemma AheadNeedsTwoChunks(offset: int, pos: int, size: int)
    requires 0 <= offset < size && offset < pos && (pos >= CHUNK_SIZE || pos >= size)
    ensures pos + Min(CHUNK_SIZE, size - offset) <= size ==> size >= 2 * CHUNK_SIZE
  {
  }

  /** The loop of an attempt: the reader is ahead of the offset exactly when some reply of it fell short. */
  ghost predicate Underway(server: Server, state: Session, pos: int, size: int, start: nat)
    reads server
  {
    && 0 <= pos && 0 <= state.offset
    && (server.honest ==>
          InStep(server, state) && state.offset <= pos <= size && start <= server.shortfalls
          && (start < server.shortfalls <==> state.offset < pos)
          && (state.offset < pos ==> pos >= CHUNK_SIZE || pos >= size))
  }

  /**
   What an attempt makes of the service, cut off anywhere: whatever is accounted for stays so, and nothing is
   displaced by it unless a reply of it fell short and the file has two chunks or more.
   */
  ghost predicate Progressed(found: Service, left: Service, data: seq<octet>) {
    && found.shortfalls <= left.shortfalls
    && (Accounted(found, data) ==> Accounted(left, data))
    && (Accounted(found, data) && NothingDisplaced(found) ==>
          left.shortfalls == found.shortfalls || |data| < 2 * CHUNK_SIZE ==> NothingDisplaced(left))
  }

  /** One attempt: it can only complete if no reply of it fell short, and has then made an object. */
  ghost predicate AttemptStep(found: Service, end: AttemptEnd, left: Service, data: seq<octet>) {
    && Progressed(found, left, data)
    && (end.Completed? ==> left.shortfalls == found.shortfalls && (Accounted(found, data) ==> left.content.Some?))
  }

  lemma ProgressIsTransitive(a: Service, b: Service, c: Service, data: seq<octet>)
    requires Progressed(a, b, data) && Progressed(b, c, data)
    ensures Progressed(a, c, data)
  {
  }

  /** One round of the loop; `start` is how many replies had fallen short before the attempt. */
  method NextRound(server: Server, body: Reader, buffer: array<octet>, session: Session, token: CheckpointFile<Session>,
                   ghost start: nat) returns (end: AttemptEnd, state: Session)
    requires session.offset < session.size == |body.data| <= MAX_INT64 && buffer.Length == CHUNK_SIZE
    requires Underway(server, session, body.pos, session.size, start)
    modifies server, body, buffer, token
    ensures end.Completed? ==>
      session.offset < state.offset && state.uri == session.uri && state.size == session.size
      && Durable(token) == Success(Some(state)) && Underway(server, state, body.pos, state.size, start)
    ensures server.honest ==> old(server.shortfalls) <= server.shortfalls
    ensures server.honest && old(Accounted(server.State(), body.data)) ==> Accounted(server.State(), body.data)
    ensures server.honest && old(Accounted(server.State(), body.data) && NothingDisplaced(server.State())) ==>
      old(server.shortfalls) == start || session.size < 2 * CHUNK_SIZE ==> NothingDisplaced(server.State())
  {
    if server.honest && session.offset < body.pos {
      AheadNeedsTwoChunks(session.offset, body.pos, session.size);
    }
    ghost var reply;
    end, state, reply := SendChunk(server, body, buffer, session, token);
  }

  /** uploadGCSResume. The loop ends whatever the server answers. */
  method UploadResume(server: Server, body: Reader, session: Session, token: CheckpointFile<Session>)
    returns (end: AttemptEnd)
    requires 0 <= session.offset == body.pos && session.size == |body.data| <= MAX_INT64
    requires server.honest ==> InStep(server, session)
    requires Durable(token) == Success(Some(session))
    modifies server, body, token
    ensures end.Completed? ==> Durable(token).Success? && Durable(token).value.Some?
    ensures end.Completed? ==>
      var s := Durable(token).value.value; s.uri == session.uri && s.size == session.size <= s.offset
    ensures end.Completed? && server.honest ==> InStep(server, Durable(token).value.value)
    ensures server.honest ==> AttemptStep(old(server.State()), end, server.State(), body.data)
  {
    var buffer := new octet[CHUNK_SIZE];
    var state := session;
    ghost var found := server.State();
    while state.offset < state.size
      invariant state.uri == session.uri && state.size == session.size
      invariant Underway(server, state, body.pos, state.size, found.shortfalls)
      invariant Durable(token) == Success(Some(state))
      invariant server.honest ==> Progressed(found, server.State(), body.data)
      decreases state.size - state.offset
    {
      end, state := NextRound(server, body, buffer, state, token, found.shortfalls);
      if !end.Completed? {
        return;
      }
    }
    if * {
      return Crashed;
    }
    return Completed;
  }

  /** UploadResumable: one attempt, whatever token and sessions the previous ones left. */
  method UploadResumable(server: Server, data: seq<octet>, token: CheckpointFile<Session>) returns (end: AttemptEnd)
    requires |data| <= MAX_INT64
    modifies server, token
    ensures server.honest ==> AttemptStep(old(server.State()), end, server.State(), data)
    ensures end.Completed? ==>
      |data| > 0 && Durable(token).Success? && Durable(token).value.Some?
      && Durable(token).value.value.size == |data| <= Durable(token).value.value.offset
    ensures end.Completed? && server.honest ==> InStep(server, Durable(token).value.value)
  {
    var requested := Read(token.OnDisk());
    if requested.Failure? || |data| == 0 {
      return Failed;
    }
    var aged := *;
    ghost var found := server.State();
    var accepted := PrepareResumeSession(server, |data|, requested.value, aged);
    StartIsProgress(found, server.State(), data);
    if * {
      return Crashed;
    }
    if accepted.None? {
      return Failed;
    }
    var ending := SaveSession(token, accepted.value);
    if !ending.Written? {
      return if ending.Cut? then Crashed else Failed;
    }
    var file := new Reader(data);
    if accepted.value.offset < 0 {
      return Failed;
    }
    file.Seek(accepted.value.offset);
    ghost var started := server.State();
    end := UploadResume(server, file, accepted.value, token);
    if server.honest {
      ProgressIsTransitive(found, started, server.State(), data);
    }
  }

  lemma StartIsProgress(before: Service, after: Service, data: seq<octet>)
    requires Started(before, after) && |data| > 0
    ensures Progressed(before, after, data)
  {
    if Accounted(before, data) {
      StartKeepsAccount(before, after, data);
    }
  }

  /** One attempt of a run. */
  datatype Attempt = Attempt(found: Service, end: AttemptEnd, left: Service)

  /** Nothing happened in between, except that sessions can have ended. */
  ghost predicate Between(left: Service, found: Service) {
    && found.sessions.Keys <= left.sessions.Keys && found == left.(sessions := found.sessions)
    && forall uri :: uri in found.sessions ==> found.sessions[uri] == left.sessions[uri]
  }

  function Last(run: seq<Attempt>): Service {
    if run == [] then NEW_SERVICE else run[|run| - 1].left
  }

  /** Attempts one after the other, from a service that holds nothing. */
  ghost predicate IsRun(run: seq<Attempt>, data: seq<octet>) {
    forall i :: 0 <= i < |run| ==>
      Between(Last(run[..i]), run[i].found) && AttemptStep(run[i].found, run[i].end, run[i].left, data)
  }

  lemma RunOfOneMore(run: seq<Attempt>, last: Attempt, data: seq<octet>)
    requires IsRun(run, data) && Between(Last(run), last.found) && AttemptStep(last.found, last.end, last.left, data)
    ensures IsRun(run + [last], data)
  {
    var more := run + [last];
    forall i | 0 <= i < |more|
      ensures Between(Last(more[..i]), more[i].found) && AttemptStep(more[i].found, more[i].end, more[i].left, data)
    {
      assert more[..i] == run[..i];
      assert i < |run| ==> more[i] == run[i];
    }
    assert run[..|run|] == run;
  }

  lemma PrefixIsRun(run: seq<Attempt>, data: seq<octet>, n: nat)
    requires n <= |run| && IsRun(run, data)
    ensures IsRun(run[..n], data)
  {
    forall i | 0 <= i < n
      ensures Between(Last(run[..n][..i]), run[i].found) && AttemptStep(run[i].found, run[i].end, run[i].left, data)
    {
      assert run[..n][..i] == run[..i];
    }
  }

  /** Everything is accounted for and, as far as replies and size allow, nothing displaced. */
  ghost predicate InOrder(s: Service, data: seq<octet>) {
    Accounted(s, data) && (s.shortfalls == 0 || |data| < 2 * CHUNK_SIZE ==> NothingDisplaced(s))
  }

  lemma {:induction false} RunIsAccounted(run: seq<Attempt>, data: seq<octet>)
    requires IsRun(run, data)
    ensures InOrder(Last(run), data)
  {
    if run != [] {
      var n := |run| - 1;
      PrefixIsRun(run, data, n);
      RunIsAccounted(run[..n], data);
      ExpiryKeepsAccount(Last(run[..n]), run[n].found, data);
    }
  }

  /** What a completed attempt has left: the pieces of the object, and when they make the file. */
  ghost predicate LeavesGathered(left: Service, data: seq<octet>) {
    && left.content.Some? && IsGathered(left.content.value, data, left.finished) && |left.content.value| == |data|
    && (left.content == Some(data) <==> AllRight(data, left.finished))
    && (left.shortfalls == 0 || |data| < 2 * CHUNK_SIZE ==> left.content == Some(data))
  }

  /** If attempt i completed, it left an object accounted for piece by piece. */
  ghost predicate LeftGathered(run: seq<Attempt>, i: nat, data: seq<octet>)
    requires i < |run|
  {
    run[i].end.Completed? ==> LeavesGathered(run[i].left, data)
  }

  ghost predicate AllLeftGathered(run: seq<Attempt>, data: seq<octet>) {
    forall i :: 0 <= i < |run| ==> LeftGathered(run, i, data)
  }

  /**
   In every run, an attempt that completes leaves the pieces that were laid into its session, and so the file
   exactly when each of them holds the bytes that belong there. That is so for every file shorter than two
   chunks, and for any file as long as no reply of the run has fallen short.
   */
  lemma EachLeavesGathered(run: seq<Attempt>, i: nat, data: seq<octet>)
    requires i < |run| && IsRun(run, data)
    ensures LeftGathered(run, i, data)
  {
    PrefixIsRun(run, data, i);
    PrefixIsRun(run, data, i + 1);
    RunIsAccounted(run[..i], data);
    RunIsAccounted(run[..i + 1], data);
    ExpiryKeepsAccount(Last(run[..i]), run[i].found, data);
    assert Last(run[..i + 1]) == run[i].left;
    if run[i].end.Completed? {
      ObjectIsFileIff(run[i].left, data);
    }
  }

  /**
   Any number of attempts, each cut off anywhere, with sessions ending between any two requests: they are a
   run, from the empty service to what it holds now.
   */
  method Attempts(server: Server, data: seq<octet>, token: CheckpointFile<Session>, n: nat)
    returns (ends: seq<AttemptEnd>, ghost run: seq<Attempt>)
    requires server.honest && server.State() == NEW_SERVICE && |data| <= MAX_INT64
    requires token.OnDisk() == Disk(Missing, Missing)
    modifies server, token
    ensures |ends| == |run| == n && forall i :: 0 <= i < n ==> run[i].end == ends[i]
    ensures IsRun(run, data) && Last(run) == server.State()
    ensures InOrder(server.State(), data) && AllLeftGathered(run, data)
  {
    ends, run := [], [];
    for i := 0 to n
      invariant |ends| == |run| == i && forall k :: 0 <= k < i ==> run[k].end == ends[k]
      invariant IsRun(run, data) && Last(run) == server.State()
    {
      server.Expire();
      ghost var found := server.State();
      var end := UploadResumable(server, data, token);
      ghost var attempt := Attempt(found, end, server.State());
      RunOfOneMore(run, attempt, data);
      ends, run := ends + [end], run + [attempt];
    }
    RunIsAccounted(run, data);
    forall i | 0 <= i < n ensures LeftGathered(run, i, data) {
      EachLeavesGathered(run, i, data);
    }
  }

  // ---------------------------------------------------------------------------------------------
  // Two chunks are enough to go wrong
  // ---------------------------------------------------------------------------------------------

  /**
   Of all files of a size, a chunk read at `pos` and put behind the first `start` bytes suits all only if both
   agree.
   */
  lemma OnlyTheOffsetFits(size: nat, start: int, pos: int, count: int)
    requires 0 <= start <= pos && 0 < count && pos + count <= size
    ensures (forall data: seq<octet> :: |data| == size ==> Starts(data, data[..start] + data[pos..pos + count]))
      <==> pos == start
  {
    if pos > start {
      var data := OneAt(size, start);
      PrefixGrowsIff(data, start, pos, count);
      assert data[start..start + count][0] == 1;
      assert data[pos..pos + count][0] == 0;
    } else {
      forall data: seq<octet> | |data| == size ensures Starts(data, data[..start] + data[pos..pos + count]) {
        PrefixGrowsIff(data, start, pos, count);
      }
    }
  }

  function OneAt(size: nat, k: int): (data: seq<octet>)
    ensures |data| == size && forall i :: 0 <= i < size ==> data[i] == if i == k then 1 else 0
  {
    seq(size, i => if i == k then 1 else 0)
  }

  /** A path of rounds of one attempt. */
  ghost predicate Rounds(path: seq<Spot>, data: seq<octet>) {
    path != [] && forall i :: 0 <= i < |path| - 1 ==> RoundStep(path[i], path[i + 1], data)
  }

  lemma OneMoreRound(a: Spot, path: seq<Spot>, data: seq<octet>)
    requires Rounds(path, data) && RoundStep(a, path[0], data)
    ensures Rounds([a] + path, data)
  {
  }

  /** An attempt that starts where the session ends, and is acknowledged in full, adds the rest of the file. */
  lemma {:induction false} RoundsToTheEnd(held: seq<octet>, data: seq<octet>) returns (path: seq<Spot>)
    requires |held| <= |data|
    ensures Rounds(path, data) && path[0] == Spot(held, |held|) && path[|path| - 1].held == held + data[|held|..]
    decreases |data| - |held|
  {
    var n := |held|;
    if n == |data| {
      assert held + data[n..] == held;
      return [Spot(held, n)];
    }
    var upto := n + Min(CHUNK_SIZE, |data| - n);
    RoundTakes(held, n, upto - n, data);
    var rest := RoundsToTheEnd(held + data[n..upto], data);
    OneMoreRound(Spot(held, n), rest, data);
    assert held + data[n..upto] + data[upto..] == held + data[n..] by {
      assert data[n..upto] + data[upto..] == data[n..];
    }
    path := [Spot(held, n)] + rest;
  }

  /**
   The run that displaces a chunk, for every file of two chunks or more: the first chunk is acknowledged up to k,
   and the second, read from the next chunk's position, is stored at k; the attempt ends. The next attempt
   starts where the session ends, and completes. The server answers honestly throughout, and the object is
   wrong unless the file repeats itself where the second chunk was put.
   */
  lemma PartialReplyMisplacesBytes(data: seq<octet>, k: int) returns (first: Spot, second: Spot, path: seq<Spot>)
    requires |data| >= 2 * CHUNK_SIZE && 0 < k < CHUNK_SIZE
    ensures first == Spot(data[..k], CHUNK_SIZE) && HonestReply(Status(308, RangeHeader(k)), first.held, |data|)
    ensures RoundStep(Spot([], 0), first, data) && RoundStep(first, second, data)
    ensures Rounds(path, data) && path[0] == Spot(second.held, |second.held|)
    ensures var made := path[|path| - 1].held;
      |made| == |data| && (made == data <==> data[CHUNK_SIZE..2 * CHUNK_SIZE] == data[k..k + CHUNK_SIZE])
  {
    first := Spot(data[..k], CHUNK_SIZE);
    second := Spot(data[..k] + data[CHUNK_SIZE..2 * CHUNK_SIZE], 2 * CHUNK_SIZE);
    RoundTakes([], 0, k, data);
    assert [] + data[0..k] == data[..k];
    RoundTakes(data[..k], CHUNK_SIZE, CHUNK_SIZE, data);
    path := RoundsToTheEnd(second.held, data);
    Replaced(data, k, data[CHUNK_SIZE..2 * CHUNK_SIZE]);
  }

  lemma Replaced(data: seq<octet>, at: nat, bytes: seq<octet>)
    requires at + |bytes| <= |data|
    ensures data[..at] + bytes + data[at + |bytes|..] == data <==> bytes == data[at..at + |bytes|]
  {
    var now := data[..at] + bytes + data[at + |bytes|..];
    assert now[at..at + |bytes|] == bytes;
    assert data[..at] + data[at..at + |bytes|] + data[at + |bytes|..] == data;
  }

  /** A round of which `taken` of the bytes read at `pos` were committed. */
  lemma RoundTakes(held: seq<octet>, pos: int, taken: int, data: seq<octet>)
    requires |held| < |data| && 0 <= pos
    requires var count := Min(CHUNK_SIZE, |data| - |held|); pos + count <= |data| && 0 < taken <= count
    ensures var next := Spot(held + data[pos..pos + taken], pos + Min(CHUNK_SIZE, |data| - |held|));
      RoundStep(Spot(held, pos), next, data)
  {
    var count := Min(CHUNK_SIZE, |data| - |held|);
    assert data[pos..pos + count][..taken] == data[pos..pos + taken];
  }

  /** A service with one session, which holds these bytes from these pieces. */
  function OneSession(uri: Bytes, held: seq<octet>, pieces: seq<Piece>, size: nat): Service {
    Service(map[uri := held], if |held| == size then Some(held) else None, map[uri := pieces],
            if |held| == size then pieces else [], 1)
  }

  /**
   That run among the runs of attempts: for some file of every size from two chunks on, it completes a wrong object.
   */
  lemma SpoiledRunIsReached(size: nat, k: int, uri: Bytes) returns (data: seq<octet>, run: seq<Attempt>)
    requires size >= 2 * CHUNK_SIZE && 0 < k < CHUNK_SIZE
    ensures |data| == size && IsRun(run, data) && |run| == 2
    ensures run[1].end.Completed? && run[1].left.content.Some? && run[1].left.content != Some(data)
    ensures run[0].left.sessions == map[uri := data[..k] + data[CHUNK_SIZE..2 * CHUNK_SIZE]]
  {
    data := SomeFileIsMisplaced(size, k);
    var first, second := data[..k], data[..k] + data[CHUNK_SIZE..2 * CHUNK_SIZE];
    var made := second + data[k + CHUNK_SIZE..];
    Replaced(data, k, data[CHUNK_SIZE..2 * CHUNK_SIZE]);
    var none: seq<Piece> := [];
    var p, q, r := Piece(0, k), Piece(CHUNK_SIZE, CHUNK_SIZE), Piece(k + CHUNK_SIZE, size - k - CHUNK_SIZE);
    GatherOfOneMore(data, none, p);
    GatherOfOneMore(data, none + [p], q);
    GatherOfOneMore(data, none + [p] + [q], r);
    LengthOfOneMore(none, p);
    LengthOfOneMore(none + [p], q);
    assert data[0..k] == first && data[k + CHUNK_SIZE..size] == data[k + CHUNK_SIZE..];
    run := TwoAttempts(data, uri, second, none + [p] + [q], made, none + [p] + [q] + [r]);
  }

  lemma TwoAttempts(data: seq<octet>, uri: Bytes, second: seq<octet>, laid: seq<Piece>, made: seq<octet>,
                    all: seq<Piece>)
    returns (run: seq<Attempt>)
    requires |data| >= 2 * CHUNK_SIZE && |second| < |data| == |made| && !AllStraight(laid)
    requires IsGathered(second, data, laid) && IsGathered(made, data, all)
    ensures IsRun(run, data) && |run| == 2 && run[0].left.sessions == map[uri := second]
    ensures run[1].end.Completed? && run[1].left.content == Some(made)
  {
    var a := Attempt(NEW_SERVICE, Failed, OneSession(uri, second, laid, |data|));
    var b := Attempt(a.left, Completed, OneSession(uri, made, all, |data|));
    assert Accounted(a.left, data) && Accounted(b.left, data);
    assert uri in a.left.sessions && LaidIn(a.left, uri) == laid;
    var none: seq<Attempt> := [];
    RunOfOneMore(none, a, data);
    RunOfOneMore(none + [a], b, data);
    run := none + [a] + [b];
  }

  /** What was laid in wrong is never made good: nothing laid in after it makes the file. */
  lemma WrongStaysWrong(data: seq<octet>, pieces: seq<Piece>, more: seq<Piece>)
    requires WithinFile(pieces + more, |data|) && Length(pieces) <= |data|
    requires !AllRight(data, pieces)
    ensures Gather(data, pieces + more) != data
  {
    GatherExtends(data, pieces, more);
    PrefixIffAllRight(data, pieces);
  }

  lemma {:induction false} GatherExtends(data: seq<octet>, pieces: seq<Piece>, more: seq<Piece>)
    requires WithinFile(pieces + more, |data|)
    ensures WithinFile(pieces, |data|) && Starts(Gather(data, pieces + more), Gather(data, pieces))
  {
    assert forall i :: 0 <= i < |pieces| ==> (pieces + more)[i] == pieces[i];
    if more == [] {
      assert pieces + more == pieces;
    } else {
      var before, last := more[..|more| - 1], more[|more| - 1];
      assert before + [last] == more && pieces + before + [last] == pieces + more;
      assert WithinFile(pieces + before, |data|) && (pieces + more)[|pieces + more| - 1] == last;
      GatherExtends(data, pieces, before);
      GatherOfOneMore(data, pieces + before, last);
    }
  }

  /** Every size from two chunks on has a file that this run spoils. */
  lemma SomeFileIsMisplaced(size: nat, k: int) returns (data: seq<octet>)
    requires size >= 2 * CHUNK_SIZE && 0 < k < CHUNK_SIZE
    ensures |data| == size && data[CHUNK_SIZE..2 * CHUNK_SIZE] != data[k..k + CHUNK_SIZE]
  {
    data := OneAt(size, k);
    assert data[k..k + CHUNK_SIZE][0] == 1;
    assert data[CHUNK_SIZE..2 * CHUNK_SIZE][0] == 0;
  }
}
