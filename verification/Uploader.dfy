/** The records the uploader keeps per target, and what their phases say. */
module UploadSessions {
  import opened Wrappers
  import opened ByteStrings
  import opened Checkpoint
  import opened StableSort
  import opened UploadOperations

  datatype Target = Target(provider: Bytes, config: Bytes, format: Bytes)

  datatype Artifact = Artifact(buildID: Bytes, checksum: Bytes, size: int)

  datatype Phase = Uploading | Uploaded | Registered

  datatype Session = Session(
    target: Target, checksum: Bytes, size: int, key: Bytes, token: Bytes, offset: int, offsetMode: bool,
    phase: Phase, providerRef: Bytes, image: Option<Bytes>, operation: Option<Bytes>)

  function TargetKey(t: Target): Key {
    (t.config, t.format)
  }

  const BY_TARGET: Session -> Key := (s: Session) => TargetKey(s.target)

  /** The idempotency key: the digest of everything that identifies the upload. */
  function KeyFor(artifact: Artifact, target: Target, digest: (Artifact, Target) -> Bytes): Bytes {
    "upload-" + digest(artifact, target)
  }

  function Rank(phase: Phase): nat {
    match phase
    case Uploading => 1
    case Uploaded => 2
    case Registered => 3
  }

  /** How far the session of a target is; 0 when there is none. */
  function RankOf(sessions: seq<Session>, k: Key): nat {
    var found := WithKey(sessions, BY_TARGET, k);
    if found == [] then 0 else Rank(found[0].phase)
  }

  /** No session is further behind in `later` than in `earlier`, and none is lost. */
  ghost predicate NotBehind(earlier: seq<Session>, later: seq<Session>) {
    forall k :: RankOf(earlier, k) <= RankOf(later, k)
  }

  /** A session of this artifact, with what its phase promises. */
  predicate Complete(s: Session) {
    && (s.phase != Uploading ==> s.providerRef != [])
    && (s.phase == Registered ==> s.image.Some? && s.operation.Some?)
  }

  ghost predicate SessionsOK(sessions: seq<Session>, artifact: Artifact, digest: (Artifact, Target) -> Bytes) {
    && UniqueKeys(sessions, BY_TARGET)
    && forall s :: s in sessions ==>
         s.checksum == artifact.checksum && s.size == artifact.size && Complete(s)
         && s.key == KeyFor(artifact, s.target, digest)
  }

  lemma RankAt(sessions: seq<Session>, i: nat)
    requires UniqueKeys(sessions, BY_TARGET) && i < |sessions|
    ensures RankOf(sessions, TargetKey(sessions[i].target)) == Rank(sessions[i].phase)
  {
    WithKeyOfUnique(sessions, i, BY_TARGET);
  }

  /** Moving one session forward moves no session back and keeps the list well-formed. */
  lemma Advance(sessions: seq<Session>, i: nat, s: Session, artifact: Artifact, digest: (Artifact, Target) -> Bytes)
    requires SessionsOK(sessions, artifact, digest) && i < |sessions|
    requires s.target == sessions[i].target && s.key == sessions[i].key
    requires s.checksum == sessions[i].checksum && s.size == sessions[i].size && Complete(s)
    requires Rank(sessions[i].phase) <= Rank(s.phase)
    ensures SessionsOK(sessions[i := s], artifact, digest) && NotBehind(sessions, sessions[i := s])
  {
    var after := sessions[i := s];
    forall a, b | 0 <= a < b < |after| ensures BY_TARGET(after[a]) != BY_TARGET(after[b]) {
      assert BY_TARGET(sessions[a]) != BY_TARGET(sessions[b]);
    }
    RankAt(sessions, i);
    RankAt(after, i);
    forall k ensures RankOf(sessions, k) <= RankOf(after, k) {
      if k != TargetKey(s.target) {
        WithKeyOfUpdate(sessions, i, s, BY_TARGET, k);
      }
    }
  }

  /** Adding a session for a new target and sorting. */
  lemma AddSession(sessions: seq<Session>, s: Session, artifact: Artifact, digest: (Artifact, Target) -> Bytes)
    requires SessionsOK(sessions, artifact, digest)
    requires forall i :: 0 <= i < |sessions| ==> TargetKey(sessions[i].target) != TargetKey(s.target)
    requires s.checksum == artifact.checksum && s.size == artifact.size && Complete(s)
    requires s.key == KeyFor(artifact, s.target, digest)
    ensures var after := Sort(sessions + [s], BY_TARGET);
      SessionsOK(after, artifact, digest) && NotBehind(sessions, after) && s in after
      && forall x :: x in after ==> x == s || x in sessions
  {
    var list := sessions + [s];
    var after := Sort(list, BY_TARGET);
    assert UniqueKeys(list, BY_TARGET);
    SortKeepsUnique(list, BY_TARGET);
    SortIsStableSort(list, BY_TARGET);
    assert s in multiset(list);
    forall x | x in after ensures x == s || x in sessions {
      assert x in multiset(after) && x in list;
    }
    forall k ensures RankOf(sessions, k) <= RankOf(after, k) {
      WithKeyOfAppend(sessions, s, BY_TARGET, k);
    }
  }

  /** reconstructUploadOperationsFromSessions */
  function FromSessions(sessions: seq<Session>): seq<Operation> {
    if sessions == [] then []
    else
      var s := sessions[0];
      (if s.providerRef == [] then []
       else [Operation(s.target.provider, s.target.config, s.target.format, s.providerRef)])
      + FromSessions(sessions[1..])
  }

  /** readUploadOperations: primary, backup, then the sessions; None when there is nothing to read. */
  function ReadOperations(operations: Disk<seq<Operation>>, sessions: Disk<seq<Session>>)
    : Result<Option<seq<Operation>>, ()>
  {
    if Valid(operations.primary) then Success(Some(operations.primary.value))
    else if Valid(operations.backup) then Success(Some(operations.backup.value))
    else
      var fromSessions := Read(sessions);
      if fromSessions.Success? && fromSessions.value.Some? && FromSessions(fromSessions.value.value) != []
      then Success(Some(FromSessions(fromSessions.value.value)))
      else if operations.primary.Missing? && operations.backup.Missing? then Success(None)
      else Failure(())
  }

  /** Operations rebuilt from the sessions name every object whose upload finished, and nothing else. */
  lemma {:induction false} RebuiltOperationsAreUploads(sessions: seq<Session>, o: Operation)
    ensures o in FromSessions(sessions)
      <==> exists s :: s in sessions && s.providerRef != []
             && o == Operation(s.target.provider, s.target.config, s.target.format, s.providerRef)
  {
    if sessions != [] {
      assert sessions == [sessions[0]] + sessions[1..];
      RebuiltOperationsAreUploads(sessions[1..], o);
    }
  }
}

/** The uploader process: every provider call it makes is recorded with what was durable at that moment. */
module Uploader {
  import opened Wrappers
  import opened ByteStrings
  import opened Checkpoint
  import opened StableSort
  import opened UploadOperations
  import opened UploadSessions

  datatype Kind = Saved | Init | Upload | Register | Cleanup

  /**
   A provider call, or a save of the sessions: the phase of the session it is made for, and the durable sessions
   and operations when it happens.
   */
  datatype Event = Event(
    kind: Kind, target: Target, key: Bytes, ref: Bytes, phase: Phase, durable: seq<Session>,
    operations: seq<Operation>)

  datatype TargetEnd = Done(image: Bytes, operation: Bytes) | Failed | Incomplete | Crashed

  ghost predicate SafeEvent(e: Event, artifact: Artifact, digest: (Artifact, Target) -> Bytes) {
    var rank := RankOf(e.durable, TargetKey(e.target));
    match e.kind
    case Saved => true
    case Init => rank <= 2
    case Cleanup => rank <= Rank(e.phase) <= 2
    case Upload => rank <= 1 && e.key == KeyFor(artifact, e.target, digest)
    case Register =>
      rank <= 2 && e.key == KeyFor(artifact, e.target, digest)
      && exists o :: o in e.operations && OperationKey(o) == (e.target.config, e.ref)
  }

  ghost predicate SafeHistory(h: seq<Event>, artifact: Artifact, digest: (Artifact, Target) -> Bytes) {
    && (forall i :: 0 <= i < |h| ==> SafeEvent(h[i], artifact, digest))
    && (forall i, j :: 0 <= i < j < |h| ==> NotBehind(h[i].durable, h[j].durable))
    && (forall j :: 0 <= j < |h| && h[j].kind == Register ==> UploadedSince(h[..j], h[j].target))
  }

  /** The target has been uploaded, and since then its upload has not been cleaned up for having failed. */
  ghost predicate UploadedSince(h: seq<Event>, target: Target) {
    exists u :: 0 <= u < |h| && UploadAt(h, u, target)
  }

  ghost predicate UploadAt(h: seq<Event>, u: nat, target: Target)
    requires u < |h|
  {
    && h[u].kind == Upload && h[u].target == target
    && forall k :: u < k < |h| ==> !FailedCleanup(h[k], target)
  }

  /** The call that follows a failed Upload. */
  predicate FailedCleanup(e: Event, target: Target) {
    e.kind == Cleanup && e.target == target && e.phase == Uploading
  }

  lemma UploadedSinceGrows(h: seq<Event>, e: Event, target: Target)
    requires UploadedSince(h, target) && !FailedCleanup(e, target)
    ensures UploadedSince(h + [e], target)
  {
    var u: nat :| u < |h| && UploadAt(h, u, target);
    assert UploadAt(h + [e], u, target);
  }

  /** Nothing but saves has happened since. */
  ghost predicate OnlySaves(h: seq<Event>, later: seq<Event>) {
    h <= later && forall k :: |h| <= k < |later| ==> later[k].kind == Saved
  }

  lemma SavesKeepUpload(h: seq<Event>, later: seq<Event>, target: Target)
    requires UploadedSince(h, target) && OnlySaves(h, later)
    ensures UploadedSince(later, target)
  {
    var u: nat :| u < |h| && UploadAt(h, u, target);
    assert UploadAt(later, u, target);
  }

  /** The first call since was this one. */
  ghost predicate IsNext(h: seq<Event>, later: seq<Event>, kind: Kind, target: Target, phase: Phase) {
    && h < later && later[|h|].kind == kind && later[|h|].target == target && later[|h|].phase == phase
  }

  lemma UploadedNow(h: seq<Event>, e: Event)
    requires e.kind == Upload
    ensures UploadedSince(h + [e], e.target)
  {
    assert UploadAt(h + [e], |h|, e.target);
  }

  lemma UploadedSinceIsCalled(h: seq<Event>, target: Target)
    requires UploadedSince(h, target)
    ensures Called(h, Upload, target)
  {
    var u: nat :| u < |h| && UploadAt(h, u, target);
    assert h[u] in h;
  }

  ghost predicate HistoryUpTo(h: seq<Event>, durable: seq<Session>) {
    forall i :: 0 <= i < |h| ==> NotBehind(h[i].durable, durable)
  }

  /** The sessions a restarted process would read. */
  function Durable(d: Disk<seq<Session>>): seq<Session> {
    var r := Read(d);
    if r.Success? && r.value.Some? then r.value.value else []
  }

  function DurableOperations(d: Disk<seq<Operation>>): seq<Operation> {
    var r := Read(d);
    if r.Success? && r.value.Some? then r.value.value else []
  }

  /** The session file as this program leaves it: not written yet, or holding well-formed sessions. */
  ghost predicate CleanFile(d: Disk<seq<Session>>, artifact: Artifact, digest: (Artifact, Target) -> Bytes) {
    if d.primary.Missing? then d.backup.Missing?
    else Valid(d.primary) && SessionsOK(d.primary.value, artifact, digest)
  }

  /** The call has been made, in this process or an earlier one. */
  ghost predicate Called(h: seq<Event>, kind: Kind, target: Target) {
    exists e :: e in h && e.kind == kind && e.target == target
  }

  /** No phase is claimed without the provider call behind it. */
  ghost predicate EarnedOne(s: Session, h: seq<Event>) {
    && (s.phase != Uploading ==> UploadedSince(h, s.target))
    && (s.phase == Registered ==> Called(h, Register, s.target))
  }

  ghost predicate Earned(sessions: seq<Session>, h: seq<Event>) {
    forall s :: s in sessions ==> EarnedOne(s, h)
  }

  /** If the call is the cleanup of a failed upload, none of the sessions claims that upload. */
  ghost predicate KeepsEarned(e: Event, sessions: seq<Session>) {
    forall s :: s in sessions && FailedCleanup(e, s.target) ==> s.phase == Uploading
  }

  lemma EarnedGrows(sessions: seq<Session>, h: seq<Event>, e: Event)
    requires Earned(sessions, h) && KeepsEarned(e, sessions)
    ensures Earned(sessions, h + [e])
  {
    forall s | s in sessions ensures EarnedOne(s, h + [e]) {
      assert EarnedOne(s, h);
      if s.phase != Uploading {
        UploadedSinceGrows(h, e, s.target);
      }
      if s.phase == Registered {
        CalledGrows(h, h + [e], Register, s.target);
      }
    }
  }

  lemma CalledGrows(h: seq<Event>, later: seq<Event>, kind: Kind, target: Target)
    requires Called(h, kind, target) && h <= later
    ensures Called(later, kind, target)
  {
    assert forall e :: e in h ==> e in later;
  }

  /** A target that ended well has been uploaded and registered, by this process or an earlier one. */
  ghost predicate EndsEarned(ends: seq<TargetEnd>, targets: seq<Target>, h: seq<Event>) {
    && |ends| <= |targets|
    && forall i :: 0 <= i < |ends| && ends[i].Done? ==> Called(h, Upload, targets[i]) && Called(h, Register, targets[i])
  }

  lemma NextEnd(ends: seq<TargetEnd>, end: TargetEnd, targets: seq<Target>, h: seq<Event>, later: seq<Event>)
    requires EndsEarned(ends, targets, h) && |ends| < |targets| && h <= later
    requires end.Done? ==> Called(later, Upload, targets[|ends|]) && Called(later, Register, targets[|ends|])
    ensures EndsEarned(ends + [end], targets, later)
  {
    forall i | 0 <= i < |ends| && ends[i].Done?
      ensures Called(later, Upload, targets[i]) && Called(later, Register, targets[i])
    {
      CalledGrows(h, later, Upload, targets[i]);
      CalledGrows(h, later, Register, targets[i]);
    }
  }

  lemma NotBehindIsTransitive(a: seq<Session>, b: seq<Session>, c: seq<Session>)
    requires NotBehind(a, b) && NotBehind(b, c)
    ensures NotBehind(a, c)
  {
    forall k ensures RankOf(a, k) <= RankOf(c, k) {
      assert RankOf(a, k) <= RankOf(b, k) <= RankOf(c, k);
    }
  }

  lemma HistoryMovesOn(h: seq<Event>, before: seq<Session>, after: seq<Session>)
    requires HistoryUpTo(h, before) && NotBehind(before, after)
    ensures HistoryUpTo(h, after)
  {
    forall i | 0 <= i < |h| ensures NotBehind(h[i].durable, after) {
      NotBehindIsTransitive(h[i].durable, before, after);
    }
  }

  lemma HistoryGrows(h: seq<Event>, e: Event, artifact: Artifact, digest: (Artifact, Target) -> Bytes)
    requires SafeHistory(h, artifact, digest) && HistoryUpTo(h, e.durable) && SafeEvent(e, artifact, digest)
    requires e.kind == Register ==> UploadedSince(h, e.target)
    ensures SafeHistory(h + [e], artifact, digest) && HistoryUpTo(h + [e], e.durable)
  {
    forall j | 0 <= j <= |h| && (h + [e])[j].kind == Register
      ensures UploadedSince((h + [e])[..j], (h + [e])[j].target)
    {
      assert (h + [e])[..j] == h[..j];
      assert h[..|h|] == h;
    }
  }

  /** A write started from a clean file leaves one, and what is durable is the old list or the new one. */
  lemma SavedFile(before: Disk<seq<Session>>, sessions: seq<Session>, after: Disk<seq<Session>>, ending: Ending,
                  artifact: Artifact, digest: (Artifact, Target) -> Bytes)
    requires CleanFile(before, artifact, digest) && SessionsOK(sessions, artifact, digest)
    requires WriteStep(before, sessions, after, ending)
    ensures CleanFile(after, artifact, digest)
    ensures Durable(after) == Durable(before) || Durable(after) == sessions
    ensures ending.Written? ==> Durable(after) == sessions
  {
  }

  class Process {
    const artifact: Artifact
    const digest: (Artifact, Target) -> Bytes
    const sessionsFile: CheckpointFile<seq<Session>>
    const operationsFile: CheckpointFile<seq<Operation>>
    var sessions: seq<Session>
    ghost var history: seq<Event>

    constructor (artifact: Artifact, digest: (Artifact, Target) -> Bytes,
                 sessionsFile: CheckpointFile<seq<Session>>, operationsFile: CheckpointFile<seq<Operation>>)
      requires sessionsFile.OnDisk() == Disk(Missing, Missing) && operationsFile.OnDisk() == Disk(Missing, Missing)
      requires sessionsFile as object != operationsFile
      ensures this.artifact == artifact && this.digest == digest
      ensures this.sessionsFile == sessionsFile && this.operationsFile == operationsFile
      ensures Inv() && history == []
    {
      this.artifact, this.digest := artifact, digest;
      this.sessionsFile, this.operationsFile := sessionsFile, operationsFile;
      sessions, history := [], [];
    }

    ghost predicate DurableInv()
      reads this, sessionsFile, operationsFile
    {
      && sessionsFile as object != operationsFile && sessionsFile as object != this && operationsFile as object != this
      && CleanFile(sessionsFile.OnDisk(), artifact, digest)
      && SafeHistory(history, artifact, digest)
      && HistoryUpTo(history, Durable(sessionsFile.OnDisk()))
      && Earned(Durable(sessionsFile.OnDisk()), history)
    }

    ghost predicate Inv()
      reads this, sessionsFile, operationsFile
    {
      && DurableInv()
      && SessionsOK(sessions, artifact, digest)
      && NotBehind(Durable(sessionsFile.OnDisk()), sessions)
      && Earned(sessions, history)
    }

    /** A provider call is about to be made for a session in this phase. */
    ghost method Log(kind: Kind, target: Target, key: Bytes, ref: Bytes, phase: Phase)
      requires Inv() && SafeEvent(Now(kind, target, key, ref, phase), artifact, digest)
      requires kind == Register ==> UploadedSince(history, target)
      requires KeepsEarned(Now(kind, target, key, ref, phase), sessions)
      requires KeepsEarned(Now(kind, target, key, ref, phase), Durable(sessionsFile.OnDisk()))
      modifies this`history
      ensures Inv() && history == old(history) + [old(Now(kind, target, key, ref, phase))]
      ensures Called(history, kind, target)
    {
      ghost var e := Now(kind, target, key, ref, phase);
      EarnedGrows(sessions, history, e);
      EarnedGrows(Durable(sessionsFile.OnDisk()), history, e);
      assert e in history + [e];
      HistoryGrows(history, e, artifact, digest);
      history := history + [e];
    }

    ghost function Now(kind: Kind, target: Target, key: Bytes, ref: Bytes, phase: Phase): Event
      reads this, sessionsFile, operationsFile
    {
      Event(kind, target, key, ref, phase, Durable(sessionsFile.OnDisk()), DurableOperations(operationsFile.OnDisk()))
    }

    /** writeUploadSessions */
    method SaveSessions() returns (ending: Ending)
      requires Inv()
      modifies this`history, sessionsFile
      ensures Inv()
      ensures NotBehind(old(Durable(sessionsFile.OnDisk())), Durable(sessionsFile.OnDisk()))
      ensures ending.Written? ==> Durable(sessionsFile.OnDisk()) == sessions
      ensures |history| == |old(history)| + 1 && OnlySaves(old(history), history)
    {
      ghost var before := sessionsFile.OnDisk();
      ending := sessionsFile.Write(sessions);
      SavedFile(before, sessions, sessionsFile.OnDisk(), ending, artifact, digest);
      HistoryMovesOn(history, Durable(before), Durable(sessionsFile.OnDisk()));
      ghost var saved := Event(Saved, Target([], [], []), [], [], Uploading, Durable(sessionsFile.OnDisk()), []);
      HistoryGrows(history, saved, artifact, digest);
      EarnedGrows(sessions, history, saved);
      EarnedGrows(Durable(sessionsFile.OnDisk()), history, saved);
      history := history + [saved];
    }

    /** Replace session i by one that is not behind it. */
    method Update(i: nat, s: Session)
      requires Inv() && i < |sessions|
      requires s.target == sessions[i].target && s.key == sessions[i].key
      requires s.checksum == sessions[i].checksum && s.size == sessions[i].size && Complete(s)
      requires Rank(sessions[i].phase) <= Rank(s.phase) && EarnedOne(s, history)
      modifies this`sessions
      ensures Inv() && sessions == old(sessions)[i := s]
    {
      Advance(sessions, i, s, artifact, digest);
      NotBehindIsTransitive(Durable(sessionsFile.OnDisk()), sessions, sessions[i := s]);
      sessions := sessions[i := s];
    }

    function NewSession(target: Target): Session {
      Session(target, artifact.checksum, artifact.size, KeyFor(artifact, target, digest), [], 0, false,
              Uploading, [], None, None)
    }

    /** What a well-formed process knows about session i. */
    lemma SessionFacts(i: nat)
      requires Inv() && i < |sessions|
      ensures RankOf(Durable(sessionsFile.OnDisk()), TargetKey(sessions[i].target)) <= Rank(sessions[i].phase)
      ensures sessions[i].key == KeyFor(artifact, sessions[i].target, digest)
      ensures Complete(sessions[i]) && EarnedOne(sessions[i], history)
      ensures sessions[i].checksum == artifact.checksum && sessions[i].size == artifact.size
    {
      RankAt(sessions, i);
      assert sessions[i] in sessions;
      assert NotBehind(Durable(sessionsFile.OnDisk()), sessions);
    }

    /** While session i is uploading, no session of its target, in memory or durable, is any further. */
    lemma OnlyUploading(i: nat)
      requires Inv() && i < |sessions| && sessions[i].phase == Uploading
      ensures forall s :: s in sessions && s.target == sessions[i].target ==> s.phase == Uploading
      ensures forall s :: s in Durable(sessionsFile.OnDisk()) && s.target == sessions[i].target ==> s.phase == Uploading
    {
      SessionFacts(i);
      forall s | s in sessions && s.target == sessions[i].target ensures s.phase == Uploading {
        OneOfAKey(sessions, BY_TARGET, s, sessions[i]);
      }
      var durable := Durable(sessionsFile.OnDisk());
      forall s | s in durable && s.target == sessions[i].target ensures s.phase == Uploading {
        var k :| 0 <= k < |durable| && durable[k] == s;
        RankAt(durable, k);
      }
    }

    /** A call that is made only while session i is still in an early enough phase. */
    ghost method LogCall(kind: Kind, i: nat)
      requires Inv() && i < |sessions|
      requires (kind == Upload && sessions[i].phase == Uploading)
        || (kind in {Init, Cleanup} && sessions[i].phase != Registered)
      modifies this`history
      ensures Inv() && Called(history, kind, sessions[i].target)
      ensures IsNext(old(history), history, kind, sessions[i].target, sessions[i].phase)
      ensures kind == Upload ==> UploadedSince(history, sessions[i].target)
    {
      var s := sessions[i];
      SessionFacts(i);
      if s.phase == Uploading {
        OnlyUploading(i);
      }
      ghost var before := history;
      ghost var e := Now(kind, s.target, if kind == Upload then s.key else [], [], s.phase);
      Log(kind, s.target, if kind == Upload then s.key else [], [], s.phase);
      if kind == Upload {
        UploadedNow(before, e);
      }
    }

    /** The index of the session with the target's key, or how many sessions there are. */
    method Find(target: Target) returns (i: nat)
      ensures i <= |sessions|
      ensures i < |sessions| ==> TargetKey(sessions[i].target) == TargetKey(target)
      ensures forall j :: 0 <= j < i ==> TargetKey(sessions[j].target) != TargetKey(target)
    {
      i := 0;
      while i < |sessions|
        invariant 0 <= i <= |sessions|
        invariant forall j :: 0 <= j < i ==> TargetKey(sessions[j].target) != TargetKey(target)
      {
        if TargetKey(sessions[i].target) == TargetKey(target) {
          return;
        }
        i := i + 1;
      }
    }

    /** A session for a target that has none, sorted in but not saved. */
    method AddNew(target: Target)
      requires Inv() && forall j :: 0 <= j < |sessions| ==> TargetKey(sessions[j].target) != TargetKey(target)
      modifies this`sessions
      ensures Inv() && NotBehind(old(sessions), sessions) && NewSession(target) in sessions
      ensures multiset(sessions) == multiset(old(sessions)) + multiset{NewSession(target)}
    {
      var s := NewSession(target);
      AddSession(sessions, s, artifact, digest);
      NotBehindIsTransitive(Durable(sessionsFile.OnDisk()), sessions, Sort(sessions + [s], BY_TARGET));
      SortIsStableSort(sessions + [s], BY_TARGET);
      sessions := Sort(sessions + [s], BY_TARGET);
    }

    /** A session that is in the list is the one its key finds. */
    lemma FoundIsIt(s: Session, i: nat)
      requires Inv() && s in sessions && i <= |sessions|
      requires i < |sessions| ==> TargetKey(sessions[i].target) == TargetKey(s.target)
      requires forall j :: 0 <= j < i ==> TargetKey(sessions[j].target) != TargetKey(s.target)
      ensures i < |sessions| && sessions[i] == s
    {
      var k :| 0 <= k < |sessions| && sessions[k] == s;
      OneOfAKey(sessions, BY_TARGET, sessions[i], s);
    }

    /** ensureUploadSession: the index of the target's session. */
    method EnsureSession(target: Target) returns (ending: Ending, i: nat)
      requires Inv()
      modifies this`history, this`sessions, sessionsFile
      ensures Inv() && old(history) <= history
      ensures ending.Written? ==> i < |sessions| && sessions[i].target == target
      ensures ending.Written? ==> sessions == old(sessions) || Durable(sessionsFile.OnDisk()) == sessions
      ensures NotBehind(old(sessions), sessions)
      ensures multiset(sessions) == multiset(old(sessions))
        || multiset(sessions) == multiset(old(sessions)) + multiset{NewSession(target)}
    {
      i := Find(target);
      if i < |sessions| {
        var s := sessions[i];
        var same := s.target.provider == target.provider && s.checksum == artifact.checksum && s.size == artifact.size;
        return if same then Written else WriteFailed, i;
      }
      AddNew(target);
      ending := SaveSessions();
      if ending.Written? {
        i := Find(target);
        FoundIsIt(NewSession(target), i);
      }
    }

    /** recordUploadOperation */
    method RecordOperation(op: Operation) returns (ending: Ending)
      requires Inv()
      modifies operationsFile
      ensures Inv()
      ensures ending.Written? ==>
        var before := old(ReadOperations(operationsFile.OnDisk(), sessionsFile.OnDisk()));
        before.Success? && DurableOperations(operationsFile.OnDisk())
          == Sort(Upsert(if before.value.Some? then before.value.value else [], op), BY_KEY)
      ensures ending.Written? ==> op in DurableOperations(operationsFile.OnDisk())
    {
      if op.config == [] || op.ref == [] {
        return WriteFailed;
      }
      var read := ReadOperations(operationsFile.OnDisk(), sessionsFile.OnDisk());
      if read.Failure? {
        return WriteFailed;
      }
      var list := if read.value.Some? then read.value.value else [];
      var result := UpsertSorted(list, op);
      assert op in result by {
        RecordedOperations(list, op);
      }
      ending := operationsFile.Write(result);
    }

    /** recordUploadOperation, as far as the session machine depends on it. */
    method Record(op: Operation) returns (ending: Ending)
      requires Inv()
      modifies operationsFile
      ensures Inv()
      ensures ending.Written? ==> op in DurableOperations(operationsFile.OnDisk())
    {
      ending := RecordOperation(op);
    }

    /** The checkpoint callback handed to a resumable provider. */
    method SaveProgress(i: nat, token: Bytes, offset: int, offsetMode: bool) returns (ending: Ending)
      requires Inv() && i < |sessions|
      modifies this`history, this`sessions, sessionsFile
      ensures Inv() && OnlySaves(old(history), history)
      ensures sessions
        == old(sessions)[i := old(sessions)[i].(token := token, offset := offset, offsetMode := offsetMode)]
      ensures ending.Written? ==> Durable(sessionsFile.OnDisk()) == sessions
    {
      SessionFacts(i);
      Update(i, sessions[i].(token := token, offset := offset, offsetMode := offsetMode));
      ending := SaveSessions();
    }

    /** Any number of checkpoints by a resumable provider; a failed one makes it return an error. */
    method SaveRounds(i: nat) returns (ending: Ending)
      requires Inv() && i < |sessions|
      modifies this`history, this`sessions, sessionsFile
      ensures Inv() && OnlySaves(old(history), history)
      ensures |sessions| == |old(sessions)| && SameUpload(old(sessions)[i], sessions[i])
      ensures sessions == old(sessions)[i := sessions[i]]
    {
      ending := Written;
      var rounds: nat := *;
      while rounds > 0
        invariant Inv() && OnlySaves(old(history), history)
        invariant |sessions| == |old(sessions)| && SameUpload(old(sessions)[i], sessions[i])
        invariant sessions == old(sessions)[i := sessions[i]]
      {
        var token, offset, offsetMode := *, *, *;
        ending := SaveProgress(i, token, offset, offsetMode);
        if !ending.Written? {
          return;
        }
        rounds := rounds - 1;
      }
    }

    /** The Upload call: its result is an error (None) or a provider reference, which may be empty. */
    method CallUpload(i: nat) returns (ending: Ending, ref: Option<Bytes>)
      requires Inv() && i < |sessions| && sessions[i].phase.Uploading?
      modifies this`history, this`sessions, sessionsFile
      ensures Inv() && old(history) <= history
      ensures |sessions| == |old(sessions)| && SameUpload(old(sessions)[i], sessions[i])
      ensures sessions == old(sessions)[i := sessions[i]]
      ensures ending.WriteFailed? ==> ref == None
      ensures UploadedSince(history, old(sessions)[i].target)
    {
      LogCall(Upload, i);
      ghost var called := history;
      ending := SaveRounds(i);
      SavesKeepUpload(called, history, old(sessions)[i].target);
      if !ending.Written? {
        return ending, None;
      }
      if * {
        return Cut, None;
      }
      ref := *;
      return Written, ref;
    }

    /** The first half of processUploadTarget: make sure that the target's object is uploaded. */
    method UploadTarget(target: Target, i: nat) returns (ending: Ending)
      requires Inv() && i < |sessions| && sessions[i].target == target && sessions[i].phase.Uploading?
      modifies this`history, this`sessions, sessionsFile
      ensures Inv() && old(history) <= history
      ensures |sessions| == |old(sessions)|
      ensures ending.Written? ==> sessions[i].target == target && sessions[i].phase.Uploaded?
      ensures Called(history, Upload, target)
      ensures ending.Written? ==> Durable(sessionsFile.OnDisk()) == sessions
    {
      var ref;
      ending, ref := CallUpload(i);
      UploadedSinceIsCalled(history, target);
      if ending.Cut? {
        return;
      }
      if ref.None? {
        if !sessions[i].offsetMode {
          ghost var before := history;
          LogCall(Cleanup, i);
          CalledGrows(before, history, Upload, target);
        }
        return WriteFailed;
      }
      if ref.value == [] {
        return WriteFailed;
      }
      ending := FinishUpload(target, i, ref.value);
    }

    /** Make the finished upload durable. */
    method FinishUpload(target: Target, i: nat, ref: Bytes) returns (ending: Ending)
      requires Inv() && i < |sessions| && sessions[i].target == target && sessions[i].phase.Uploading?
      requires UploadedSince(history, target) && ref != []
      modifies this`history, this`sessions, sessionsFile
      ensures Inv() && old(history) <= history && |sessions| == |old(sessions)|
      ensures sessions[i].target == target && sessions[i].phase.Uploaded? && Called(history, Upload, target)
      ensures ending.Written? ==> Durable(sessionsFile.OnDisk()) == sessions
    {
      SessionFacts(i);
      Update(i, sessions[i].(phase := Uploaded, providerRef := ref, offset := artifact.size));
      ghost var before := history;
      UploadedSinceIsCalled(before, target);
      ending := SaveSessions();
      CalledGrows(before, history, Upload, target);
    }

    /** Make the registration durable. */
    method SaveRegistration(target: Target, i: nat, image: Bytes, operation: Bytes) returns (ending: Ending)
      requires Inv() && i < |sessions| && sessions[i].target == target && sessions[i].phase.Uploaded?
      requires Called(history, Register, target)
      modifies this`history, this`sessions, sessionsFile
      ensures Inv() && old(history) <= history
      ensures HasRegistered(sessions, target, image, operation)
      ensures ending.Written? ==> Durable(sessionsFile.OnDisk()) == sessions
    {
      SessionFacts(i);
      var s := sessions[i].(phase := Registered, image := Some(image), operation := Some(operation));
      assert EarnedOne(s, history) && Complete(s);
      Update(i, s);
      IsRegistered(sessions, i, image, operation);
      ending := SaveSessions();
    }

    /** The end of processUploadTarget: make the registration durable and record the operation again. */
    method FinishRegistration(target: Target, i: nat, op: Operation, image: Bytes, operation: Bytes)
      returns (ending: Ending)
      requires Inv() && i < |sessions| && sessions[i].target == target && sessions[i].phase.Uploaded?
      requires Called(history, Register, target)
      modifies this`history, this`sessions, sessionsFile, operationsFile
      ensures Inv() && old(history) <= history
      ensures ending.Written? ==> HasRegistered(sessions, target, image, operation)
      ensures ending.Written? ==> Durable(sessionsFile.OnDisk()) == sessions
    {
      ending := SaveRegistration(target, i, image, operation);
      if ending.Written? {
        ending := Record(op);
      }
    }

    /** The RegisterImage call: an error, or an image, which may be empty, and an operation. */
    method CallRegister(target: Target, i: nat, op: Operation)
      returns (ending: Ending, image: Option<Bytes>, operation: Bytes)
      requires Inv() && i < |sessions| && sessions[i].target == target && sessions[i].phase.Uploaded?
      requires op in DurableOperations(operationsFile.OnDisk())
      requires OperationKey(op) == (target.config, sessions[i].providerRef)
      modifies this`history
      ensures Inv() && Called(history, Register, target)
      ensures IsNext(old(history), history, Register, target, Uploaded)
    {
      SessionFacts(i);
      Log(Register, target, sessions[i].key, sessions[i].providerRef, Uploaded);
      ending, image, operation := *, *, *;
    }

    /** The second half of processUploadTarget: record the upload, register it, and record again. */
    method RegisterTarget(target: Target, i: nat) returns (end: TargetEnd)
      requires Inv() && i < |sessions| && sessions[i].target == target && sessions[i].phase.Uploaded?
      modifies this`history, this`sessions, sessionsFile, operationsFile
      ensures Inv() && old(history) <= history
      ensures !end.Incomplete?
      ensures end.Done? ==> HasRegistered(sessions, target, end.image, end.operation)
      ensures end.Done? ==> Durable(sessionsFile.OnDisk()) == sessions
      ensures !end.Crashed? ==>
        IsNext(old(history), history, Register, target, Uploaded)
        || (end.Failed? && IsNext(old(history), history, Cleanup, target, Uploaded))
    {
      var ref := sessions[i].providerRef;
      var op := Operation(target.provider, target.config, target.format, ref);
      var ending := Record(op);
      if !ending.Written? {
        if ending.Cut? {
          return Crashed;
        }
        LogCall(Cleanup, i);
        return Failed;
      }
      var image, operation;
      ending, image, operation := CallRegister(target, i, op);
      if ending.Cut? {
        return Crashed;
      }
      if image.None? || image.value == [] {
        return Failed;
      }
      ending := FinishRegistration(target, i, op, image.value, operation);
      return if ending.Written? then Done(image.value, operation) else if ending.Cut? then Crashed else Failed;
    }

    /** processUploadTarget for a session that is registered already. */
    method ReturnRegistered(target: Target, i: nat) returns (end: TargetEnd)
      requires Inv() && i < |sessions| && sessions[i].target == target && sessions[i].phase.Registered?
      modifies operationsFile
      ensures Inv() && !end.Incomplete?
      ensures end.Done? ==> HasRegistered(sessions, target, end.image, end.operation)
    {
      SessionFacts(i);
      if sessions[i].image.None? || sessions[i].operation.None? || sessions[i].providerRef == [] {
        return Incomplete;
      }
      var ending := Record(Operation(target.provider, target.config, target.format, sessions[i].providerRef));
      assert sessions[i] in sessions;
      return if ending.Written? then Done(sessions[i].image.value, sessions[i].operation.value)
             else if ending.Cut? then Crashed else Failed;
    }

    /** Building, initialising and validating the provider, which fails or crashes anywhere. */
    method InitProvider(i: nat) returns (ending: Ending)
      requires Inv() && i < |sessions| && !sessions[i].phase.Registered?
      modifies this`history
      ensures Inv() && old(history) <= history
    {
      LogCall(Init, i);
      ending := *;
    }

    /** processUploadTarget for a session that is not registered yet; every call before the upload is Init. */
    method UploadAndRegister(target: Target, i: nat) returns (end: TargetEnd)
      requires Inv() && i < |sessions| && sessions[i].target == target && !sessions[i].phase.Registered?
      modifies this`history, this`sessions, sessionsFile, operationsFile
      ensures Inv() && old(history) <= history
      ensures !end.Incomplete?
      ensures end.Done? ==> HasRegistered(sessions, target, end.image, end.operation)
      ensures end.Done? ==> Durable(sessionsFile.OnDisk()) == sessions
    {
      var ready := InitProvider(i);
      if !ready.Written? {
        return if ready.Cut? then Crashed else Failed;
      }
      if sessions[i].phase.Uploading? {
        var ending := UploadTarget(target, i);
        if !ending.Written? {
          return if ending.Cut? then Crashed else Failed;
        }
      }
      end := RegisterTarget(target, i);
    }

    /** processUploadTarget */
    method ProcessTarget(target: Target) returns (end: TargetEnd)
      requires Inv()
      modifies this`history, this`sessions, sessionsFile, operationsFile
      ensures Inv() && old(history) <= history
      ensures !end.Incomplete?
      ensures end.Done? ==> HasRegistered(sessions, target, end.image, end.operation)
      ensures end.Done? ==> Called(history, Upload, target) && Called(history, Register, target)
    {
      var ending, i := EnsureSession(target);
      if !ending.Written? {
        return if ending.Cut? then Crashed else Failed;
      }
      if sessions[i].phase.Registered? {
        end := ReturnRegistered(target, i);
      } else {
        end := UploadAndRegister(target, i);
      }
      if end.Done? {
        RegisteredWasCalled(target, end.image, end.operation);
      }
    }

    lemma RegisteredWasCalled(target: Target, image: Bytes, operation: Bytes)
      requires Inv() && HasRegistered(sessions, target, image, operation)
      ensures Called(history, Upload, target) && Called(history, Register, target)
    {
      var s :| s in sessions && s.target == target && s.phase.Registered?;
      assert EarnedOne(s, history);
      UploadedSinceIsCalled(history, target);
    }

    /** readUploadSessions at the start of a process: an error would end it, but cannot happen. */
    method LoadSessions() returns (ok: bool)
      requires DurableInv()
      modifies this`sessions
      ensures ok && Inv() && sessions == Durable(sessionsFile.OnDisk())
    {
      var read := Read(sessionsFile.OnDisk());
      if read.Failure? {
        return false;
      }
      sessions := if read.value.Some? then read.value.value else [];
      return true;
    }

    /**
     run: one process, from the sessions on disk, over all its targets; a failed target does not stop it, and
     the session file can always be read.
     */
    method Launch(targets: seq<Target>) returns (crashed: bool, ends: seq<TargetEnd>)
      requires DurableInv()
      modifies this, sessionsFile, operationsFile
      ensures DurableInv() && old(history) <= history
      ensures EndsEarned(ends, targets, history)
      ensures !crashed ==> |ends| == |targets|
    {
      ends := [];
      var loaded := LoadSessions();
      if !loaded {
        return false, ends;
      }
      for t := 0 to |targets|
        invariant Inv() && old(history) <= history
        invariant |ends| == t && EndsEarned(ends, targets, history)
      {
        ghost var before := history;
        var end := ProcessTarget(targets[t]);
        NextEnd(ends, end, targets, before, history);
        ends := ends + [end];
        if end.Crashed? {
          return true, ends;
        }
      }
      return false, ends;
    }

    /**
     Any number of processes on one workspace, each with any targets and each possibly crashing anywhere. What
     is durable about a target bounds what is ever called for it again, its calls carry one key, and each
     Register finds its object recorded.
     */
    method Launches(runs: seq<seq<Target>>)
      requires DurableInv()
      modifies this, sessionsFile, operationsFile
      ensures DurableInv() && old(history) <= history
      ensures PhasesOnlyAdvance(history)
      ensures UploadsOnlyUntilUploaded(history) && CallsOnlyUntilRegistered(history)
      ensures OneKeyPerTarget(history) && RegistersAreRecorded(history) && CleanedIsUploadedAgain(history)
    {
      for r := 0 to |runs|
        invariant DurableInv() && old(history) <= history
      {
        var crashed, ends := Launch(runs[r]);
      }
      SafeHistoryMeans(history, artifact, digest);
    }
  }

  /** No session that was durable is ever lost or set back. */
  ghost predicate PhasesOnlyAdvance(h: seq<Event>) {
    forall i, j :: 0 <= i < j < |h| ==> NotBehind(h[i].durable, h[j].durable)
  }

  /** Once a target's upload is durable, it is not uploaded again. */
  ghost predicate UploadsOnlyUntilUploaded(h: seq<Event>) {
    forall i, j :: 0 <= i < j < |h| && RankOf(h[i].durable, TargetKey(h[j].target)) >= 2 ==> h[j].kind != Upload
  }

  /** Once a target's registration is durable, no provider call is made for it. */
  ghost predicate CallsOnlyUntilRegistered(h: seq<Event>) {
    forall i, j :: 0 <= i < j < |h| && RankOf(h[i].durable, TargetKey(h[j].target)) == 3 ==> h[j].kind == Saved
  }

  ghost predicate OneKeyPerTarget(h: seq<Event>) {
    forall i, j :: 0 <= i < |h| && 0 <= j < |h| && SameObject(h[i], h[j]) ==> h[i].key == h[j].key
  }

  /** Two calls that upload or register for one target. */
  predicate SameObject(a: Event, b: Event) {
    a.target == b.target && a.kind in {Upload, Register} && b.kind in {Upload, Register}
  }

  /** At each Register call the operations on disk name the object that is registered. */
  ghost predicate RegistersAreRecorded(h: seq<Event>) {
    forall i :: 0 <= i < |h| && h[i].kind == Register ==>
      exists o :: o in h[i].operations && OperationKey(o) == (h[i].target.config, h[i].ref)
  }

  /** Call i cleans up for a target that call j registers, and it is not uploaded in between. */
  ghost predicate RegistersCleaned(h: seq<Event>, i: nat, j: nat)
    requires i < j < |h|
  {
    && h[i].kind == Cleanup && h[j].kind == Register && h[i].target == h[j].target
    && forall u :: i < u < j && h[u].target == h[j].target ==> h[u].kind != Upload
  }

  /**
   What was cleaned up after its upload had failed is uploaded again before it is registered. What was cleaned
   up because it could not be recorded is not, once its upload is durable.
   */
  ghost predicate CleanedIsUploadedAgain(h: seq<Event>) {
    forall i, j :: 0 <= i < j < |h| && h[i].kind == Cleanup && h[j].kind == Register && h[i].target == h[j].target ==>
      && (h[i].phase == Uploading ==> !RegistersCleaned(h, i, j))
      && (RankOf(h[i].durable, TargetKey(h[i].target)) == 2 ==> RegistersCleaned(h, i, j))
  }

  lemma CleanupBeforeRegister(h: seq<Event>, artifact: Artifact, digest: (Artifact, Target) -> Bytes, i: nat, j: nat)
    requires SafeHistory(h, artifact, digest) && i < j < |h|
    requires h[i].kind == Cleanup && h[j].kind == Register && h[i].target == h[j].target
    ensures h[i].phase == Uploading ==> !RegistersCleaned(h, i, j)
    ensures RankOf(h[i].durable, TargetKey(h[i].target)) == 2 ==> RegistersCleaned(h, i, j)
  {
    var t := h[j].target;
    assert UploadedSince(h[..j], t);
    var u: nat :| u < |h[..j]| && UploadAt(h[..j], u, t);
    if h[i].phase == Uploading {
      assert FailedCleanup(h[..j][i], t);
      assert i < u < j && h[u].kind == Upload;
    }
    if RankOf(h[i].durable, TargetKey(t)) == 2 {
      forall k | i < k < j && h[k].target == t ensures h[k].kind != Upload {
        NoUploadAfterUploaded(h, artifact, digest, i, k);
      }
    }
  }

  lemma RankOfOne(s: Session, k: Key)
    ensures RankOf([s], k) == if k == TargetKey(s.target) then Rank(s.phase) else 0
  {
    assert [s][1..] == [];
    assert WithKey([s][1..], BY_TARGET, k) == [];
  }

  /** The session of one target in the two phases of its upload, and the operation that names its object. */
  function SessionIn(phase: Phase, target: Target, ref: Bytes, artifact: Artifact,
                     digest: (Artifact, Target) -> Bytes): Session {
    Session(target, artifact.checksum, artifact.size, KeyFor(artifact, target, digest), [], 0, false, phase,
            if phase == Uploading then [] else ref, None, None)
  }

  /**
   The run in which an object is registered after it was cleaned up: the upload is saved as uploaded, recording
   it fails, and Cleanup is called; the next process reads the session, skips the upload, records and registers.
   */
  lemma CleanedIsRegistered(target: Target, ref: Bytes, artifact: Artifact, digest: (Artifact, Target) -> Bytes)
    returns (h: seq<Event>, saved: Disk<seq<Session>>, recorded: Disk<seq<Operation>>)
    requires target.config != [] && ref != []
    ensures var uploading := SessionIn(Uploading, target, ref, artifact, digest);
      var uploaded := SessionIn(Uploaded, target, ref, artifact, digest);
      var op := Operation(target.provider, target.config, target.format, ref);
      var none := Disk(Missing, Missing);
      && WriteStep(Disk(Stored(1, [uploading]), Missing), [uploaded], saved, Written)
      && WriteStep(none, [op], none, WriteFailed) && Durable(saved) == [uploaded]
      && WriteStep(none, [op], recorded, Written) && DurableOperations(recorded) == [op]
      && |h| == 3 && h[0].kind == Upload
      && h[1] == Event(Cleanup, target, [], [], Uploaded, [uploaded], [])
      && h[2] == Event(Register, target, uploaded.key, ref, Uploaded, [uploaded], [op])
    ensures SafeHistory(h, artifact, digest) && RegistersCleaned(h, 1, 2)
  {
    var uploading := SessionIn(Uploading, target, ref, artifact, digest);
    var uploaded := SessionIn(Uploaded, target, ref, artifact, digest);
    var op := Operation(target.provider, target.config, target.format, ref);
    saved := Disk(Stored(1, [uploaded]), Stored(1, [uploading]));
    recorded := Disk(Stored(1, [op]), Missing);
    var a := Event(Upload, target, uploading.key, [], Uploading, [uploading], []);
    var b := Event(Cleanup, target, [], [], Uploaded, [uploaded], []);
    var c := Event(Register, target, uploaded.key, ref, Uploaded, [uploaded], [op]);
    forall k ensures RankOf([uploading], k) <= RankOf([uploaded], k) {
      RankOfOne(uploading, k);
      RankOfOne(uploaded, k);
    }
    RankOfOne(uploading, TargetKey(target));
    RankOfOne(uploaded, TargetKey(target));
    assert op in c.operations && OperationKey(op) == (target.config, ref);
    var none: seq<Event> := [];
    HistoryGrows(none, a, artifact, digest);
    UploadedNow(none, a);
    HistoryMovesOn(none + [a], [uploading], [uploaded]);
    HistoryGrows(none + [a], b, artifact, digest);
    UploadedSinceGrows(none + [a], b, target);
    HistoryGrows(none + [a] + [b], c, artifact, digest);
    h := none + [a] + [b] + [c];
  }

  lemma SafeHistoryMeans(h: seq<Event>, artifact: Artifact, digest: (Artifact, Target) -> Bytes)
    requires SafeHistory(h, artifact, digest)
    ensures PhasesOnlyAdvance(h)
    ensures UploadsOnlyUntilUploaded(h) && CallsOnlyUntilRegistered(h) && OneKeyPerTarget(h) && RegistersAreRecorded(h)
    ensures CleanedIsUploadedAgain(h)
  {
    forall i, j | 0 <= i < j < |h| && h[i].kind == Cleanup && h[j].kind == Register && h[i].target == h[j].target
      ensures h[i].phase == Uploading ==> !RegistersCleaned(h, i, j)
      ensures RankOf(h[i].durable, TargetKey(h[i].target)) == 2 ==> RegistersCleaned(h, i, j)
    {
      CleanupBeforeRegister(h, artifact, digest, i, j);
    }
    forall i, j | 0 <= i < j < |h| && RankOf(h[i].durable, TargetKey(h[j].target)) >= 2 ensures h[j].kind != Upload {
      NoUploadAfterUploaded(h, artifact, digest, i, j);
    }
    forall i, j | 0 <= i < j < |h| && RankOf(h[i].durable, TargetKey(h[j].target)) == 3 ensures h[j].kind == Saved {
      NoCallAfterRegistered(h, artifact, digest, i, j);
    }
    forall i, j | 0 <= i < |h| && 0 <= j < |h| && SameObject(h[i], h[j]) ensures h[i].key == h[j].key {
      OneIdempotencyKey(h, artifact, digest, i, j);
    }
    forall i | 0 <= i < |h| && h[i].kind == Register
      ensures exists o :: o in h[i].operations && OperationKey(o) == (h[i].target.config, h[i].ref)
    {
      RecordedBeforeRegistered(h, artifact, digest, i);
    }
  }

  /** The target's session is registered, with this image and this operation. */
  ghost predicate HasRegistered(sessions: seq<Session>, target: Target, image: Bytes, operation: Bytes) {
    exists s :: s in sessions && s.target == target && s.phase.Registered? && s.image == Some(image)
      && s.operation == Some(operation) && s.providerRef != []
  }

  lemma IsRegistered(sessions: seq<Session>, i: nat, image: Bytes, operation: Bytes)
    requires i < |sessions| && sessions[i].phase.Registered? && sessions[i].providerRef != []
    requires sessions[i].image == Some(image) && sessions[i].operation == Some(operation)
    ensures HasRegistered(sessions, sessions[i].target, image, operation)
  {
    assert sessions[i] in sessions;
  }

  /** What is the same in a session while its upload runs. */
  predicate SameUpload(before: Session, after: Session) {
    after == before.(token := after.token, offset := after.offset, offsetMode := after.offsetMode)
  }

  /** Once a save has made a target's upload durable, no run uploads it again. */
  lemma NoUploadAfterUploaded(h: seq<Event>, artifact: Artifact, digest: (Artifact, Target) -> Bytes, i: nat, j: nat)
    requires SafeHistory(h, artifact, digest) && i < j < |h|
    requires RankOf(h[i].durable, TargetKey(h[j].target)) >= 2
    ensures h[j].kind != Upload
  {
    assert NotBehind(h[i].durable, h[j].durable);
  }

  /** Once a save has made a target's registration durable, no run calls its provider for it again. */
  lemma NoCallAfterRegistered(h: seq<Event>, artifact: Artifact, digest: (Artifact, Target) -> Bytes, i: nat, j: nat)
    requires SafeHistory(h, artifact, digest) && i < j < |h|
    requires RankOf(h[i].durable, TargetKey(h[j].target)) == 3
    ensures h[j].kind == Saved
  {
    assert NotBehind(h[i].durable, h[j].durable);
  }

  /** All Upload and Register calls for one target, in all runs, carry one idempotency key. */
  lemma OneIdempotencyKey(h: seq<Event>, artifact: Artifact, digest: (Artifact, Target) -> Bytes, i: nat, j: nat)
    requires SafeHistory(h, artifact, digest) && i < |h| && j < |h| && SameObject(h[i], h[j])
    ensures h[i].key == h[j].key
  {
  }

  /** Every Register call of every run finds its object already in the durable operations file. */
  lemma RecordedBeforeRegistered(h: seq<Event>, artifact: Artifact, digest: (Artifact, Target) -> Bytes, i: nat)
    requires SafeHistory(h, artifact, digest) && i < |h| && h[i].kind == Register
    ensures exists o :: o in h[i].operations && OperationKey(o) == (h[i].target.config, h[i].ref)
  {
  }
}
