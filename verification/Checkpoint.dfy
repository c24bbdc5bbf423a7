/**
 Durable checkpoints: a file replaced by rename, and a backup of its last valid content. Encoding is
 abstract: a stored file decodes to the version and value that were encoded, anything else does not decode.
 */
module Checkpoint {
  import opened Wrappers

  datatype Content<+T> = Missing | Unreadable | Corrupt | Stored(version: int, value: T)

  predicate Valid<T>(c: Content<T>) {
    c.Stored? && c.version == 1
  }

  /** How a write ends. Cut: the process died inside it. Both other failures return to the caller. */
  datatype Ending = Written | WriteFailed | Cut

  /** The checkpoint file and its `.bak`. */
  datatype Disk<+T> = Disk(primary: Content<T>, backup: Content<T>)

  /** readUploadSessions: the primary, else the backup, else an error unless neither was ever written. */
  function Read<T>(d: Disk<T>): Result<Option<T>, ()> {
    if Valid(d.primary) then Success(Some(d.primary.value))
    else if Valid(d.backup) then Success(Some(d.backup.value))
    else if d.primary.Missing? && d.backup.Missing? then Success(None)
    else Failure(())
  }

  /** Every disk a write of `value` that started from `before` can leave behind, however it ended. */
  ghost predicate WriteStep<T>(before: Disk<T>, value: T, after: Disk<T>, ending: Ending) {
    var backedUp := if Valid(before.primary) then before.(backup := before.primary) else before;
    var replaced := backedUp.(primary := Stored(1, value));
    match ending
    case Written => !before.primary.Unreadable? && after == replaced
    case WriteFailed => after == before || after == backedUp || (after == replaced && !before.primary.Unreadable?)
    case Cut => !before.primary.Unreadable? && (after == before || after == backedUp || after == replaced)
  }

  ghost predicate SomeWrite<T>(before: Disk<T>, value: T, after: Disk<T>) {
    || WriteStep(before, value, after, Written)
    || WriteStep(before, value, after, WriteFailed)
    || WriteStep(before, value, after, Cut)
  }

  class CheckpointFile<T> {
    var primary: Content<T>
    var backup: Content<T>
    var temp: Content<T>

    constructor ()
      ensures OnDisk() == Disk(Missing, Missing)
    {
      primary, backup, temp := Missing, Missing, Missing;
    }

    function OnDisk(): Disk<T>
      reads this
    {
      Disk(primary, backup)
    }

    /** writeAtomicFile: fill a temporary file, then rename it; any step can fail or be the last. */
    method WriteAtomicFile(toBackup: bool, data: Content<T>) returns (ending: Ending)
      modifies this
      ensures OnDisk() == old(OnDisk())
        || OnDisk() == if toBackup then old(OnDisk()).(backup := data) else old(OnDisk()).(primary := data)
      ensures ending.Written? ==>
        OnDisk() == if toBackup then old(OnDisk()).(backup := data) else old(OnDisk()).(primary := data)
    {
      if * {
        return WriteFailed;
      }
      temp := Corrupt;
      if * {
        return Cut;
      }
      if * {
        temp := Missing;
        return WriteFailed;
      }
      temp := data;
      if * {
        return Cut;
      }
      if * {
        temp := Missing;
        return WriteFailed;
      }
      if toBackup {
        backup := temp;
      } else {
        primary := temp;
      }
      temp := Missing;
      if * {
        return Cut;
      }
      if * {
        return WriteFailed;
      }
      return Written;
    }

    /** writeCheckpointWithBackup: back the current content up when it is valid, then replace it. */
    method Write(value: T) returns (ending: Ending)
      modifies this
      ensures WriteStep(old(OnDisk()), value, OnDisk(), ending)
    {
      if Valid(primary) {
        ending := WriteAtomicFile(true, primary);
        if !ending.Written? {
          return;
        }
      } else if primary.Unreadable? {
        return WriteFailed;
      }
      ending := WriteAtomicFile(false, Stored(1, value));
    }
  }

  /** A write cut off anywhere leaves the previous or the new value readable, never an in-between. */
  lemma WriteIsAtomic<T>(before: Disk<T>, value: T, after: Disk<T>, ending: Ending)
    requires WriteStep(before, value, after, ending)
    ensures Read(after) == Read(before) || Read(after) == Success(Some(value))
    ensures ending.Written? ==> Read(after) == Success(Some(value))
  {
  }

  /** The backup only ever becomes the value the last valid primary held; a bad primary leaves it alone. */
  lemma BackupIsLastPrimary<T>(before: Disk<T>, value: T, after: Disk<T>, ending: Ending)
    requires WriteStep(before, value, after, ending)
    ensures after.backup == before.backup || (Valid(before.primary) && after.backup == before.primary)
    ensures ending.Written? && Valid(before.primary) ==> after.backup == before.primary
    ensures !Valid(before.primary) ==> after.backup == before.backup
  {
  }

  /** Something other than this program damages the primary. */
  ghost predicate Damage<T>(before: Disk<T>, after: Disk<T>) {
    after.backup == before.backup && !Valid(after.primary) && !after.primary.Missing?
  }

  /** A history of one checkpoint: writes of any values, ending in any way, and damage to the primary. */
  ghost predicate History<T>(disks: seq<Disk<T>>, written: seq<Option<T>>) {
    |disks| == |written| + 1
    && forall i :: 0 <= i < |written| ==>
         match written[i]
         case None => Damage(disks[i], disks[i + 1])
         case Some(v) => SomeWrite(disks[i], v, disks[i + 1])
  }

  ghost predicate NoDamage<T>(written: seq<Option<T>>) {
    forall i :: 0 <= i < |written| ==> written[i].Some?
  }

  /** The content is valid and was written by this history, or was already there. */
  ghost predicate FromHistory<T>(disks: seq<Disk<T>>, written: seq<Option<T>>, n: nat, c: Content<T>)
    requires 0 < |disks|
  {
    c == disks[0].primary || c == disks[0].backup
    || exists i :: 0 <= i < n && i < |written| && written[i].Some? && c == Stored(1, written[i].value)
  }

  lemma {:induction false} ContentsComeFromWrites<T>(disks: seq<Disk<T>>, written: seq<Option<T>>, n: nat)
    requires History(disks, written) && n <= |written|
    ensures Valid(disks[n].primary) ==> FromHistory(disks, written, n, disks[n].primary)
    ensures Valid(disks[n].backup) ==> FromHistory(disks, written, n, disks[n].backup)
  {
    if n > 0 {
      ContentsComeFromWrites(disks, written, n - 1);
      if written[n - 1].Some? {
        var v := written[n - 1].value;
        var ending :| WriteStep(disks[n - 1], v, disks[n], ending);
        BackupIsLastPrimary(disks[n - 1], v, disks[n], ending);
        assert disks[n].primary == Stored(1, v) ==> FromHistory(disks, written, n, disks[n].primary);
        forall c | FromHistory(disks, written, n - 1, c) ensures FromHistory(disks, written, n, c) {
        }
      } else {
        forall c | FromHistory(disks, written, n - 1, c) ensures FromHistory(disks, written, n, c) {
        }
      }
    }
  }

  lemma {:induction false} ValidityLasts<T>(disks: seq<Disk<T>>, written: seq<Option<T>>, i: nat, j: nat)
    requires History(disks, written) && i <= j <= |written|
    ensures Valid(disks[i].backup) ==> Valid(disks[j].backup)
    ensures Valid(disks[i].primary) && NoDamage(written[i..j]) ==> Valid(disks[j].primary)
  {
    if i < j {
      ValidityLasts(disks, written, i, j - 1);
      if written[j - 1].Some? {
        var v := written[j - 1].value;
        var ending :| WriteStep(disks[j - 1], v, disks[j], ending);
        BackupIsLastPrimary(disks[j - 1], v, disks[j], ending);
        assert NoDamage(written[i..j]) ==> NoDamage(written[i..j - 1]) by {
          assert written[i..j - 1] == written[i..j][..j - 1 - i];
        }
      } else {
        assert written[i..j][j - 1 - i] == None;
      }
    }
  }

  /**
   After one write has completed, reading is never an error again as long as nothing else damages the
   primary; once a backup was taken, not even then. What is read was written by the history.
   */
  lemma ReadsNeverFailAgain<T>(disks: seq<Disk<T>>, written: seq<Option<T>>, i: nat, j: nat)
    requires History(disks, written) && i <= j <= |written|
    requires Valid(disks[i].backup) || (Valid(disks[i].primary) && NoDamage(written[i..j]))
    ensures var r := Read(disks[j]);
      r.Success? && r.value.Some? && FromHistory(disks, written, j, Stored(1, r.value.value))
  {
    ValidityLasts(disks, written, i, j);
    ContentsComeFromWrites(disks, written, j);
  }

  /** Damage after a completed write falls back to the value that write replaced. */
  lemma DamageFallsBack<T>(before: Disk<T>, value: T, after: Disk<T>, damaged: Disk<T>)
    requires WriteStep(before, value, after, Written) && Valid(before.primary) && Damage(after, damaged)
    ensures Read(damaged) == Success(Some(before.primary.value)) == Read(before)
  {
  }
}
