# Verified model of the image builder's uploads, remote builds and builder pipeline

The builder produces a disk image, uploads it to a cloud provider and registers it there. This project models the
parts in which a mistake loses or corrupts an image, and proves what they keep.

- **Uploads that survive crashes.** `Checkpoint.dfy` is the file-plus-backup checkpoint. `S3Multipart.dfy` and
  `S3Upload.dfy` are the AWS client, `PageBlob.dfy` the Azure one, `GcsResume.dfy` the Google one, each against a
  service that can expire uploads, lose replies and be asked again. `Uploader.dfy` and `UploadOperations.dfy` are the
  process around them, with its sessions and its operations file. `Artifact.dfy` is the file they read.
- **Remote builds.** `AwsRemoteBuild.dfy` and `AzureRemoteBuild.dfy` are reconciles whose only memory is a reference
  string (`Calls.dfy` has their traces and runs); `AwsBuildRef.dfy`, `AzureBuildRef.dfy` and `UrlText.dfy` are its
  codec, `AzureEvidence.dfy` the evidence gate.
- **Builder pipeline.** `SourceCache.dfy`, `ProvisionerRunner.dfy` and `IsoBuild.dfy`.
- **Small algorithms.** `BootCommand.dfy`, `VhdFooter.dfy`, `PluginRegistry.dfy` and `GcsImportUrl.dfy`.

How the model is built:

- A crash is a branch that ends a method with `Crashed` (or a write with `Cut`); the drivers named `Attempts` and
  `Launches` then start again from what is on disk and at the provider. The remote builds are pure step functions;
  there a crash keeps any prefix of a step's calls and the old reference.
- Everything outside the program (replies, faults, timing, what other containers do) is chosen arbitrarily. A provider
  is a class holding what it stores, with the behaviour its service documents; the GCS server can also be dishonest.
- A method is proved against the function or predicate its contract names, and the lemmas say what that means.
- Go strings are byte sequences, `int64` arithmetic is written out where it can wrap, JSON is an encoding that is
  undone by its own decoding and by nothing else.

Where the code does not do what one might expect:

- A Page Blob that has disappeared is created again at offset 0, but until that is checkpointed the durable token still
  names the old offset. A crash in between makes the next attempt continue over zeros (`HoleIsReached` is the run).
  `PageBlob.Attempts` says exactly what every later completed attempt leaves, and when that is the file.
- A blob that was created before its first checkpoint is refused for ever (`PreparePageBlobSession`).
- A GCS reply that acknowledges part of a chunk moves the offset back but not the reader. The attempt cannot complete,
  but the next one can complete a wrong object (`PartialReplyMisplacesBytes`). `GcsResume.Attempts` says exactly when;
  files shorter than two chunks are never affected.
- An S3 token written after a short last part is refused, by this attempt and every later one (`StuckIsReached`,
  `S3Upload.Attempts`): resuming is safe but does not always succeed. A file of exactly 10,000 parts whose parts were
  all sent cannot be completed by a resumed attempt either.
- An upload that is durable but cannot be recorded is cleaned up, and the next process still registers it without
  uploading it again (`Uploader.CleanedIsRegistered`). A failed upload that was cleaned up is uploaded again first.
- Step directories are numbered from two counters, so they collide unless init-container steps come first.
- A second sysprep provisioner in a list is dropped silently.
- A `<waitN>` above 9223372036 seconds wraps around, and typed text loses the case of its letters.
- A deregistration in the middle of RegisterFactory leaves a factory behind (`BuiltinRegistry.OrphanIff`).
- The AWS reference reads a negative index back as 0, and the Azure one drops evidence without a status.

## Model

| member | source | states |
|---|---|---|
| `S3Parts.Reconstruct` | plugins/aws/plugin.go:885-923 | Over any replies to the ListParts calls: succeeds exactly when the pages list completely and their entries, put together, are acceptable and not longer than the file; the session then holds exactly those parts and their total size; "upload gone" is reported only when the service said so. |
| `S3Parts.RebuildSplits` | plugins/aws/plugin.go:885-923 | Where the page boundaries fall makes no difference: rebuilding from two lists one after the other is rebuilding from their concatenation. |
| `S3Parts.AcceptedListingIsWellFormed` | plugins/aws/plugin.go:890-919 | Whatever a server lists, an accepted listing has parts numbered 1..n with non-empty ETags, all but possibly the last of the part size, and an offset that is their sum, at most the file size, and part-aligned or the end of the file. |
| `S3Upload.ListingIsAccepted` | plugins/aws/plugin.go:885-923 | The listing of an upload whose stored parts are numbered without a gap and hold the bytes their numbers stand for is always accepted, with every part there is and the offset where they end. |
| `S3Upload.OnePartMore` | plugins/aws/plugin.go:944-962 | Storing the part after the last one keeps the parts of an upload gap-free, tagged and right. |
| `S3Upload.PrepareMultipartSession` | plugins/aws/plugin.go:853-883 | An accepted session either continues the upload the token names, with exactly the parts the service holds, or belongs to a new upload ID with no parts, and the latter only when the token's upload is gone; with a service that answers, any token is accepted exactly when it matches and is part-aligned, and one this program wrote exactly when it says that bytes are left to send or the file is a whole number of parts. |
| `S3Upload.AlignedUnlessShortPart` | plugins/aws/plugin.go:859-861 | A token this program wrote is part-aligned, and so can be resumed from, exactly unless it was written after a short last part. |
| `S3Upload.StorePart` | plugins/aws/plugin.go:944-958 | Reading and sending one part: on success exactly that part of the file is stored under its number, and whatever happens what the service holds stays right and gap-free. |
| `S3Upload.SendPart` | plugins/aws/plugin.go:944-972 | One part: the bytes stored are those of that part of the file, the session grows by that part under the tag it was told, and is then durable; what the service holds stays right when the process dies between storing the part and the checkpoint. |
| `S3Upload.UploadMultipartResume` | plugins/aws/plugin.go:934-985 | From any accepted session: the part numbers the service is sent follow on from the parts it holds, one by one, and none lies beyond the last part of the file; the object afterwards is untouched or is the file; completion means that it is the file, with parts 1..count and a durable token that says so. A file of full size whose parts were all sent cannot be completed by a resumed attempt. |
| `S3Upload.CompleteUpload` | plugins/aws/plugin.go:973-985 | Completing a session that has reached the end of the file leaves the object as it was or makes it the file, even if the reply is lost. |
| `S3Upload.AssembledChunks` | plugins/aws/plugin.go:973-984 | Parts 1..n that hold their own chunks assemble to the first n part sizes of the file. |
| `S3Upload.CompleteAssemblesFile` | plugins/aws/plugin.go:973-984 | Completing with parts numbered from 1 that cover the file assembles exactly the file, whatever attempts stored them. |
| `S3Upload.NumbersWithinS3` | plugins/aws/plugin.go:934-985 | A file of at most 10,000 part sizes, and only such a file, needs no part number that S3 does not have. |
| `S3Upload.PrepareUpload` | plugins/aws/plugin.go:268-290 | Preparing and its checkpoint: without faults a session is accepted exactly when the durable token was not written after a short last part; what is accepted describes a prefix of the file, is what the service holds, and is durable on success; otherwise the token is left as it was. |
| `S3Upload.UploadResumable` | plugins/aws/plugin.go:268-290 | One attempt from whatever the previous ones left: the object changes only into the file, and completion means that it has; without faults a session is accepted exactly unless the durable token was written after a short last part; from such a token nothing is sent and token and object stay as they were. |
| `S3Upload.Attempts` | plugins/aws/plugin.go:268-290 | Any number of attempts from any state earlier ones can have left, each cut off anywhere, with upload IDs vanishing between any two requests: the object stays as it was or becomes the file, and is the file once an attempt has completed; if the durable token is stuck behind a short last part, none completes, nothing is sent, and token and object stay as they were. |
| `S3Upload.StuckIsReached` | plugins/aws/plugin.go:859-861 | For every file S3 can hold, the run in which all parts are sent and checkpointed and the process dies before completing: it leaves a token that is refused exactly when the last part is short. |
| `Checkpoint.CheckpointFile.WriteAtomicFile` | cmd/uploader/main.go:734-765 | However it ends, the target file holds its old content or the complete new one; success means the new one. |
| `Checkpoint.CheckpointFile.Write` | cmd/uploader/main.go:723-732 | The disk after a write, for each way it can end: unchanged, backed up only, or backed up and replaced. |
| `Checkpoint.WriteIsAtomic` | cmd/uploader/main.go:632-661 | A write cut off at any step leaves either the previous or the new list to be read; a completed one leaves the new list. |
| `Checkpoint.BackupIsLastPrimary` | cmd/uploader/main.go:723-732 | The backup only ever becomes the valid content that is being replaced; an invalid primary never overwrites it. |
| `Checkpoint.ContentsComeFromWrites` | cmd/uploader/main.go:709-765 | Over any history of writes and of damage to the primary, valid content of either file was there at the start or was written by the history. |
| `Checkpoint.ValidityLasts` | cmd/uploader/main.go:709-765 | A valid backup stays valid for ever; a valid primary stays valid until something else damages it. |
| `Checkpoint.ReadsNeverFailAgain` | cmd/uploader/main.go:632-661 | Once a write has completed and nothing else damaged the primary, or once a backup was taken, reading succeeds at every later point, with a list this history wrote. |
| `Checkpoint.DamageFallsBack` | cmd/uploader/main.go:632-661 | Damage to the primary after a completed write makes reading return the list that write replaced. |
| `Uploader.Process.EnsureSession` | cmd/uploader/main.go:664-707 | Finds the session of the target and changes nothing, or adds exactly one new session and makes the list durable; no session moves back. |
| `Uploader.Process.RecordOperation` | cmd/uploader/main.go:767-807 | On success the durable operations are the ones read before (file, backup, or rebuilt from the sessions) with this one put in and sorted. |
| `Uploader.Process.UploadTarget` | cmd/uploader/main.go:277-306 | Success leaves the session durable as uploaded with a provider reference, after a call of Upload and however many checkpoints the provider made. |
| `Uploader.Process.RegisterTarget` | cmd/uploader/main.go:314-338 | Success leaves the session durable as registered with image, operation and reference; the operation is recorded before Register is called, and if that fails Cleanup is called instead. |
| `Uploader.Process.ProcessTarget` | cmd/uploader/main.go:235-338 | From files this program wrote the incomplete-session error cannot occur, and success means a registered session with the returned image and operation, for which Upload and Register have been called, now or before. |
| `Uploader.Process.Launch` | cmd/uploader/main.go:143-183 | A whole process over any targets, crashing anywhere, keeps the history safe (see the four lemmas on histories), can always read its sessions, reaches every target unless it crashes, and reports success only for targets that were uploaded and registered. |
| `Uploader.Process.Launches` | cmd/uploader/main.go:143-183 | Any number of processes on one workspace, each crashing anywhere: durable phases only advance, a durable upload is not repeated, after a durable registration no provider is called, each target has one idempotency key, every Register finds its object in the durable operations, and what was cleaned up because its upload failed is uploaded again before it is registered. |
| `Uploader.CleanupBeforeRegister` | cmd/uploader/main.go:293-321 | Between a Cleanup and a later Register of one target there is an Upload if the Cleanup followed a failed upload, and there is none if it followed a failed recording of an upload that was durable. |
| `Uploader.CleanedIsRegistered` | cmd/uploader/main.go:314-321 | The run in which an object is registered after it was cleaned up: its recording fails after the upload was made durable, and the next process registers it without uploading it. |
| `Uploader.NoUploadAfterUploaded` | cmd/uploader/main.go:235-338 | After the durable phase of a target has reached uploaded, no later Upload call is made for it, in any run. |
| `Uploader.NoCallAfterRegistered` | cmd/uploader/main.go:235-338 | After the durable phase of a target has reached registered, no provider call is made for it again. |
| `Uploader.OneIdempotencyKey` | cmd/uploader/main.go:664-707 | All Upload and Register calls for one target, across restarts, carry the same idempotency key. |
| `Uploader.RecordedBeforeRegistered` | cmd/uploader/main.go:314-323 | At every Register call the durable operations file already holds the target's configuration name and provider reference. |
| `UploadSessions.Advance` | cmd/uploader/main.go:235-338 | Moving one session forward moves none back and keeps keys, checksums and completeness of all sessions. |
| `UploadSessions.AddSession` | cmd/uploader/main.go:664-707 | Adding a session for a new target and sorting loses no session and keeps target keys unique. |
| `UploadSessions.RebuiltOperationsAreUploads` | cmd/uploader/main.go:847-866 | Operations rebuilt from sessions are exactly the uploads that have a provider reference. |
| `UploadOperations.UpsertSorted` | cmd/uploader/main.go:767-807 | The loop and the sort of recordUploadOperation compute the sorted upsert. |
| `UploadOperations.RecordedOperations` | cmd/uploader/main.go:767-807 | The upsert keeps the list sorted, contains the new record, loses no record of another key, adds nothing else, and keeps keys unique when they were. |
| `StableSort.SortIsStableSort` | cmd/uploader/main.go:787-801 | Sorting yields a sorted permutation that keeps the order of records with equal keys. |
| `PageRanges.SplitRanges` | plugins/azure/plugin.go:1022-1041 | The ranges given to the workers partition the blob: page-aligned, in order, none overlapping, every byte covered, none longer than the chunk. |
| `PageRanges.WrittenBytes` | plugins/azure/plugin.go:1022-1041 | After any sequence of range writes a byte is the file's if some written range covers it, and the old one otherwise. |
| `PageRanges.AnyOrderWritesTheFile` | plugins/azure/plugin.go:1001-1042 | Whatever the order in which concurrent writes take effect, and however often a range is sent again, the blob is the file once every range of a partition was written. |
| `PageBlob.UploadConcurrently` | plugins/azure/plugin.go:1001-1042 | Success means the blob is exactly the file, and only a failed request or a size that is not a positive number of pages prevents it; such a size is refused without touching the blob. |
| `PageBlob.UploadBlobStream` | plugins/azure/plugin.go:865-903 | Success means the blob is exactly the first `size` bytes of the stream, which had that many. |
| `PageBlob.PreparePageBlobSession` | plugins/azure/plugin.go:924-966 | All that preparing can do: go on with the token's session on an existing blob of the right size, create a blob where there is none (even when its caller is told of an error), or nothing; with a service that answers, it succeeds exactly for a fitting token with no blob or one of the right size, or for no token and no blob: a blob a crash left before its first checkpoint is refused for ever. |
| `PageBlob.PrepareUpload` | plugins/azure/plugin.go:147-172 | Preparing and its checkpoint leave token and blob as they were, or create a blob where there was none and leave the token as it was or at offset 0; success means a fitting session that is durable, at offset 0 on a new blob. |
| `PageBlob.SendRange` | plugins/azure/plugin.go:974-983 | One range: unless the blob has gone, it afterwards holds the file's bytes up to the start or the end of the range, and on success exactly the range was replaced. |
| `PageBlob.UploadPageBlobResume` | plugins/azure/plugin.go:968-989 | The blob is overwritten exactly from the session's offset up to some point that the durable offset never passes, so a range sent again after a crash lands on itself; completion covers the whole file. |
| `PageBlob.SendAndCheckpoint` | plugins/azure/plugin.go:974-988 | One round: exactly the next range is replaced and then the new offset is durable; cut off in between, the durable offset is the old one. |
| `PageBlob.ResumedBytes` | plugins/azure/plugin.go:968-989 | Resuming over a blob that holds the file behind a hole leaves the file behind the same hole, up to where it got. |
| `PageBlob.UploadResumable` | plugins/azure/plugin.go:147-172 | One attempt, from what it found to what it left of token and blob: on a blob it found, whatever hole it had it keeps, and completing fills in the rest; on a blob it created, completing leaves the file, and a harmful hole is left only by ending in front of an untouched token; a blob without a token is refused and left alone. |
| `PageBlob.ZerosLoseThePrefix` | plugins/azure/plugin.go:939-989 | A hole of x bytes is harmless exactly for files whose first x bytes are zero. |
| `PageBlob.Attempts` | plugins/azure/plugin.go:147-172 | Any number of crashed attempts with the blob disappearing between any two requests form a run from the empty container to the present one, and each of them that completes leaves the file with the hole of the run up to it: the file itself exactly when the file has zeros there. |
| `PageBlob.RunLeavesPunched` | plugins/azure/plugin.go:924-989 | In every run the blob is in line with the durable token up to the hole of the run, which is a function of the states in between; a completed attempt leaves the file with that hole. |
| `PageBlob.HoleHasASource` | plugins/azure/plugin.go:939-963 | A hole that does any harm comes from an attempt of the run that ended between creating the blob and its checkpoint, while the durable offset was the length of the hole. |
| `PageBlob.HoleIsReached` | plugins/azure/plugin.go:939-989 | For every file and chunk size, the run of three attempts that completes with the first chunk of the blob zero: a run in the sense of Attempts, made of steps the methods are proved to take. |
| `GcsRange.OffsetOfHeader` | plugins/gcp/plugin.go:708-718 | The offset read from a 308 reply is the number of bytes the server stated, modulo 64 bits. |
| `GcsRange.OffsetIffOneRange` | plugins/gcp/plugin.go:708-718 | A header gives a non-zero offset exactly when it holds one dash with a non-negative 64-bit number after it. |
| `GcsRange.RangeOffset` | plugins/gcp/plugin.go:708-718 | For any header the offset is a non-negative 64-bit number, or the wrapped minimum. |
| `GcsResume.PrepareResumeSession` | plugins/gcp/plugin.go:553-633 | An accepted session is in step with the service: its offset is what the service holds, taken from a reply or from a new session; a live session is continued unless it is too old; no session of another upload is touched. |
| `GcsResume.PrefixIffAllRight` | plugins/gcp/plugin.go:639-660 | Bytes laid down piece by piece are a prefix of the file exactly when every piece holds the bytes that belong where it was put. |
| `GcsResume.PutKeepsAccount` | plugins/gcp/plugin.go:639-660 | A chunk read anywhere and sent for the end of its session leaves every session and the object accounted for piece by piece, however much of it was committed; nothing is displaced if it was read at the session's own offset. |
| `GcsResume.CommitIsRightIff` | plugins/gcp/plugin.go:639-660 | A session that was right is right after a round exactly when the bytes taken from the reader's position equal those at the offset. |
| `GcsResume.SendChunk` | plugins/gcp/plugin.go:637-670 | One chunk against any server: the offset strictly grows or the round fails; with an honest one the new offset is where the session now ends, everything held stays accounted for wherever the reader stands, and the session stays right exactly when the bytes taken belong there. |
| `GcsResume.UploadResume` | plugins/gcp/plugin.go:635-673 | Ends against any server. With an honest one everything held stays accounted for, and nothing is displaced unless the service answered this attempt with less than a chunk and the file has two chunks or more; an attempt so answered never completes; one that completes has a full session named by the durable token. |
| `GcsResume.UploadResumable` | plugins/gcp/plugin.go:220-239 | The same for a whole attempt, with the offset asked for again and the file re-seeked first. |
| `GcsResume.Attempts` | plugins/gcp/plugin.go:220-239 | Any number of crashed attempts with sessions ending between any two requests form a run from the empty service to the present one; each that completes leaves an object made of the pieces the service was sent, which is the file exactly when each piece holds the bytes that belong there: always for files shorter than two chunks, and as long as no reply of the service has fallen short. |
| `GcsResume.RunIsAccounted` | plugins/gcp/plugin.go:639-670 | In every run everything the service holds is accounted for piece by piece, and nothing is displaced before a reply has fallen short, or in a file shorter than two chunks. |
| `GcsResume.OnlyTheOffsetFits` | plugins/gcp/plugin.go:637-659 | Of all files of one size, a chunk read at one position and put behind the first `start` bytes keeps each a prefix exactly when the two positions agree. |
| `GcsResume.PartialReplyMisplacesBytes` | plugins/gcp/plugin.go:658-659 | For every file of two chunks or more, the run of the client's own rounds against an honest service that displaces a chunk and completes in the next attempt: the object is the file exactly when the file repeats itself at that place. |
| `GcsResume.SomeFileIsMisplaced` | plugins/gcp/plugin.go:658-659 | Every size from two chunks on has a file that this run spoils, so the bound in Attempts is sharp. |
| `GcsResume.SpoiledRunIsReached` | plugins/gcp/plugin.go:658-659 | For every size from two chunks on, a run in the sense of Attempts whose second attempt completes with an object that is not the file. |
| `GcsResume.WrongStaysWrong` | plugins/gcp/plugin.go:637-659 | Nothing laid into a session after a wrong piece makes its object the file. |
| `GcsImportUrl.ParseOfImportURL` | plugins/gcp/sdk_provider.go:265-280 | For all byte strings, parsing the import URL of a bucket and an object returns exactly them, and fails exactly when one of them is empty. |
| `GcsImportUrl.UnescapeJoined` | plugins/gcp/plugin.go:899-905 | Escaping an object name segment by segment keeps its slashes and is undone by unescaping. |
| `UrlText.UnescapeOfEscape` | plugins/gcp/sdk_provider.go:265-280 | Percent-decoding undoes percent-encoding for every byte string and each of the three escaping modes (sections 2.1 and 3.3 of RFC 3986). |
| `UrlText.ParseQueryOfEncode` | plugins/aws/remote_client.go:805-849 | A query string keeps every key and value in order, whatever bytes they hold. |
| `UrlText.ParseUrlOfString` | plugins/aws/remote_client.go:805-849 | Parsing what URL.String printed returns scheme, host, path and query values unchanged. |
| `Decimal.AtoiOfItoa` | plugins/aws/remote_client.go:805-849 | Reading a printed integer gives it back exactly when it fits 64 bits. |
| `AwsBuildRef.ParseOfToString` | plugins/aws/remote_client.go:805-849 | Parsing a printed reference returns it, with a negative index read back as 0. |
| `AwsBuildRef.RoundTrip` | plugins/aws/remote_client.go:805-849 | The round trip is exact if and only if the provisioner index is not negative. |
| `AwsRemoteBuild.StepKeepsInv` | plugins/aws/remote_client.go:140-176 | A reconcile, finished or cut off after any of its calls, keeps the run invariant and never moves the persisted index back. |
| `AwsRemoteBuild.RunIsSafe` | plugins/aws/remote_client.go:346-458 | In every run from the empty reference, provisioner k is sent only to an instance on which all before it were reported successful, only commands that were sent are polled, and CreateImage is called only for an instance on which all provisioners succeeded, the two calls before it being that the instance was described as stopped and that no image of the build was found. |
| `AwsRemoteBuild.IndexNeverDecreases` | plugins/aws/remote_client.go:398-458 | The persisted provisioner index never decreases along a run. |
| `AwsRemoteBuild.AdvanceNeedsSuccess` | plugins/aws/remote_client.go:422-458 | One reconcile moves the index by at most one, and only when SSM reported the command of that index successful. |
| `AwsRemoteBuild.DoneIsEarned` | plugins/aws/remote_client.go:555-597 | Done is reported only for a non-empty image of this build that was seen available in the same reconcile, after all provisioners succeeded on one instance, and with that instance terminated. |
| `AwsRemoteBuild.RunRefinesMachine` | plugins/aws/remote_client.go:140-176 | Carrying the state in the printed reference loses nothing: every run has the references and the calls of the machine that keeps its reference as a value. |
| `AwsRemoteBuild.WorkingCloudCompletes` | plugins/aws/remote_client.go:140-176 | With a cloud in which everything works, n provisioners take 2n+1 reconciles of the running instance, which stop it, and one of the stopped one, and the next is Done. |
| `AwsRemoteBuild.AbortsIffLost` | plugins/aws/remote_client.go:346-458 | A reconcile gives the build up exactly when the image failed, the instance is lost (gone, stopped too early, or no image can be had), or the due provisioner cannot be sent or ended without success. |
| `AwsRemoteBuild.AbortsWithCleanup` | plugins/aws/remote_client.go:639-660 | A reconcile that aborts ends with exactly the cleanup calls of its reference. |
| `AwsRemoteBuild.CleanupIsComplete` | plugins/aws/remote_client.go:647-722 | Cleanup terminates the instance, and deregisters the image and deletes each of its snapshots once they could be listed. |
| `AwsRemoteBuild.AbortCleansUp` | plugins/aws/remote_client.go:639-660 | Every exit through failRemoteBuild has attempted cleanup of the image and the instance the reference names. |
| `AzureBuildRef.ParseOfToString` | plugins/azure/remote_client.go:759-821 | Parsing a printed reference returns it, but for a negative index and for evidence fields without a status. |
| `AzureBuildRef.RoundTrip` | plugins/azure/remote_client.go:759-821 | The round trip is exact if and only if the index is not negative and evidence fields are empty when the status is. |
| `AzureEvidence.ImmutableIsPinned` | plugins/azure/remote_client.go:732-742 | A reference is immutable exactly when it is oci://, a non-empty repository, @sha256: occurring once, and 64 hex digits. |
| `AzureEvidence.AcceptedRefIsPinnedUnderRegistry` | plugins/azure/remote_client.go:711-730 | An accepted reference is pinned and is the registry itself or lies under it. |
| `AzureRemoteBuild.StepKeepsInv` | plugins/azure/remote_client.go:54-125 | A reconcile, finished or cut off, keeps the run invariant and never moves the persisted index back. |
| `AzureRemoteBuild.RunIsSafe` | plugins/azure/remote_client.go:54-125 | In every run from the empty reference provisioners run in order and images are registered only behind the gate. |
| `AzureRemoteBuild.RegistrationIsGated` | plugins/azure/remote_client.go:311-370 | At every RegisterImage call of every run all provisioners have run on that VM, it was deallocated and, if asked for, generalized before, and when evidence is required it came from the VM's last evidence provisioner and meets the policy. |
| `AzureRemoteBuild.DoneIsGated` | plugins/azure/remote_client.go:54-125 | Done is reported only for an image registered from a VM that had been through the gate. |
| `AzureRemoteBuild.ErrorsCleanUp` | plugins/azure/remote_client.go:311-402 | Every error of a reconcile that has a VM has attempted to delete the VM and its disk. |
| `AzureRemoteBuild.RunRefinesMachine` | plugins/azure/remote_client.go:54-125 | The same for the Azure reference, evidence included, which forgets evidence without a status only. |
| `AzureRemoteBuild.WorkingCloudCompletesIffGateOpens` | plugins/azure/remote_client.go:54-125 | In a cloud in which everything works, n provisioners take n+1 reconciles, and the next is Done if and only if evidence is not required or some evidence provisioner printed evidence that meets the policy. |
| `SourceChecksum.ParseIgnoresCase` | pkg/builder/engine.go:450-473 | Spellings that differ in letter case name the same checksum. |
| `SourceChecksum.ParseOfReported` | pkg/builder/engine.go:406-408 | The checksum a fetched artifact reports parses back to the algorithm and digest it was checked against. |
| `SourceCache.Files.CopyFile` | pkg/builder/engine.go:549-576 | Success copies the bytes; after a failure the destination is gone or as before, unless a remove failed too; nothing else changes. |
| `SourceCache.CopyValidCache` | pkg/builder/engine.go:322-361 | A hit serves only an entry that verifies and is not expired; an entry that does not verify is never served; an expired one is removed; other entries stay. Without faults there is a hit exactly when the entry may be served. |
| `SourceCache.WriteVerifiedSource` | pkg/builder/engine.go:383-414 | Success means the file is the body and hashes to the expected digest; a mismatch leaves no file, barring a failed remove. |
| `SourceCache.Fetch` | pkg/builder/engine.go:258-320 | From any cache content: success leaves a file hashing to the requested checksum; a stored entry verifies; policy Never adds none and a hit removes it; a mismatch leaves no file; other checksums' entries are untouched. Without faults it succeeds exactly when the entry may be served or the download hashes right. |
| `SourceCache.CachedAgreesWithPlain` | pkg/builder/engine.go:258-320 | A cached fetch and a plain download of one checksum that both succeed leave files with the same hash, hence the same file when the hash is injective. |
| `StepDirs.DirsAreDistinctIffInitFirst` | pkg/builder/provisioning.go:103-151 | No two steps share a step directory if and only if the init-container steps form a prefix of the list. |
| `StepDirs.CollisionSharesDir` | pkg/builder/provisioning.go:103-151 | Otherwise the first other step and the first init-container step after it use the same directory. |
| `ProvisionerRunner.EarlierStatusIsTaken` | pkg/builder/provisioning.go:103-120 | In that case the status the runner wrote for the earlier step is read as the success of the init container, which need not have run. |
| `ProvisionerRunner.ReadsItsOwn` | pkg/builder/provisioning.go:224-280 | In a fresh directory the only status that can be read is the one of the step's own container, whatever all containers do. |
| `ProvisionerRunner.Workspace.WaitForOutput` | pkg/builder/provisioning.go:224-249 | An output returned is one that can be read from that directory at that moment. |
| `ProvisionerRunner.RunStep` | pkg/builder/provisioning.go:83-212 | A step recorded as successful had guest access if it needed it and, for an init container, took a status file that says success, from its own directory while its own config was there; the file is still there when the step ends. |
| `ProvisionerRunner.Run` | pkg/builder/provisioning.go:53-215 | Success: one status per step, in order, all successful, the result file holds them, and exactly the other steps ran in this process, in order. Error: all recorded statuses but the last are successful. On every exit the result file holds all statuses unless a write failed. The k-th successful init-container step took the k-th answer, from directory k with its own config; with init-container steps first and an empty workspace, each answer was written by the step's own container. |
| `ProvisionerPhases.RunPreboot` | pkg/builder/qemu_iso_backend.go:382-415 | Runs the cloud-init provisioners in order and hands on the others in order; a failure has run a prefix of them. |
| `ProvisionerPhases.PartsByPhase` | pkg/builder/qemu_iso_backend.go:382-415 | What is handed on, split by the two helper functions, is exactly the other provisioners in order and the syspreps in order. |
| `ProvisionerPhases.FirstOfSyspreps` | pkg/builder/qemu_iso_backend.go:570-577 | The sysprep that is run is the first one of the list. |
| `ProvisionerPhases.AllRunIffOneSysprep` | pkg/builder/qemu_iso_backend.go:560-577 | Every provisioner of the list is run, each once, if and only if it names at most one sysprep; further ones are dropped. |
| `ProvisionerPhases.OwnOrderIffPhased` | pkg/builder/qemu_iso_backend.go:560-577 | They run in the order of the list if and only if it is cloud-init, then others, then one sysprep at most. |
| `IsoBuild.TryInGuest` | pkg/builder/qemu_iso_backend.go:217-278 | A failing stage with the VM running is followed by stopping the process and removing the disk. |
| `IsoBuild.InstallGuest` | pkg/builder/qemu_iso_backend.go:198-282 | Disk, VM, guest stages and exit happen in rank order, each only if needed; the trace of each failure is stated in full. |
| `IsoBuild.MakeArtifact` | pkg/builder/qemu_iso_backend.go:283-304 | Conversion, archive and checksum after a clean exit; a failed conversion removes the artifact. |
| `IsoBuild.Build` | pkg/builder/qemu_iso_backend.go:143-313 | Every path leaves one of the stated traces, and a successful build has run exactly the provisioners of its list in phase order. |
| `IsoBuild.StagesInOrder` | pkg/builder/qemu_iso_backend.go:198-304 | On every path stages come in the fixed order, none twice, and none follows a failed one. |
| `IsoBuild.ConversionNeedsCleanExit` | pkg/builder/qemu_iso_backend.go:279-290 | Conversion never runs unless the VM process exited cleanly, with neither a stop nor a disk removal before it. |
| `IsoBuild.GivingUpStopsTheVM` | pkg/builder/qemu_iso_backend.go:208-278 | A build that fails with the VM running stops the process and then removes the disk. |
| `IsoBuild.SuccessDidEverything` | pkg/builder/qemu_iso_backend.go:143-313 | A successful build has done every needed stage successfully; every return ends with the workspace cleaned. |
| `PluginRegistry.Registry.RegisterLocked` | pkg/plugin/registry.go:111-124 | The locked part replaces the entry and hands the previous adapter to its caller; invalid input changes nothing. |
| `PluginRegistry.Registry.DeregisterLocked` | pkg/plugin/registry.go:149-160 | The locked part removes the entry if and only if owner and UID match. |
| `PluginRegistry.Registry.RegisterExternal` | pkg/plugin/registry.go:111-134 | Undisturbed, a registration closes exactly the adapter it replaced. |
| `PluginRegistry.Registry.DeregisterExternal` | pkg/plugin/registry.go:149-166 | Undisturbed, a deregistration closes exactly the adapter it removed, and none when the UID does not match. |
| `PluginRegistry.Registry.External` | pkg/plugin/registry.go:197-211 | A lookup returns an adapter exactly when owner, UID and provider name match. |
| `PluginRegistry.RunIsAccounted` | pkg/plugin/registry.go:111-166 | In every interleaving with distinct adapters each adapter is in the map, about to be closed, or closed: one of them, once. |
| `PluginRegistry.ClosedExactlyOnce` | pkg/plugin/registry.go:111-166 | When all calls have returned, an adapter that left the map was closed exactly once and one in the map not at all. |
| `PluginRegistry.NeverClosedWhileRegistered` | pkg/plugin/registry.go:111-166 | At no point of any interleaving is an adapter closed while the map holds it. |
| `PluginRegistry.StaleDeregisterKeeps` | pkg/plugin/registry.go:149-166 | An entry survives any steps other than a new registration of its owner or a deregistration with its own UID. |
| `PluginRegistry.RegisterKeepsLiveIffFresh` | pkg/plugin/registry.go:111-134 | A registration keeps map and closed adapters apart if and only if the adapter is new to the registry. |
| `BuiltinRegistry.Builtins.RegisterFactory` | pkg/plugin/registry.go:56-78 | Undisturbed, succeeds exactly when contract, name and trial instance are right, and leaves nothing behind otherwise. |
| `BuiltinRegistry.Builtins.Install` | pkg/plugin/registry.go:74-77 | Installing a factory keeps factories paired with plugins if and only if the plugin is still registered. |
| `BuiltinRegistry.Builtins.New` | pkg/plugin/registry.go:171-192 | Returns an instance under the asked name or none; a plugin without a factory is returned itself. |
| `BuiltinRegistry.OrphanIff` | pkg/plugin/registry.go:56-99 | In any interleaving of the locked parts, a factory is without a plugin exactly when it was installed after its name had been deregistered, and the name was neither registered nor deregistered since. |
| `BuiltinRegistry.OrphanedFactory` | pkg/plugin/registry.go:56-78 | The shortest run into such a state, and what it does to a plugin registered later under the name: New hands out what the old factory makes. |
| `BootCommand.ParseBootCommand` | pkg/builder/boot_command.go:35-63 | The nested loops compute the recursive meaning of the command list, errors included. |
| `BootCommand.ParseCommand` | pkg/builder/boot_command.go:38-60 | One command: the events parsed so far, then the meaning of the rest. |
| `BootCommand.ParseAllOfConcatenation` | pkg/builder/boot_command.go:35-63 | Parsing is a homomorphism over concatenation of command lists; the first error wins. |
| `BootCommand.TextsAreGood` | pkg/builder/boot_command.go:65-70 | No text event is empty or holds a "<". |
| `BootCommand.WaitIsExact` | pkg/builder/boot_command.go:76-82 | A wait token is accepted exactly for positive 64-bit numbers, and is exact if and only if the number is at most 9223372036; a larger one wraps around instead of failing. |
| `BootCommand.ParseOfPrint` | pkg/builder/boot_command.go:35-94 | Parsing inverts printing on canonical event lists. |
| `BootCommand.ReprintedMeansTheSame` | pkg/builder/boot_command.go:35-94 | For any accepted command whose waits have not wrapped, printing its events and parsing again gives the same events. |
| `MonitorScript.BootEventsToMonitorScript` | pkg/builder/boot_command.go:96-111 | The nested loops compute one command per key, character and wait, in order. |
| `MonitorScript.ScriptOfConcatenation` | pkg/builder/qemu_iso_backend.go:315-335 | Sending events one at a time types the same as sending them together. |
| `MonitorScript.TypedAlikeIffSameLetters` | pkg/builder/boot_command.go:126-143 | Two texts are typed the same if and only if they differ in letter case at most: no letter is sent shifted. |
| `MonitorScript.KeyNameIsPlainIff` | pkg/builder/boot_command.go:126-143 | A character gets a plain key name if and only if it is a letter, a digit or one of six others; anything else is sent as it is. |
| `BootCommand.FunctionKeysAreCanonical` | pkg/builder/boot_command.go:83-88 | The function keys are F1 to F12 and no others. |
| `BootCommand.NamedKeysAreCanonical` | pkg/builder/boot_command.go:24-33 | All eight named keys are canonical. |
| `VhdFooter.Sum32` | plugins/azure/plugin.go:1375-1378 | The 32-bit byte sum of a footer is the exact sum: it never wraps. |
| `VhdFooter.ValidateChecksum` | plugins/azure/plugin.go:1369-1384 | Accepts exactly the footers whose bytes 64 to 67 hold the complement of the sum of the others, without changing the footer. |
| `VhdFooter.AcceptedIffWritten` | plugins/azure/plugin.go:1369-1384 | Writing the complement big-endian always makes a footer accepted, and a footer is accepted only with those four bytes. |
| `VhdFooter.OneByteChangeIsRejected` | plugins/azure/plugin.go:1369-1384 | Any change of exactly one byte of an accepted footer is rejected. |
| `VhdFooter.ValidateFixedVHD` | plugins/azure/plugin.go:1328-1367 | Accepts exactly the files with whole sectors, cookie, fixed type, matching size and a good checksum. |
| `VhdFooter.AppendedFooterIsAccepted` | plugins/azure/plugin.go:1328-1367 | Every non-empty disk of whole sectors becomes an accepted file by appending a footer with the right fields. |
| `VhdFooter.DamagedFooterIsRejected` | plugins/azure/plugin.go:1328-1367 | An accepted file is rejected after any change of one byte of its footer. |

## Left out

- Provider SDKs, SSH, WinRM, QMP, gRPC and HTTP themselves; provider calls are replaced by the classes and reply
  parameters described above.
- multipartUpload and PutObject of the AWS client (no resume), and the upload key and encryption settings.
- S3Upload.Bucket: S3 itself is taken to be honest, never to issue an upload ID twice, to tag
  every part, and to require the current tag; a reply can lack its tag.
- PageBlob.UploadResumable: an upload of pages takes effect as a whole or not at all; the container and blob names of a
  token are fixed, and creation of the container is not modelled.
- PageBlob.Attempts, S3Upload.Attempts, GcsResume.Attempts: what a provider removes on its own goes between two requests, not
  while one is served; the pages of one ListParts listing are one request here.
- GcsResume.Attempts: stated for an honest service; termination and the shape of offsets are proved for any service.
  The session's creation time is an arbitrary "too old" answer, and origin checks of the session URI are left out.
- Checkpoint.CheckpointFile.WriteAtomicFile: power loss between rename and flush, and left-over temporary files.
- Uploader.Process.Launch: metadata maps, timings, transient-error classification and exit codes; the artifact is the
  same in all runs of a workspace, and the hash behind the idempotency key is an arbitrary function.
- CleanupBeforeRegister: when recording fails for an upload that could not be made durable either, both outcomes are
  possible: a process that lists the target twice registers it, a later process uploads it again.
- cleanupUploadedArtifacts and fallbackUploadOperations: deletion after a cancelled build.
- AwsRemoteBuild.RunIsSafe: the order of the validation reads before a reconcile is not recorded, settings validation
  is one boolean, and EC2's client-token idempotency is not used. Provisioner lists are fixed while a build is active
  (api/v1alpha1/vmimage_webhook.go:195-197) and at most 2^63-1 long, as Go slices are.
- AzureRemoteBuild.RunIsSafe: names derived from the build ID are parameters, fallback sources of the VM ID and the
  truncation of evidence messages are not modelled.
- UrlText.ParseUrlOfString: URLs with user info, ports, IPv6 hosts or opaque parts; none is printed by this program.
- ToLower, EqualFold and TrimSpace beyond ASCII.
- SourceCache.Fetch: one fetch at a time; another process that rewrites a cache entry between its verification and
  its copy is not modelled. netguard's URL checks are one arbitrary refusal.
- ProvisionerRunner.Run: messages, artifacts, durations and redaction in statuses, and waiting without end for a
  container (the context ends after some number of polls).
- IsoBuild.Build: the making of installer media and credentials is one step that may fail; command lines are left out.
- MonitorScript.BootEventsToMonitorScript: characters beyond ASCII, and the rounding of a Duration's seconds as a floating-point number.
- OpenStack and vSphere remote clients: same pattern as AWS and Azure with fewer branches.
- Admission webhooks, pod assembly, metrics, logging and generated code: no property beyond one body.
