# Proofplane: a verified model

Proofplane stores compliance evidence. This project models the parts of it that have to stay correct
under retries, races, crashes and key rotation, and proves what they promise. One module stands for one
component; classes mirror the aggregates that the Rust code updates in place, and every such method is
specified by a function on plain data about which the theorems are stated.

* **Document quarantine pipeline** (`Documents`, `ObjectKey`, `Messaging`, `Worker`, `Pipeline*`). The API, the
  outbox dequeuer, Pub/Sub and the scan and finalization workers are one state machine whose steps are single
  transactions, store operations or network calls. A run is any sequence of steps, so it includes duplicated,
  reordered and late deliveries, lost acknowledgements, rolled back and unacknowledged commits, and a crash
  between any two steps. `PipelineWorkers` has the two handlers in their own imperative form, over tables
  and stores alone, and shows that they leave what a run of their steps leaves. For safety any published message may
  arrive at any time; `PipelineProgress` and `PipelineStranded` ask what can still be finished when Pub/Sub delivers
  only messages that it holds, which excludes dead letters. Outbox rows are read without a lock, so several dequeuers
  may publish one row, each publication being a message of its own, also after the row is gone. Documents may be
  created with any metadata and key. Quarantine keys are written once. A promotion is one atomic copy, which is true
  of a rewrite inside Cloud Storage and not of the file system store, whose copy opens the source, truncates the
  destination and streams; `PipelineDisk` and `PipelineTornCopies` follow the disk and the open sources under such
  copies, and `PipelineWitnesses` has the runs in which things go wrong. `PipelineOutcomes` says what each handler makes of
  a document, case by case, and `PipelinePolicies` what the API accepts.
* **Invitation delivery** (`Invitations`, `InvitationDelivery`). The generation-numbered aggregate and the mail
  handler: one transaction per push that locks the invitation, with clock readings before and after the mail. A
  transaction that does not commit is undone, the mail it sent is not.
* **Tokens and checksums** (`Crc`, `OpaqueToken`, `Base64Url`, `Ordering`, `ClientRegistration`, `KeyRing`, `Paseto`,
  `UploadGrants`). Words are sequences of 32 bits; the checksum lemmas hold for every reflected 32-bit
  polynomial whose top bit is set.
* **Filesystem object store** (`ObjectStore`, `ObjectStoreRuns`). The operations with a fault at any filesystem
  call, and a second machine in which puts, repeated puts, gets and deletes interleave call by call over names and
  inodes.
* **One-shot lifecycles** (`OAuthFlow`, `AuditorSessions`, `AgentConnections`, `UploadGrants`, `Workspaces`). Single use,
  absorbing states, and exactly when a reachable snapshot can be rehydrated.
* **Outbox dequeuer** (`Dequeuer`). One polling pass and the backoff.

Foreign code is a function-valued parameter, and the theorems name the laws they ask of it: SHA-256, HMAC, the
PASETO cipher, UTF-8, the JSON text of claims and client metadata, RFC 3339 printing, the URL parser, the key
reader. Clock readings, random bytes, scan verdicts, mail reports and every failure are parameters too. Times are
nanoseconds since the epoch. `Pipeline.Env` carries the key functions as parameters as well, and `Faithful` says
that they are those of `ObjectKey`.

## Findings

Places where the code does less than one might expect; each has its exact condition below.

* A pending document whose object key is invalid is forgotten: the workers acknowledge its message without looking
  at the document (`PipelineTheorems.NeverForgottenIffKeyValid`). `Document::create` and the create command let such
  a key through (`PipelineTheorems.InvalidKeyWitness`); the upload service never stages one.
* A document in progress whose message was dead-lettered stays in progress for good: nothing leads from the
  dead-letter topic back to the worker (`PipelineStranded.DeadLetteredNeverChanges`, `FinishesIff`;
  `PipelineWitnesses.StrandedWitness` gets there).
* With the file system store, a request that loaded a document before another one uploaded it can still tear or remove
  the stored object by an interrupted copy, even after the upload's name is gone from quarantine if it opened the file
  before (`PipelineTornCopies.SurvivesIffUnexposed`, `PipelineWitnesses.ExposedWitness`, `OpenSourceWitness`). The
  handler checks what the copy reported and not the disk, so a document can also be recorded as uploaded when its
  object is already torn (`PipelineWitnesses.LostBeforeUploadWitness`); `PipelineTornCopies.WholeIffNotTorn` says
  exactly when it is whole.
* Copying an object of the file system store onto itself deletes it unless it is empty (`ObjectStore.StreamCopyObject`),
  and a second put of a key breaks readers of the first (`ObjectStoreRuns.SecondPutBreaksGets`).
* `resend`, session `revoke` and the agent connection's `consume_continuation`, `activate` and `use_at` accept a
  time before creation (for the session: before the last use) and then leave a snapshot that rehydration refuses.
* A token whose lifetime lies inside one second is issued but never verifies, because times are floored to seconds.
* An authority recovered from a token matches its grant only if the grant's expiry has whole-second precision; the
  issuing command stores the floored expiry, so its grants qualify.
* Registration and authorization do not agree on loopback redirect URIs: authorization ignores their user info and
  fragment, which registration keeps apart (`ClientRegistration.SameUriIffMatches`).
* The backoff exponent stops at 30, so the delay reaches the configured maximum only if 2^30 initial delays do.

## Model

| member | source | states |
|---|---|---|
| `Crc.ValueToBits` | scripts/content-digest-crc32c.py:10-19 | A word's bits and its numeric value convert into each other without loss, so words may be reasoned about as 32 bits. |
| `Crc.TableEntry` | scripts/content-digest-crc32c.py:12-19 | The eight-fold shift loop computes eight bit-serial register steps on the byte. |
| `Crc.Table` | scripts/content-digest-crc32c.py:10-20 | The filled table holds, for each of the 256 bytes, the register that eight bit-serial steps leave. |
| `Crc.UpdateByte` | scripts/content-digest-crc32c.py:30 | One table look-up equals feeding the byte's eight bits one at a time, for every register and byte. |
| `Crc.UpdateChunk` | scripts/content-digest-crc32c.py:28-30 | The loop over a chunk equals feeding all of its bits. |
| `Crc.TableChecksum` | scripts/content-digest-crc32c.py:23-32 | The table-driven loop over any split of the input into chunks equals the bit-serial definition on the concatenation. |
| `Crc.Crc32c` | scripts/content-digest-crc32c.py:7-32 | The same for the CRC32C polynomial (section 12.1 of RFC 3720): the result does not depend on where reads split the file. |
| `Crc.BurstDetected` | scripts/content-digest-crc32c.py:10-32 | For every reflected 32-bit polynomial with the top bit set: inputs of equal length that differ only inside 32 consecutive bits, at any bit offset, have different checksums. |
| `Crc.ByteBurstDetected` | scripts/content-digest-crc32c.py:10-32 | Inputs that differ only inside four consecutive bytes have different checksums. |
| `Crc.PolynomialsQualify` | scripts/content-digest-crc32c.py:7 | The CRC32C polynomial and the CRC-32 polynomial of the token both have the top bit set. |
| `Crc.EmptyIsZero` | scripts/content-digest-crc32c.py:23-32 | Preset and inversion cancel on the empty input. |
| `Crc.LeadingZeroDetected` | scripts/content-digest-crc32c.py:23-32 | A zero byte put in front of any input changes the checksum, for both polynomials. |
| `OpaqueToken.EncodeChecksumBase62` | src/authentication/opaque_token.rs:106-116 | The digit loop fills exactly the six zero-padded base62 digits of the value, most significant first. |
| `OpaqueToken.Base62Injective` | src/authentication/opaque_token.rs:106-116 | Different numbers below 62^n have different n-digit numerals. |
| `OpaqueToken.ChecksumDigitsInjective` | src/authentication/opaque_token.rs:100-116 | Six digits tell all 32-bit checksums apart, because 62^6 exceeds 2^32. |
| `OpaqueToken.ParsesExactlyTokens` | src/authentication/opaque_token.rs:61-80 | The parser accepts a byte string if and only if it is the token of some 30-character alphabet body, and then returns the digest of the whole string. |
| `OpaqueToken.SymbolsInOrder` | src/authentication/opaque_token.rs:7-11 | The prefix, and the alphabet in its order: digits, capital letters, small letters. |
| `OpaqueToken.ParseShaped` | src/authentication/opaque_token.rs:61-80 | A well-shaped string is digested if its last six characters are its own checksum digits and gives the checksum error otherwise. |
| `OpaqueToken.BodyDamageDetected` | src/authentication/opaque_token.rs:61-80 | Replacing up to four consecutive body characters by other alphabet characters always gives the checksum error. |
| `OpaqueToken.OneCharacterDetected` | src/authentication/opaque_token.rs:61-80 | Changing any one body character of any valid token to another alphabet character gives the checksum error. |
| `OpaqueToken.Uniform` | src/authentication/opaque_token.rs:118-140 | Each of the 62 symbols has exactly four accepted byte values. |
| `OpaqueToken.TakeFrom` | src/authentication/opaque_token.rs:127-136 | One buffer contributes its accepted bytes in order until thirty characters are reached. |
| `OpaqueToken.GenerateTokenBody` | src/authentication/opaque_token.rs:118-140 | A finished body is exactly the first thirty accepted bytes of the whole random stream; no fill beyond the completing one is drawn; a failing source is reported as such. |
| `OpaqueToken.GenerateSecret` | src/authentication/opaque_token.rs:82-98 | Every generated secret parses to its own digest. |
| `Text.JoinSplit` | src/object_storage/mod.rs:137-139 | Joining the segments of a path gives the path back. |
| `Text.Trim` | src/config/helpers.rs:193-199 | Trimming leaves nothing exactly of blank strings, and what it leaves is never blank. |
| `Text.TrimIsInnerPart` | src/config/helpers.rs:193-199 | What trimming leaves is the inner part of the string: only white space before and after it, and none at its ends. |
| `Uuids.ParseFormat` | src/object_storage/mod.rs:123-130 | The canonical text of a UUID parses to that UUID. |
| `Uuids.FormatInjective` | src/handlers/document_finalization.rs:217-235 | Different UUIDs have different canonical texts. |
| `Uuids.ParsesExactly` | src/handlers/document_scan.rs:373-408 | The texts of a UUID are its digits alone, hyphenated, hyphenated in braces and hyphenated as a URN, with letters of either case for digits. |
| `ObjectKey.NewIsValid` | src/object_storage/mod.rs:106-131 | Every constructed key is accepted by the parser and splits into exactly the parts it was built from. |
| `ObjectKey.ParsesExactly` | src/object_storage/mod.rs:106-139 | What the parser accepts, segment by segment: four or more, the folder, a UUID, and none that is empty, a dot, two dots, or holds a backslash or NUL. |
| `ObjectKey.NewExists` | src/object_storage/mod.rs:106-131 | A key can be constructed exactly when every segment of prefix and name is such a segment. |
| `ObjectKey.FinalKeyParts` | src/handlers/document_finalization.rs:217-235 | A final key consists of workspace, owner folder, owner id, document id and file name, in that order, with the folder names written out. |
| `ObjectKey.StagedKeyParts` | src/services/documents.rs:37-82 | A staged key has the same parts, with the upload id in the place of the document id. |
| `ObjectKey.FinalKeyInjective` | src/handlers/document_finalization.rs:217-235 | Equal final keys come from the same workspace, document identity and file name. |
| `ObjectKey.FinalKeyExists` | src/handlers/document_finalization.rs:217-235 | A final key exists if and only if the file name is a canonical relative path. |
| `ObjectKey.StagedAndFinalShareWorkspace` | src/object_storage/mod.rs:141-143 | A staged and a final key pass the same-workspace check if and only if they are of the same workspace. |
| `ObjectKey.SameWorkspaceIff` | src/object_storage/mod.rs:141-143 | Any two constructed keys pass the check if and only if they were built for the same workspace. |
| `Messaging.DocumentWorkRoundTrip` | src/messaging.rs:98-125 | A document payload of either owner kind is read back from its JSON unchanged. |
| `Messaging.InvitationWorkRoundTrip` | src/messaging.rs:76-80 | An invitation payload with an i64 generation is read back from its JSON unchanged. |
| `Messaging.EnvelopeRoundTrip` | src/messaging.rs:221-281 | Decoding the envelope of any message gives that message back. |
| `Messaging.DecodedIsWellTyped` | src/messaging.rs:235-281 | Whatever decodes has the payload kind that its message type demands, and its own envelope decodes to it again. |
| `Messaging.DecodesExactly` | src/messaging.rs:235-281 | What becomes of an envelope that reads: only commands of the one version are decoded, only three types, each with its own payload, and which error the others give. |
| `Messaging.WorkReadsExactly` | src/messaging.rs:98-125 | Which JSON objects are document work: exactly the two fields, whose names tell the owner. |
| `Messaging.InvitationReadsExactly` | src/messaging.rs:76-80 | And which are invitation work. |
| `Worker.VersionChoosesDecoder` | src/worker.rs:307-321 | Rows of version 0 always take the legacy decoder and all other rows the typed one. |
| `Worker.TypedDelivery` | src/worker.rs:323-346 | A typed row arrives as the message it was appended for, with its own message id, subject, correlation id and payload. |
| `Worker.LegacyDelivery` | src/worker.rs:348-368 | A version-0 row with a subject decodes to the appended message under the push's message id; a blank subject gives exactly the missing-aggregate-id error. |
| `Worker.WireFormsAgree` | src/worker.rs:288-368 | For the same work the two wire forms decode to messages that are equal except for the message id, and route alike. |
| `Worker.PayloadParsersAgree` | src/handlers/document_finalization.rs:188-215 | The two handlers' payload parsers accept the same messages and read the same payload. |
| `Worker.AcceptsExactly` | src/handlers/document_scan.rs:373-408 | Which messages the document handlers accept, and as what: aggregate id, key, and the owner that the aggregate type asks for. |
| `Worker.RoutesExactly` | src/worker.rs:238-306 | Exactly the event types that are none of the three go to no handler. |
| `Worker.LegacyAcceptsExactly` | src/worker.rs:348-430 | A legacy message is accepted exactly when it has all of its parts and its request id, if any, is a UUID, and is then read as those parts. |
| `Worker.WorkArrivesUnchanged` | src/handlers/document_scan.rs:373-408 | Identity and valid object key survive constructor, envelope, row, published JSON, push decoding and payload parsing in both wire forms; invalid keys are refused. |
| `Documents.TransitionsEvolve` | src/domain/document.rs:177-241 | Every transition only moves the status forward, leaves archived documents alone, changes the key only on upload, and keeps archived documents terminal. |
| `Documents.Document.Create` | src/domain/document.rs:140-175 | Creation fails exactly on owner mismatch or negative length, and otherwise yields a pending document with the given fields and its scan event. |
| `Documents.Document.TransitionTo` | src/domain/document.rs:229-241 | A transition from another status or of an archived document changes nothing and emits nothing. |
| `Documents.Document.ScanClean` | src/domain/document.rs:177-187 | A pending document that is not archived becomes finalizing with its finalization event; any other stays as it is. |
| `Documents.Document.ScanMalicious` | src/domain/document.rs:188-195 | A pending document that is not archived becomes contains-virus, in no other field, without an event; any other stays as it is. |
| `Documents.Document.ScanFailed` | src/domain/document.rs:196-203 | Likewise it becomes failed. |
| `Documents.Document.FinalizeUploaded` | src/domain/document.rs:204-212 | A finalizing document that is not archived becomes uploaded under the final key; any other stays as it is. |
| `Documents.Document.Archive` | src/domain/document.rs:213-228 | Archived exactly when uploaded, infected or failed before, refused while the upload is in progress, ignored when repeated; nothing else changes. |
| `Pipeline.DecodingGivesFirstStage` | src/worker.rs:238-306 | Whatever wire form and attempt a delivery has, the worker starts at the handler meant for the row with the row's own payload, or acknowledges at once exactly when the key is invalid. |
| `PipelineInvariants.StageKept` | src/handlers/document_finalization.rs:42-130 | What a running request knows about its document stays true while any other step happens. |
| `PipelineInvariants.ListKeeps` | src/persistence/outbox.rs:139-177 | A dequeuer reads a row without a lock, so others may read it too; this keeps the pipeline invariant. |
| `PipelineInvariants.UnlistKeeps` | src/dequeuer/mod.rs:106-123 | So does giving up on a row that was read. |
| `PipelineInvariants.PublishKeeps` | src/dequeuer/mod.rs:95-104 | Publishing a row that was read keeps it, even when another dequeuer has deleted the row meanwhile; every publication is a message of its own. |
| `PipelineInvariants.DeleteRowKeeps` | src/dequeuer/mod.rs:100-104 | Deleting a published row keeps it. |
| `PipelineInvariants.DeliverKeeps` | src/worker.rs:200-286 | Delivering a published message, any number of times and in any order, keeps it. |
| `PipelineInvariants.AcknowledgeKeeps` | src/worker.rs:220-236 | Acknowledging happens only when the message's work is done or its key is invalid. |
| `PipelineSteps.NotFoundMeansDone` | src/persistence/reads/documents.rs:20-71 | When the work query finds nothing, the row's work has already been done. |
| `PipelineSteps.LoadScanKeeps` | src/handlers/document_scan.rs:82-94 | Loading pending work yields the work the document was created with. |
| `PipelineSteps.FetchKeeps` | src/handlers/document_scan.rs:98-153 | Only bytes with the recorded type, length and digest reach the scanner; other outcomes fail or retry. |
| `PipelineSteps.VerdictKeeps` | src/handlers/document_scan.rs:154-183 | A clean decision means that the scanner called exactly the uploaded bytes clean. |
| `PipelineSteps.ApplyScanKeeps` | src/handlers/document_scan.rs:185-290 | Recording a verdict, acknowledged, unacknowledged or rolled back, keeps the invariant. |
| `PipelineSteps.ScanCommandKeeps` | src/application/commands/documents.rs:567-600 | The scan command writes document and finalization row together and keeps the invariant. |
| `PipelineSteps.PromoteKeeps` | src/handlers/document_finalization.rs:73-78 | Copying under the final key never harms another document's verified copy. |
| `PipelineSteps.CheckCopyKeeps` | src/handlers/document_finalization.rs:80-96 | A copy that does not match is not finalized, and deleting it harms no verified copy. |
| `PipelineSteps.ApplyFinalizeKeeps` | src/handlers/document_finalization.rs:100-111 | Finalizing after a verified copy keeps the invariant whether or not the commit is acknowledged. |
| `PipelineSteps.DeleteSourceKeeps` | src/handlers/document_finalization.rs:115-129 | Deleting the quarantine object after finalization keeps the invariant. |
| `PipelineSteps.CreateDocumentKeeps` | src/application/commands/documents.rs:193-335 | Creating a document together with its scan row keeps the invariant, whatever metadata and key it is given. |
| `PipelineSteps.ArchiveDocumentKeeps` | src/application/commands/documents.rs:523-566 | Archiving a document keeps the invariant. |
| `PipelineSteps.ArchivePolicyKeeps` | src/application/commands/policies.rs:183-228 | The guard on archiving a policy keeps every document in progress visible to the workers. |
| `PipelineSteps.FinalizeCommandKeeps` | src/application/commands/documents.rs:601-629 | The finalize command moves only a finalizing document whose verified copy is stored. |
| `PipelineSteps.FinalKeysDiffer` | src/handlers/document_finalization.rs:217-235 | No two documents share a final key. |
| `PipelineSteps.NextKeeps` | src/handlers/document_finalization.rs:42-130 | Every step of the API, the dequeuer, Pub/Sub and both workers keeps the invariant and only moves documents forward. |
| `PipelineSteps.RunKeeps` | src/handlers/document_scan.rs:63-183 | So does every run: any interleaving, duplication, reordering, redelivery and crash between steps. |
| `PipelineTheorems.UploadedIsClearedAndStored` | src/handlers/document_finalization.rs:57-127 | In every reachable state an uploaded document lives at the key of its own identity, the evidence store holds there an object of its content type, length and SHA-256, and the scanner called exactly those bytes clean. |
| `PipelineTheorems.InfectedWasCalledMalicious` | src/handlers/document_scan.rs:154-183 | In every reachable state a document marked as infected is so because the scanner called malicious exactly the bytes uploaded for it, which have the recorded type, length and SHA-256. |
| `PipelineTheorems.VerdictsAreFinal` | src/domain/document.rs:177-241 | Over every later run virus and failed verdicts never change, an upload keeps its key, and an archived document never changes at all. |
| `PipelineTheorems.PendingHasScanMessage` | src/domain/document.rs:140-175 | In every reachable state a pending document with a valid key has its scan message in the outbox, in flight or dead-lettered. |
| `PipelineTheorems.FinalizingHasFinalizationMessage` | src/handlers/document_finalization.rs:42-130 | Likewise every finalizing document and its finalization message; no document gets that far with an invalid key. |
| `PipelineTheorems.RowsLeaveOnlyPublished` | src/dequeuer/mod.rs:62-123 | A row is gone from the outbox only after Pub/Sub has it. |
| `PipelineTheorems.EventsAreUnique` | src/domain/document.rs:140-241 | A document has at most one scan row and at most one finalization row over its whole life. |
| `PipelineTheorems.NeverForgottenIffKeyValid` | src/handlers/document_scan.rs:63-81 | A pending document keeps its message through all later runs if and only if its key is one the workers accept or the message is dead-lettered; otherwise some run acknowledges it and leaves the document pending. |
| `PipelineTheorems.InvalidKeyWitness` | src/domain/document.rs:140-175 | Such a document is reachable: the create command takes any key, so one creation under the empty key is enough. |
| `PipelineTheorems.StagedKeysAreValid` | src/services/documents.rs:37-82 | Keys that the upload service stages are always valid. |
| `PipelineWorkers.DocumentWorker.LoadUploadWork` | src/persistence/reads/documents.rs:20-71 | The work query returns the document's own work exactly when it is visible, has the identity and key of the message and is at the asked status. |
| `PipelineWorkers.DocumentWorker.ScanDocument` | src/application/commands/documents.rs:567-600 | The transaction of the scan command leaves the tables of the protocol's scan command: document, outbox row and their history together. |
| `PipelineWorkers.DocumentWorker.FinalizeDocument` | src/application/commands/documents.rs:601-629 | Likewise for the finalize command; the result says whether the document changed. |
| `PipelineWorkers.DocumentWorker.FetchAndCompare` | src/handlers/document_scan.rs:98-153 | Missing objects fail at once; read errors and mismatches fail on the last delivery and are retried before it; an invalid key or negative length is retried: as the protocol's fetch step has it. |
| `PipelineWorkers.DocumentWorker.ScanAndApply` | src/handlers/document_scan.rs:154-183 | Scanning and recording the verdict are the protocol's two steps. |
| `PipelineWorkers.DocumentWorker.AskScanner` | src/handlers/document_scan.rs:154-183 | What the scanner says becomes the result; a scanner error counts as a failure only on the last delivery. |
| `PipelineWorkers.DocumentWorker.ApplyResult` | src/handlers/document_scan.rs:185-290 | The verdict is recorded in one transaction, whose acknowledgement decides whether the handler succeeds. |
| `PipelineWorkers.DocumentWorker.HandleScanRequested` | src/handlers/document_scan.rs:63-183 | The scan handler, written over tables and stores alone, leaves exactly those of the run of its four protocol steps and returns as that run does; with work to do, an intact upload, a verdict and a commit it marks the document finalizing, infected or failed as the scanner says. |
| `PipelineWorkers.DocumentWorker.Promote` | src/handlers/document_finalization.rs:73-78 | Without a final key, across workspaces, without the object or on an error nothing is copied; otherwise the object is stored under the final key even if the answer is lost. |
| `PipelineWorkers.DocumentWorker.CheckCopied` | src/handlers/document_finalization.rs:80-96 | A copy of another type, length or digest is deleted if possible and the message is retried. |
| `PipelineWorkers.DocumentWorker.ApplyAndDelete` | src/handlers/document_finalization.rs:100-129 | The finalize command's outcome decides whether the quarantine object is deleted and how the handler returns. |
| `PipelineWorkers.DocumentWorker.HandleFinalizationRequested` | src/handlers/document_finalization.rs:42-130 | The finalization handler leaves exactly the tables and stores of the run of its five protocol steps and returns as that run does. |
| `PipelineOutcomes.LoadsExactly` | src/persistence/reads/documents.rs:20-71 | The work query finds a document exactly when identity, key and status are as asked, it is not archived and neither is its policy, and reads its recorded fields. |
| `PipelineOutcomes.LastDeliveryIff` | src/handlers/document_scan.rs:63-97 | A delivery counts as the last one exactly when its attempt number has reached the maximum. |
| `PipelineOutcomes.DecidesExactly` | src/handlers/document_scan.rs:98-183 | What the scan handler decides in each case of key, read, presence, length, match and verdict: what cannot be known is tried again until the last delivery and then counts as a failure, a missing upload fails at once, a key or length that cannot be right is tried again for ever. |
| `PipelineOutcomes.ScanOutcome` | src/handlers/document_scan.rs:63-290 | The whole scan handler on loadable work: which status, in which document alone, and what it answers, in every case and with every commit outcome. |
| `PipelineOutcomes.NothingToScan` | src/handlers/document_scan.rs:82-97 | Without work to load it changes nothing and answers success. |
| `PipelineOutcomes.FinalizationOutcome` | src/handlers/document_finalization.rs:42-130 | The whole finalization handler when the upload is copied: only an acknowledged copy that matches is recorded, under the final key, and only then is the upload deleted; a copy that does not match is removed if possible. |
| `PipelineOutcomes.NothingCopied` | src/handlers/document_finalization.rs:73-78 | When nothing is copied everything stays as it was and the message is tried again. |
| `PipelineOutcomes.NothingApplied` | src/application/commands/documents.rs:601-629 | When the finalize command finds nothing to do the message is done and the upload is left where it is. |
| `PipelinePolicies.CreatesExactly` | src/application/commands/documents.rs:193-335 | When the create command takes a document, exactly, and the row, event and outbox entry it writes. |
| `PipelinePolicies.OneCurrentDocument` | src/application/commands/documents.rs:193-335 | In every reachable state a policy has at most one document that is not archived. |
| `PipelinePolicies.PolicyTakesDocumentIff` | src/application/commands/documents.rs:193-335 | Hence a live policy takes a new document exactly when it has no current one, in whatever workspace. |
| `PipelinePolicies.ArchivesPolicyIff` | src/application/commands/policies.rs:183-228 | In every reachable state a live policy is archived exactly when none of its current documents is in progress. |
| `PipelinePolicies.ArchivesDocumentIff` | src/application/commands/documents.rs:523-566 | A document is archived exactly when it is uploaded, infected or failed; nothing else about it changes. |
| `PipelinePolicies.UnlistUndoesList` | src/dequeuer/mod.rs:106-123 | Reading a row and giving up on it leaves no trace. |
| `PipelineFrames.TurnIsCalm` | src/handlers/document_finalization.rs:42-130 | Every step of a request publishes and acknowledges nothing, brings no old row back, moves only its own request, and writes documents and evidence only as its two commands, its copy and its clean-up say. |
| `PipelineFrames.QueueHasEffect` | src/dequeuer/mod.rs:62-123 | Reading, publishing and deleting rows, dead-lettering, delivering, acknowledging and crashing leave documents and stores alone; a row is read only from the outbox, a message appears only from a row that was read, and a request only by delivery of its message. |
| `PipelineFrames.ApiIsCalm` | src/application/commands/documents.rs:523-566 | No API step changes a document in progress or a message that is already there. |
| `PipelineProgress.FinalizingFinishes` | src/handlers/document_finalization.rs:42-130 | A finalizing document whose upload is intact, whose final key exists in its workspace and whose message is in the outbox, read by a dequeuer or held by Pub/Sub can be carried to uploaded by deliveries of held messages only. |
| `PipelineProgress.PendingFinishes` | src/handlers/document_scan.rs:63-183 | The same for a pending document, through scan and finalization. |
| `PipelineProgress.WorkedOnFinishes` | src/handlers/document_finalization.rs:42-130 | The same from any stage of a running request that has no verdict against the document. |
| `PipelineStranded.RunStaysStranded` | src/pubsub/emulator.rs:68-81 | Over every run that delivers only held messages, a document whose message is gone, from dequeuers that have read it as well, and is worked on at most by requests with a verdict against it stays as it is or takes that verdict. |
| `PipelineStranded.DeadLetteredNeverChanges` | src/pubsub/emulator.rs:68-81 | A document in progress whose message is neither in the outbox nor read by a dequeuer that may still publish it nor held by Pub/Sub, with no request for it running, never changes in such a run; its message is a dead letter or had an invalid key. |
| `PipelineStranded.FinishesIff` | src/handlers/document_finalization.rs:42-130 | In every reachable state a document in progress with an intact upload and a final key can still be uploaded by deliveries of held messages if and only if its message is in the outbox, read by a dequeuer that may still publish it, or held, or a request for it runs that has no verdict against it. |
| `PipelineDisk.DiskRunKeeps` | src/object_storage/mod.rs:61-99 | Over every run in which promotions are opened, written piece by piece, interrupted and finished in any interleaving, every object the protocol knows of is the upload of the one document with that key, every open source is the upload its request was asked to promote, and the disk differs from the evidence store exactly where the last write was not a whole copy. |
| `PipelineDisk.ProtocolRunsEmbed` | src/object_storage/mod.rs:61-99 | Every run of the protocol with its atomic promotions is such a run, in which no promotion is interrupted and the disk is the evidence store. |
| `PipelineDisk.EvidenceStaysInWorkspace` | src/object_storage/mod.rs:71-73 | In every such run what is stored under a final key of some workspace was uploaded under a quarantine key whose second segment is the text of that workspace's id, for a document of that workspace. |
| `PipelineDisk.ProtocolStaysInWorkspace` | src/handlers/document_finalization.rs:73-78 | The same for every run of the protocol with atomic copies. |
| `PipelineDisk.OverlapSpoils` | src/object_storage/mod.rs:492-524 | Of two promotions that write one key at once, the one that began first may leave anything, and the key counts as torn unless that is its whole source. |
| `PipelineDisk.DiscardSpoils` | src/handlers/document_finalization.rs:80-96 | So may one whose file is deleted by a request that found its own copy bad. |
| `PipelineTornCopies.SurvivesIffUnexposed` | src/object_storage/mod.rs:424-524 | In every state that such runs reach, the object of an uploaded document survives all later ones if and only if it is there and no request that loaded the document earlier has the source open, whether or not its name still exists, or can still open it. |
| `PipelineTornCopies.TornIff` | src/object_storage/mod.rs:492-524 | The history of torn keys says just this of the run: some write to the key left something other than the whole source, and no later one left the whole. |
| `PipelineTornCopies.WholeIffNotTorn` | src/handlers/document_finalization.rs:73-127 | Over every such run the object of an uploaded document on the disk is the upload, which has the recorded type, length and SHA-256 and was scanned clean, if and only if no copy to its key was torn after the last whole one; a torn object that still matches would be a collision of the digest. |
| `PipelineTornCopies.StaysWholeIff` | src/object_storage/mod.rs:61-99 | It is the upload now and after every continuation if and only if, besides, no request has the source open or can still open it. |
| `PipelineWitnesses.StrandedWitness` | src/pubsub/emulator.rs:68-81 | A stranded document is reachable: staged, published, its row deleted and its message dead-lettered, it is in progress, intact and promotable, and no run that delivers only held messages changes it. |
| `PipelineWitnesses.ExposedWitness` | src/object_storage/mod.rs:380-392 | An uploaded document that can lose its whole object is reachable, and so is one that has lost it: two deliveries of its finalization message loaded the work before one of them uploaded it, and the other is interrupted in its copy. |
| `PipelineWitnesses.OpenSourceWitness` | src/object_storage/mod.rs:424-439 | The same after the upload was deleted from quarantine, when no request can open it any more: one that opened it before can still lose the object. |
| `PipelineWitnesses.LostBeforeUploadWitness` | src/handlers/document_finalization.rs:73-111 | A run in which the object is lost between the copy and the recording of the upload: the handler verifies what its copy reported, and the document is uploaded with no object. |
| `Base64Url.DecodeIff` | src/authentication/client_registration.rs:25 | The strict decoder (section 5 of RFC 4648) accepts exactly the encoder's output: every byte string has one spelling. |
| `Base64Url.LongerExamples` | src/authentication/client_registration.rs:25 | The last example of section 10 of RFC 4648. |
| `Ordering.Sort` | src/authentication/client_registration.rs:121 | Sorting yields a sorted permutation. |
| `Ordering.Dedup` | src/authentication/client_registration.rs:122 | Dropping equal neighbours of a sorted list yields the strictly sorted list of the same set. |
| `Ordering.CanonicalUnique` | src/authentication/client_registration.rs:115-134 | A finite set of strings has exactly one strictly sorted list. |
| `ClientRegistration.FromConfig` | src/authentication/client_registration.rs:99-112 | The ring holds for each configured id the key derived from its last secret; a ring without the active id is refused. |
| `ClientRegistration.Register` | src/authentication/client_registration.rs:115-134 | Registration keeps the name and stores, strictly sorted, exactly the given URIs with the port of loopback URLs taken off, and signs exactly that metadata with the active key. |
| `ClientRegistration.NormalizesExactly` | src/authentication/client_registration.rs:219-242 | A URI that does not parse, or is not HTTP on one of the four loopback hosts, is kept as it is; of the others only the port goes. |
| `ClientRegistration.StoredUris` | src/authentication/client_registration.rs:115-134 | Each given URI that is no loopback URL is stored as itself, each loopback URL without its port, and nothing else is stored. |
| `ClientRegistration.LoopbackPortIgnored` | src/authentication/client_registration.rs:219-235 | Loopback HTTP URIs that differ only in the port normalize alike (section 7.3 of RFC 8252). |
| `ClientRegistration.SameIdIffSameClient` | src/authentication/client_registration.rs:115-157 | Two registrations get the same client id if and only if the names are equal and the sets of normalized URIs are equal. |
| `ClientRegistration.SameIdIffSameUri` | src/authentication/client_registration.rs:219-242 | Two registrations of one URI each get the same client id if and only if the names are equal and the URIs are equal or are loopback URLs that differ only in the port. |
| `ClientRegistration.SignedIdText` | src/authentication/client_registration.rs:144-157 | The text of an id: prefix, version, key id and metadata, and last the signature of everything before it. |
| `ClientRegistration.SameUriIffMatches` | src/services/oauth.rs:566-588 | Registration takes two URIs for the same exactly when authorization matches them and, if they are not equal, their user info and fragment agree; authorization ignores those two on loopback. |
| `ClientRegistration.RegisteredUriMatches` | src/services/oauth.rs:183-195 | Whatever was registered matches a stored URI at authorization, on loopback with any port. |
| `ClientRegistration.RegistrationIdempotent` | src/authentication/client_registration.rs:115-134 | Registering what was registered gives the same client again. |
| `ClientRegistration.ResolveUnderRing` | src/authentication/client_registration.rs:136-193 | What a minted id resolves to under any ring: unknown key, invalid signature, or exactly the metadata it carries. |
| `ClientRegistration.UnrecognizedIff` | src/authentication/client_registration.rs:136-142 | Exactly the ids without the prefix are left to other registries. |
| `ClientRegistration.RegisteredClientResolves` | src/authentication/client_registration.rs:136-193 | A registered client resolves to exactly what was registered under every later ring that still holds the minting key. |
| `ClientRegistration.VerifiedIffMinted` | src/authentication/client_registration.rs:159-193 | An id resolves to a client if and only if it is the signature of that client's metadata under a held key. |
| `Invitations.CreatedIsValid` | src/domain/workspace_invitation.rs:127-161 | Creation succeeds exactly for a non-blank address and an expiry in a later second, and yields a loadable snapshot. |
| `Invitations.ShowsLastStep` | src/domain/workspace_invitation.rs:90-105 | What is shown of the delivery follows the last step that went through: queued, delivered, failed, or nothing yet; queueing again what was delivered shows delivered. |
| `Invitations.ClosedIsFrozen` | src/domain/workspace_invitation.rs:246-353 | No transition changes an accepted or revoked invitation in any field. |
| `Invitations.OtherGenerationChangesNothing` | src/domain/workspace_invitation.rs:265-353 | Every generation-checked step that names another generation changes nothing. |
| `Invitations.SnapshotClosedIff` | src/domain/workspace_invitation.rs:163-305 | A step keeps a loadable snapshot loadable except exactly for a resend of the current, open, unexpired generation below the maximum whose new expiry is after its own time but not after creation. |
| `Invitations.SnapshotClosedInOrder` | src/domain/workspace_invitation.rs:283-305 | A resend stamped no earlier than creation always keeps it loadable. |
| `Invitations.BackwardResendPoisons` | src/domain/workspace_invitation.rs:283-305 | With a clock that went back, resend succeeds and leaves an invitation that rehydration refuses. |
| `Invitations.WorkspaceInvitation.Rehydrate` | src/domain/workspace_invitation.rs:163-219 | Rehydration accepts exactly the consistent snapshots and keeps every field. |
| `Invitations.WorkspaceInvitation.Accept` | src/domain/workspace_invitation.rs:246-263 | The accepting user replays, another user is refused, anything not pending is unavailable. |
| `Invitations.WorkspaceInvitation.QueueDelivery` | src/domain/workspace_invitation.rs:265-281 | Queueing the current generation records it and clears the failure. |
| `Invitations.WorkspaceInvitation.Resend` | src/domain/workspace_invitation.rs:283-305 | Resending raises the generation by one unless it would overflow, with the new expiry and a cleared failure. |
| `Invitations.WorkspaceInvitation.Revoke` | src/domain/workspace_invitation.rs:307-320 | Only the current, pending generation can be revoked. |
| `Invitations.WorkspaceInvitation.RecordDeliverySuccess` | src/domain/workspace_invitation.rs:322-337 | Success is recorded for the current pending generation only and clears the failure. |
| `Invitations.WorkspaceInvitation.RecordDeliveryFailure` | src/domain/workspace_invitation.rs:339-353 | Failure is recorded for the current pending generation only. |
| `InvitationDelivery.CommandArrives` | src/messaging.rs:170-186 | The message that queues a mail is decoded, routed and parsed to the same invitation and generation, with the subject that the handler compares. |
| `InvitationDelivery.DeliveryHandler.UnitOfWork` | src/handlers/workspace_invitation_delivery.rs:57-135 | One transaction: the checks in order, the mail, the record, and what is saved; what it does in each case is said by the lemmas below. |
| `InvitationDelivery.DeliveryHandler.HandleMessage` | src/handlers/workspace_invitation_delivery.rs:40-135 | Malformed or mismatched commands are acknowledged untouched; a transaction that does not commit leaves only the mail behind. |
| `InvitationDelivery.DeliverableIsMailed` | src/handlers/workspace_invitation_delivery.rs:57-105 | In every reachable state a command for the current generation of a loadable invitation that is neither accepted, revoked, expired nor delivered, in a workspace that is there, is mailed to the invited address and recorded as delivered, when the link is issued, the mail sent and the transaction committed in time. |
| `InvitationDelivery.FailureIsRecorded` | src/handlers/workspace_invitation_delivery.rs:106-135 | When sending fails instead, the failure is recorded by class, and a retry is asked for exactly when it is retryable and not the last attempt. |
| `InvitationDelivery.UnlinkedIsError` | src/handlers/workspace_invitation_delivery.rs:81-85 | Without a link no mail is sent and the push is an error. |
| `InvitationDelivery.ExpiredMeanwhile` | src/handlers/workspace_invitation_delivery.rs:96-135 | When the invitation expired while the mail was being sent nothing is recorded. |
| `InvitationDelivery.MailedIff` | src/handlers/workspace_invitation_delivery.rs:40-97 | A push adds a mail exactly when it is a command for a deliverable generation, the link is issued, the provider is reached and has no mail of that generation yet; and the mail is the one for that invitation, generation and address. |
| `InvitationDelivery.NotDeliverable` | src/handlers/workspace_invitation_delivery.rs:57-80 | Any other command changes nothing and is acknowledged, unless the invitation cannot be loaded, which is an error. |
| `InvitationDelivery.ClosedIsNotMailed` | src/handlers/workspace_invitation_delivery.rs:64-72 | Accepted, revoked, expired and delivered invitations are not mailed again, and nothing else changes. |
| `InvitationDelivery.MalformedIsAcknowledged` | src/handlers/workspace_invitation_delivery.rs:40-52 | A push that is no command for an invitation is acknowledged and changes nothing. |
| `InvitationDelivery.UncommittedIsUndone` | src/handlers/workspace_invitation_delivery.rs:136-137 | Without a commit the records stay as they are and the push is an error. |
| `InvitationDelivery.InvitedIsMailed` | src/handlers/workspace_invitation_delivery.rs:40-105 | From creation through the queued command to the delivery: an invitation is mailed to its address and shows as delivered. |
| `InvitationDelivery.RemovedIsNotMailed` | src/handlers/workspace_invitation_delivery.rs:73-80 | Once its workspace is gone an invitation is not mailed, and nothing else changes. |
| `InvitationDelivery.KeyInjective` | src/handlers/workspace_invitation_delivery.rs:86-89 | The idempotency key determines invitation and generation. |
| `InvitationDelivery.RunKeeps` | src/handlers/workspace_invitation_delivery.rs:40-170 | Every run of create, queue, resend, accept, revoke and deliveries with crashes keeps the delivery invariant. |
| `InvitationDelivery.DeliveredIffRecorded` | src/domain/workspace_invitation.rs:90-105 | In every reachable state an invitation shows as delivered exactly when its current generation is recorded as delivered. |
| `InvitationDelivery.DeliveredUntilResent` | src/handlers/workspace_invitation_delivery.rs:66-71 | A delivered invitation stays delivered over every run until its generation changes. |
| `InvitationDelivery.ClosedForever` | src/domain/workspace_invitation.rs:246-320 | Accepted and revoked invitations are frozen over every run. |
| `InvitationDelivery.OneAcceptor` | src/domain/workspace_invitation.rs:246-263 | At most one user ever accepts. |
| `InvitationDelivery.StaleMessageChangesNothing` | src/handlers/workspace_invitation_delivery.rs:64-72 | A message of any other generation changes neither the database nor the mailbox and is acknowledged. |
| `InvitationDelivery.OneMailPerGeneration` | src/handlers/workspace_invitation_delivery.rs:86-97 | With a deduplicating provider at most one mail per invitation and generation goes out, under any redelivery and crash before commit. |
| `InvitationDelivery.DeliveredWasMailed` | src/handlers/workspace_invitation_delivery.rs:96-105 | What is recorded as delivered was mailed, to the invited address. |
| `InvitationDelivery.OutcomeTellsRecord` | src/handlers/workspace_invitation_delivery.rs:96-135 | Delivered means a clean delivery of this generation, a retry a retryable failure below the maximum, failed a permanent or, from the last attempt on, an exhausted failure; any other outcome leaves the invitations alone. |
| `InvitationDelivery.RetryOnlyBelowMaximum` | src/handlers/workspace_invitation_delivery.rs:53-56 | The handler asks for a retry only below the maximal attempt. |
| `InvitationDelivery.Redeliver` | src/handlers/workspace_invitation_delivery.rs:40-170 | Pushed again and again with rising attempt numbers, with any run in between and any number of repository errors, the handler itself asks for a retry at most as often as attempts are left; every other push that does not settle the message is a repository error. |
| `InvitationDelivery.EnoughPushesSettle` | src/handlers/workspace_invitation_delivery.rs:40-170 | One push more than attempts are left and repository errors occur settles the message: acknowledged, delivered or failed. |
| `InvitationDelivery.RunsStayLoadableIff` | src/domain/workspace_invitation.rs:163-305 | After any run every stored invitation can be loaded again if and only if no resend of the run went through with an expiry that is not after creation; nothing repairs an invitation that cannot be loaded. |
| `InvitationDelivery.RunsStayLoadable` | src/domain/workspace_invitation.rs:163-305 | With a clock that never goes back every stored invitation can be loaded again after any run: it is enough that no resend is stamped before an earlier creation. |
| `ObjectStore.ObjectDigest.Update` | src/object_storage/mod.rs:189-200 | After a chunk the digest has seen exactly the old bytes and the chunk; a length beyond 64 bits is an error that changes nothing. |
| `ObjectStore.ObjectDigest.Finish` | src/object_storage/mod.rs:202-207 | The result is length and hash of everything seen. |
| `ObjectStore.FilesystemObjectStore.WriteObjectStream` | src/object_storage/mod.rs:492-524 | Success means the file holds the whole stream and the digest of chunk by chunk equals that of the concatenation; no other file is touched; without faults an intact stream succeeds. |
| `ObjectStore.FilesystemObjectStore.PutObject` | src/object_storage/mod.rs:368-422 | Success stores bytes and describing metadata, and comes without faults; a failure touches no other key and leaves the metadata as it was, unreadable, or, when the write completed but reported an error, describing the whole stream; a store stays consistent when the key had no readable metadata. |
| `ObjectStore.FilesystemObjectStore.HeadObject` | src/object_storage/mod.rs:441-455 | Metadata is returned exactly when the file exists, reads and parses; a missing file is not-found. |
| `ObjectStore.FilesystemObjectStore.GetObject` | src/object_storage/mod.rs:424-439 | A stream read to its end is the object's bytes in buffers of at most 64 KiB and, in a consistent store, is what the metadata describes. |
| `ObjectStore.FilesystemObjectStore.DeleteObject` | src/object_storage/mod.rs:466-469 | Success removes both files; failure removes nothing else; consistency is kept. |
| `ObjectStore.StreamCopyObject` | src/object_storage/mod.rs:61-99 | Copying a key built for one workspace to a key built for another is refused as an invalid key and changes nothing, and one within a workspace is not refused so; success leaves the source's bytes and type under agreeing metadata, and without faults a readable source that fits is copied; from a consistent source the integrity error arises only from copying an object that is not empty onto itself, which never succeeds. |
| `ObjectStoreRuns.RunKeeps` | src/object_storage/mod.rs:366-469 | Puts, repeated puts, gets and deletes that interleave call by call, with failures at any call, keep the store invariant: files never change owner, and every key put once is in order. |
| `ObjectStoreRuns.CompleteGetMatches` | src/object_storage/mod.rs:424-455 | In every such run a get that reads to the end has exactly the bytes its metadata describes, unless its key was put a second time. |
| `ObjectStoreRuns.SecondPutBreaksGets` | src/object_storage/mod.rs:492-501 | For every key, putting it twice is enough to break that: the second put truncates the file under a reader of the first. |
| `ObjectStoreRuns.PutThenGet` | src/object_storage/mod.rs:368-439 | Undisturbed, a put stores exactly its bytes and type, and a get after it reads exactly those. |
| `ObjectStoreRuns.NobodyReads` | src/object_storage/mod.rs:404-455 | While metadata is being written, or when it is deleted, no reader gets past it. |
| `ObjectStoreRuns.UnlinkedIsNotOpened` | src/object_storage/mod.rs:424-469 | An object without its name is not opened, but a reader that has it open reads on. |
| `KeyRing.DuplicateIdErrors` | src/config/raw.rs:666-683 | One error if and only if some id occurs twice. |
| `KeyRing.ErrorsExactly` | src/config/raw.rs:448-479 | Every error names the key it is about, and is there exactly when that key's id is blank or its secret is blank or unreadable. |
| `KeyRing.NoErrorsIff` | src/config/raw.rs:448-479 | There is no error exactly when every key is valid. |
| `KeyRing.ValidateKeys` | src/config/raw.rs:448-479 | Keys are accepted exactly when there is one, each is valid, and trimmed ids are unique; the result is the trimmed list, or all errors in order. |
| `KeyRing.ValidateConfig` | src/config/raw.rs:416-492 | Accepted rings are well formed: unique non-blank ids, readable secrets, a known active id; and these conditions are also sufficient. |
| `KeyRing.FillMap` | src/authentication/paseto.rs:482-497 | The loop builds the last-insert map, or fails exactly when a secret is unreadable. |
| `KeyRing.LookupsAgree` | src/authentication/paseto.rs:427-497 | On a validated ring the first-match lookup and the last-insert map agree on every id. |
| `KeyRing.DuplicatesDisagree` | src/authentication/paseto.rs:427-497 | With a repeated id they disagree. |
| `Paseto.PayloadAt` | src/authentication/paseto.rs:1180-1221 | Packing fails on a past expiry, claims that are no object, or a registered name among them; otherwise it adds the seven registered claims. |
| `Paseto.VerifiedPayload` | src/authentication/paseto.rs:1223-1257 | Accepts only claims whose issuer and audience are the verifier's, checks ids and times, and returns the claims without the registered seven. |
| `Paseto.AcceptsExactly` | src/authentication/paseto.rs:1223-1257 | Which claims verify, whoever wrote them: exactly those that name the verifier's issuer and audience, carry UUIDs as subject and id, and readable times of issue and start not after now, expiry after now, and issue before expiry; and what they verify to. |
| `Paseto.UnpackPacked` | src/authentication/paseto.rs:1180-1257 | Packed claims verify if and only if issuer and audience agree and the time lies between the floored issue and expiry, and give back exactly what was packed. |
| `Paseto.TokenUnderRing` | src/authentication/paseto.rs:446-515 | The same for encrypted tokens under any verifier that holds the issuing key, whatever its issuer and audience. |
| `Paseto.AcceptedIff` | src/authentication/paseto.rs:446-515 | For any issuer and verifier a token is accepted if and only if the verifier holds the issuing key under the same id, and purpose, issuer, audience and time agree. |
| `Paseto.IssuesExactly` | src/authentication/paseto.rs:446-480 | A token is issued exactly when its claims can be packed, and the issuer is told its id, its key id and the floored expiry. |
| `Paseto.RingsExactly` | src/authentication/paseto.rs:426-497 | The issuer needs the first key with the active id to be readable, the verifier all keys. |
| `Paseto.VerifiesIffBeforeFlooredExpiry` | src/authentication/paseto.rs:426-515 | Issued at t and checked at n >= t under any validated ring still holding the key, a token verifies if and only if n is before the expiry floored to whole seconds, and returns exactly subject, token id, key id and custom claims. |
| `Paseto.SubSecondTokenNeverVerifies` | src/authentication/paseto.rs:1317-1325 | A token whose lifetime lies inside one second is issued but never verifies. |
| `Paseto.PurposesAreSeparate` | src/authentication/paseto.rs:21-31 | A token made under one implicit assertion is refused under every other. |
| `UploadGrants.CompletesAtMostOnce` | src/domain/agent_evidence_upload_grant.rs:211-225 | Over every run a grant completes at most once, only inside its window, and then never changes. |
| `UploadGrants.SnapshotClosed` | src/domain/agent_evidence_upload_grant.rs:110-150 | Rehydrating the fields of any reachable grant gives that grant, whatever the clock did. |
| `UploadGrants.RehydratedIsWellTimed` | src/domain/agent_evidence_upload_grant.rs:110-150 | Rehydration accepts only grants completed inside their window. |
| `UploadGrants.GrantClaimsReadBack` | src/authentication/paseto.rs:191-220 | The claims of a grant are of the kind that JSON returns unchanged, which is what the token theorems ask of packed claims. |
| `UploadGrants.ReadsExactly` | src/authentication/paseto.rs:191-230 | What is read from a verified token as an authority: all seven parts, only in version 1, and only if the claims agree with the token about id and subject. |
| `UploadGrants.FitsExactly` | src/domain/agent_evidence_upload_grant.rs:152-168 | An authority fits a grant exactly when all seven common parts are equal. |
| `UploadGrants.TokenCarriesAuthority` | src/authentication/paseto.rs:191-220 | A token issued for a grant comes back as the grant's authority with the expiry floored to whole seconds. |
| `UploadGrants.TokenBindsGrant` | src/domain/agent_evidence_upload_grant.rs:152-168 | The recovered authority matches the grant if and only if its expiry has whole-second precision, matches no grant with another id, and matches the grant stored with the reported expiry. |
| `UploadGrants.AgentEvidenceUploadGrant.Rehydrate` | src/domain/agent_evidence_upload_grant.rs:110-150 | Rehydration refuses an empty window, partial completion and completion outside the window. |
| `UploadGrants.AgentEvidenceUploadGrant.Complete` | src/domain/agent_evidence_upload_grant.rs:211-225 | Expired, already completed and too early are refused, in this order. |
| `OAuthFlow.EachSucceedsAtMostOnce` | src/domain/oauth.rs:197-265 | In every run each kind of step succeeds at most once, and the final state tells whether it did. |
| `OAuthFlow.ConsumeSucceedsExactlyWhen` | src/domain/oauth.rs:246-265 | A code is redeemed exactly when approved, unused, inside its own lifetime and with the client id and redirect URI of the original request; by then a subject is attached and the flow was not cancelled. |
| `OAuthFlow.SingleUse` | src/domain/oauth.rs:197-269 | At most one subject, one code and one redemption per flow; cancelling excludes a code; redemption needs approval, approval a subject. |
| `OAuthFlow.SnapshotClosed` | src/domain/oauth.rs:153-195 | Rehydrating the fields of any reachable flow gives that flow, whatever the clock did. |
| `OAuthFlow.RehydratesExactly` | src/domain/oauth.rs:153-195 | Which stored flows are accepted, unchanged. |
| `OAuthFlow.OAuthAuthorizationFlow.AttachSubject` | src/domain/oauth.rs:197-209 | Attaching succeeds exactly for an available flow without a subject and a non-empty subject, and sets subject and user. |
| `OAuthFlow.OAuthAuthorizationFlow.Cancel` | src/domain/oauth.rs:211-217 | Cancelling succeeds exactly for an available flow with a subject, and marks it consumed. |
| `OAuthFlow.OAuthAuthorizationFlow.ApproveAndIssueCode` | src/domain/oauth.rs:219-244 | Approving succeeds exactly for an available flow with a subject and a code that expires later; the code holds the digest, the connection, the workspace, both times, and is unused. |
| `OAuthFlow.OAuthAuthorizationFlow.ConsumeCode` | src/domain/oauth.rs:246-265 | Redemption succeeds exactly for an unused code in its lifetime with the flow's client id and redirect URI, and marks the code and nothing else. |
| `AuditorSessions.SnapshotClosedIff` | src/domain/auditor_access_session.rs:78-152 | A step keeps the snapshot loadable except exactly for a first revocation stamped at or after creation but before the last use. |
| `AuditorSessions.BackwardRevokePoisons` | src/domain/auditor_access_session.rs:139-152 | Such a revocation succeeds and leaves a session that rehydration refuses. |
| `AuditorSessions.RunsStayLoadableIff` | src/domain/auditor_access_session.rs:78-152 | From creation on, after any calls, the session can be loaded if and only if the first revocation not before creation is no earlier than every touch before it that came before the expiry. |
| `AuditorSessions.RunsStayLoadable` | src/domain/auditor_access_session.rs:78-152 | With a clock that never goes back every session can be loaded again unchanged, from creation on. |
| `AuditorSessions.RevokedForever` | src/domain/auditor_access_session.rs:118-152 | A revoked session never changes again. |
| `AuditorSessions.RehydratesExactly` | src/domain/auditor_access_session.rs:78-116 | Which stored sessions are accepted, unchanged. |
| `AuditorSessions.EmailExactly` | src/domain/auditor_access_session.rs:159-168 | Which addresses are valid and normalized: one at sign, inside, no white space at the ends, no ASCII capital letter. |
| `AuditorSessions.AuditorSession.Touch` | src/domain/auditor_access_session.rs:126-137 | Use is refused when revoked or expired and when time runs backwards. |
| `AuditorSessions.AuditorSession.Revoke` | src/domain/auditor_access_session.rs:139-152 | A first revocation at or after creation marks the session revoked at that time; an earlier one is refused, and repeating changes nothing. |
| `AgentConnections.SnapshotClosedIff` | src/domain/agent_connection.rs:156-271 | A step keeps the snapshot loadable exactly when it takes no effect or is stamped no earlier than creation. |
| `AgentConnections.BackwardUsePoisons` | src/domain/agent_connection.rs:250-256 | A use stamped before creation succeeds and leaves a connection that rehydration refuses. |
| `AgentConnections.RunsStayLoadableIff` | src/domain/agent_connection.rs:156-271 | From the request on, after any commands on the stored connection, it can be loaded if and only if no command that took effect was stamped before creation. |
| `AgentConnections.RunsStayLoadable` | src/domain/agent_connection.rs:156-271 | A clock that shows no time before creation is enough for that. |
| `AgentConnections.RunsEarnTheirStatus` | src/domain/agent_connection.rs:220-271 | From the request on, over every run, the continuation is consumed once, activation happens once and in time, use needs activation, and revocation is final. |
| `AgentConnections.RehydratesExactly` | src/domain/agent_connection.rs:156-218 | Which stored connections are accepted, unchanged. |
| `AgentConnections.AgentConnection.ConsumeContinuation` | src/domain/agent_connection.rs:220-236 | Only a pending, unexpired request with matching digests is authorized. |
| `AgentConnections.AgentConnection.Activate` | src/domain/agent_connection.rs:238-248 | Only an authorized, unexpired connection is activated. |
| `AgentConnections.AgentConnection.UseAt` | src/domain/agent_connection.rs:250-256 | Only an active connection is used. |
| `AgentConnections.AgentConnection.Revoke` | src/domain/agent_connection.rs:258-271 | A first revocation at or after creation leaves the status revoked at that time; an earlier one is refused, and repeating changes nothing. |
| `Workspaces.RemovalIsExact` | src/domain/workspace.rs:182-215 | A successful removal drops exactly the target and keeps the actor's role. |
| `Workspaces.RemovesExactly` | src/domain/workspace.rs:182-215 | On a sound list a removal goes through exactly when the actor is a member, the target is another member and, if an owner, not the only one; and which refusal is given otherwise. |
| `Workspaces.RemovalKeepsSound` | src/domain/workspace.rs:182-215 | Removal keeps memberships scoped, unique and owned; a refused call changes nothing. |
| `Workspaces.AdditionKeepsSound` | src/domain/workspace.rs:164-180 | Adding keeps all members and memberships sound; a refused call changes nothing. |
| `Workspaces.RunsStaySound` | src/domain/workspace.rs:84-215 | Memberships stay scoped, unique and with an owner over every sequence of adds and removes. |
| `Workspaces.Workspace.CreateOwned` | src/domain/workspace.rs:84-104 | A new workspace has exactly its owner. |
| `Workspaces.Workspace.Rehydrate` | src/domain/workspace.rs:106-135 | Rehydration accepts exactly sound membership lists. |
| `Workspaces.Workspace.AddMember` | src/domain/workspace.rs:164-180 | A present member is refused, a new one appended. |
| `Workspaces.Workspace.RemoveMember` | src/domain/workspace.rs:182-215 | Unavailable, not found, last owner and self-removal are refused in this order. |
| `Dequeuer.BackoffIsExactIff` | src/dequeuer/mod.rs:196-200 | The capped exponent equals min(initial * 2^n, max) for all n if and only if the initial delay is zero or 2^30 times it reaches the maximum. |
| `Dequeuer.DelaySchedule` | src/dequeuer/mod.rs:136-200 | The failure after which no attempt is left waits the maximum; before that each wait is twice the one before, from the initial delay on, as far as 30 doublings and the maximum allow. |
| `Dequeuer.DelaysNeverShrink` | src/dequeuer/mod.rs:136-168 | Over any run of failures the delays, the exhausted one included, never shrink and never exceed the maximum. |
| `Dequeuer.RowsLeaveOnlyPublished` | src/dequeuer/mod.rs:62-123 | In one pass over the query's batch a row disappears only after it reached the topic; one that stays is untouched or rescheduled with one attempt more. |
| `Dequeuer.NoRowDueTwice` | src/dequeuer/mod.rs:62-168 | With positive delays the rows due after a completed pass over the query's batch are exactly those that were due and did not fit into it. |
| `Dequeuer.PassCompletes` | src/dequeuer/mod.rs:62-123 | A pass completes exactly when every database call does. |
| `Dequeuer.PassCounts` | src/dequeuer/mod.rs:62-76 | It has then published the rows that publishing succeeded for, in order, and counted them. |
| `Dequeuer.PassStops` | src/dequeuer/mod.rs:62-76 | The first database call that fails ends it: later rows are left alone. |
| `Dequeuer.BatchIsUnique` | src/persistence/outbox.rs:139-177 | The query has one answer: the longest due rows in order of availability and id, up to the limit. |
| `Dequeuer.OutboxDequeuer.ListDue` | src/persistence/outbox.rs:139-177 | Selecting the earliest due row again and again yields that answer. |
| `Dequeuer.OutboxDequeuer.Publish` | src/dequeuer/mod.rs:95-168 | One row: published and deleted, or rescheduled after the delay of its attempt count. |
| `Dequeuer.OutboxDequeuer.RunOnce` | src/dequeuer/mod.rs:62-76 | The pass queries the due rows, handles them in order, counts the published ones, and stops at the first database error; a failing query changes nothing. |

## Left out

- PipelineTheorems.UploadedIsClearedAndStored: takes the clean verdict as the scanner's word for the bytes it was given; the scanner itself is not modelled.
- PipelineStranded.FinishesIff: states that a completing run exists, not that a fair scheduler finds it.
- PipelineTornCopies.SurvivesIffUnexposed: an interrupted copy leaves any object or none under the key; which part of the source it is, and the metadata file beside it, are not followed.
- PipelineTornCopies.WholeIffNotTorn: the same; and of two writers of one key that overlap, the one that began first may leave anything in the end.
- ObjectStore.StreamCopyObject: between different keys the stream is read before it is written, so other writers in between are not covered.
- Paseto.TokenUnderRing: claims with fractional numbers, integers beyond 64 bits or more than 127 levels of nesting are not covered, since their JSON text need not read back.
- Paseto.PurposesAreSeparate: rests on an ideal cipher (`Authentic`).
- Paseto.VerifiesIffBeforeFlooredExpiry: covers the years 0 to 9999, the dates that RFC 3339 can write.
- Dequeuer.OutboxDequeuer.RunOnce: attempt counts and durations are unbounded integers, and the batch size is not negative.
- Database precision: timestamps are stored in microseconds; the model keeps nanoseconds.
- Leap seconds and the inner workings of date printing, URL parsing, JSON text, ciphers and hashes.
- GCS client, Auth0, JWKS, Resend and other network clients; HTTP routing and process start-up.
- The mail text, audit events, logging and metrics.
- Evidence, controls, permissions, batches, users, auditor grants and the other upload grants: smaller relatives of what is modelled.
- Config parsing other than key rings, migrations and seed data.
- Coverage windows and file declarations carried by upload grants; slug and name of a workspace.
