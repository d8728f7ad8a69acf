# MnemoCA: a verified model of its protocols

MnemoCA is a certificate authority whose replicas share one document store. This project
models the protocols that its Go code builds on that store, and proves what they keep.
Code that works on its own (parsers, codecs, one request, one loop over a list) is modelled
as functions, methods and classes of the same shape. Code that several processes run at once
is modelled as a transition system over any number of processes: each step is one store
operation (or one file operation), any step of any process may come next, writes may fail
with or without effect, and a process may crash between any two steps. `Behaviour(tr, steps)`
says that `tr` is a run of such a system, and the main results hold for every run.

| file | models |
|---|---|
| `Common.dfy` | types that several models share |
| `Text.dfy` | strings: paths, decimal and hexadecimal digits, the order of keys; the bucket paths of tenants |
| `StoreContract.dfy` | the store interface as an atomic map |
| `MongoStore.dfy` | the optimistic store: versioned documents and a bounded retry loop |
| `BoltStore.dfy` | the embedded store: nested buckets and transactions |
| `OperatorSet.dfy`, `OperatorGuard.dfy`, `KeyHandlers.dfy` | the guard that never revokes the last operator key |
| `Bootstrap.dfy`, `MintedFile.dfy` | the first operator key, its audit record and its file |
| `AuditRecord.dfy`, `StoreLog.dfy`, `Genesis.dfy`, `FileLog.dfy` | the hash-chained audit log, shared and single-process |
| `AcmeOrders.dfy`, `AcmeProtocol.dfy` | ACME orders, authorizations and challenges |
| `Issuance.dfy`, `Crl.dfy` | issuing with compensation, revocation, revocation lists |
| `Codecs.dfy` | API key tokens, composite key material, HSM key references |

`dafny verify dfyconfig.toml` checks all of it.

## What the code does not keep

Where a stated intention turned out not to hold of the code, the code is modelled as it is;
a lemma says exactly when the intention holds, or shows a run in which it fails.

- The comment on `ensureGenesis` says that only the replica that created the head writes the
  genesis record. The record is kept in a variable outside the update function, so it
  survives a retry, and a replica that loses the creation race writes its own record too. The
  stored record is the one the head vouches for exactly when the winner wrote last
  (`Genesis.RecordAgreesIffWinnerWroteLast`), and at any time, whoever opens or appends, the
  chain verifies exactly when that is so and every claimed number is written
  (`Genesis.ChainVerifiesIffCompleteAndWinnerWroteLast`). If a loser wrote last and the winner
  has nothing left to write, it never verifies again (`Genesis.LostRaceIsNeverRepaired`).
- `abandonIssued` says that the caller is never left with a valid certificate it was not told
  about. It is, exactly when the store write of a certificate record commits while reporting
  an error (`Issuance.CompensationIsCompleteIffNoAmbiguousPut`). A serial listed as left
  issued may in truth be revoked (`Issuance.ListsTellTheTruth`).
- The scan of a revocation list precedes the drawing of its number. When two builds overlap,
  the list with the larger number may omit a revocation that the other has
  (`Crl.LargerNumberCoversIffNothingRevokedBetween`, `Crl.OverlappingBuildsMayRegress`).
- The file log advances its sequence number before it writes. A log verifies exactly when no
  line was torn and nothing was appended between a failed append and the next reopening
  (`FileLog.LogVerifiesIffNoAppendAfterFailure`).
- The last-operator guard relies on revocations that end before their claim expires. Where
  one is about to delete a live operator key and may outlive its claim, all operators can be
  lost, however many there are (`OperatorGuard.OverdueRevocationDefeatsTheGuard`).
- The stored count can become empty while operators live. It does exactly when a reconcile
  commits after a scan of which no key was both still stored at its own re-check and free of
  an unexpired claim (`OperatorGuard.CountEmptiesExactlyAfterStaleScan`).
- If inserting the minted key commits while reporting an error, the temporary file is removed
  and the secret is gone (`MintedFile.FailedInsertKeepsSecretIffNotStored`).
- The start-up repair of the minted key's file skips a temporary file that it fails to read. A
  start that runs alone and returns leaves the final file missing exactly if it failed so on
  every file that holds the secret (`MintedFile.SolitaryStartRestores`).
- An order stays ready after one of its authorizations became invalid. Its authorizations are
  all valid, from the moment it became ready, exactly as long as its owner does not fail a
  second challenge of one of them (`AcmeOrders.AuthorisedForAsLongAsUnspoiled`,
  `AcmeOrders.ReadyMayOutliveItsAuthorizations`).

## Assumptions

- Optimistic store: the database's conditional update commits only while the same document
  id is at the same version, and its create fails exactly on an existing key.
- Operator guard (`OperatorGuard.Assumed`): a running revocation ends before its claim is five
  minutes old, by one clock; nobody can name a key id for revocation before the call that
  creates or bootstraps it has ended; and no key is bootstrapped under an id that a running
  call is revoking or creating. A delete commits before its call returns or never.
- Audit log: the digest is injective on the decoded previous hash and the record without hash
  and signature, is never empty, and signatures made with the audit key verify
  (`AuditRecord.Sound`). The exact condition for the file log also uses that no record's
  digest equals the hash it was chained to (`FileLog.NoFixedPoint`). `StoreLog.dfy` starts from
  an initialised chain; `Genesis.dfy` treats its initialisation, before and beside appends.
- Minted key: the digest of secrets is injective, random file names and secrets do not repeat
  (`O_EXCL` creation), a failed insert is known not to have committed, and bootstrapping is
  over before the minted key is revoked (`MintedFile.Assumed`).
- Random ids and serials do not repeat. An account's key never changes.
- What the network check of a challenge finds is an input.
- Bucket paths are joined with slashes in the optimistic store. No segment contains one: the
  only variable segment is the tenant id, whose form is checked when a tenant is created
  (`Buckets.TenantsNeverShareBuckets`; `Text.SlashedPathCollides` says what it keeps out).
- Verification and listing scans see a snapshot of a bucket. The scans of the operator
  reconcile are not assumed to: they read one key at a time.

## Model

| member | source | states |
|---|---|---|
| OperatorSet.BeginSucceedsIffAnotherIsCounted | internal/api/auth.go:466-481 | Claiming a key for revocation is refused exactly when the claim is live or no other operator would stay counted |
| OperatorSet.BeginAnswers | internal/api/auth.go:445-481 | A claim less than 300 seconds old blocks a second one, an older one does not; what is granted uncounts that key only and claims it from now on |
| OperatorSet.AbortUndoesBegin | internal/api/auth.go:491-493 | Aborting a claimed revocation counts the same ids as before the claim, and leaves no claim |
| OperatorSet.OperatorDocument.Add | internal/api/auth.go:454-464 | Adding counts an id once and drops its claim |
| OperatorSet.OperatorDocument.Begin | internal/api/auth.go:466-481 | The claim, or the refusal and an unchanged document |
| OperatorSet.OperatorDocument.Finish | internal/api/auth.go:483-489 | Finishing drops the claim and the count |
| OperatorSet.OperatorDocument.Reconcile | internal/api/auth.go:513-535 | After a reconcile exactly the scanned keys that are still in the store and not under an unexpired claim are counted, each once |
| OperatorGuard.LastOperatorSafety | internal/api/auth.go:448-536 | In every interleaving of revocations, creations, reconciles, crashes and clock ticks, once an operator key lives the store is never without one |
| OperatorGuard.CountNeverHoldsGhosts | internal/api/auth.go:499-536 | The count never holds a duplicate, a dead or non-operator key, or a key that a running revocation has claimed |
| OperatorGuard.StepKeepsInv | internal/api/handlers.go:330-393 | Every step of every request keeps the invariant behind both: counted keys are live, unclaimed operators and some operator is unclaimed |
| OperatorGuard.BehaviourKeepsInv | internal/api/auth.go:448-536 | The invariant holds throughout every run |
| OperatorGuard.StepKeepsAnOperatorUnclaimed | internal/api/handlers.go:343-388 | After every step some operator is unclaimed, if there is one; a claim is made only while another unclaimed operator is counted; and the only step that takes a live operator is the deletion by the revocation that holds its claim |
| OperatorGuard.OverdueRevocationDefeatsTheGuard | internal/api/auth.go:439-481 | From every state with a revocation about to delete a live operator key that may outlive its claim, however many operators there are, a run leads to none |
| OperatorGuard.UntimedGuardProtectsNoStore | internal/api/auth.go:439-481 | Without the time limit every resting store with two operators can lose all of them |
| OperatorGuard.EveryUndisturbedReconcileRecounts | internal/api/auth.go:499-536 | Every reconcile that scans all operator keys, and while which nobody else changes a key or the count, leaves exactly the operators counted whose claim had expired when it looked, each once; all operators, if all claims had |
| OperatorGuard.Recount | internal/api/auth.go:499-536 | From any state some run of a reconcile gets there: all claims dropped, exactly the operators counted |
| OperatorGuard.CountEmptiesExactlyByReconcile | internal/api/auth.go:454-536 | In one step a count becomes empty exactly by committing a reconcile that found nothing; no revocation takes the last counted key |
| OperatorGuard.CountEmptiesExactlyAfterStaleScan | internal/api/auth.go:499-536 | Over any run the count becomes empty exactly when a reconcile commits of whose scanned keys none was both still stored at its own re-check and free of an unexpired claim |
| OperatorGuard.StaleReconcileMayEmptyTheCount | internal/api/auth.go:499-536 | A run from an empty store in which that happens while an operator key lives |
| KeyHandlers.Server.CreateKey | internal/api/auth.go:104-118 | A created key is stored before it is counted; no failure, reported rightly or not, leaves a counted key that is not stored |
| KeyHandlers.Server.Fail | internal/api/handlers.go:361-377 | A failed revocation is recorded with the same actor and target, and the count is restored exactly if the key survived |
| KeyHandlers.Server.AuditAndDelete | internal/api/handlers.go:354-392 | The key is deleted only after its revocation is on record, and another operator remains |
| KeyHandlers.Server.HandleRevoke | internal/api/handlers.go:330-393 | Every outcome of a revocation: not found, refused, failed at any call, or done, each exactly when; what is recorded; the count stays free of ghosts and an operator is never the last to go |
| KeyHandlers.SettledRevocationCountsExactlyTheSurvivors | internal/api/handlers.go:361-388 | A settled revocation leaves no claim and counts the keys counted before, and the one it was about, as far as they still exist |
| KeyHandlers.EachRevocationIsARunOfTheGuard | internal/api/handlers.go:330-393 | Whatever a handler that runs alone does to keys and count, failures and lost answers included, is a run of one process of the guard's protocol |
| KeyHandlers.EachCreationIsARunOfTheGuard | internal/api/auth.go:104-118 | And whatever a creation that runs alone does, however its two writes end |
| MongoStore.EveryReportedUpdateCounts | internal/store/mongo.go:205-252 | In every run in which nothing shrinks a document, by any measure, it has grown at least once for every update that grows it and was reported done, whatever else runs |
| StoreContract.ReportedUpdatesCount | internal/store/store.go:37-40 | The same of the atomic map |
| StoreContract.PutOverwrites | internal/store/store.go:22-23 | A put that succeeds overwrites whatever was there, and never finds nothing or aborts |
| MongoStore.Linearizable | internal/store/mongo.go:104-252 | Every concurrent run of Update, Put, PutIfAbsent, Take, Delete and Get has the calls, answers and final documents of a run of the atomic map, each call acting in one instant of its interval |
| MongoStore.StepSimulates | internal/store/mongo.go:205-252 | Each database operation is one action of the atomic map, or invisible |
| MongoStore.FaultsNeedAFailure | internal/store/mongo.go:112-252 | A database reply that is heard is never answered as a fault, and giving up comes only when out of attempts |
| MongoStore.GivingUpNeedsConflicts | internal/store/mongo.go:200-252 | Giving up after 128 attempts means at least 128 commits by other writers to the same key within the call |
| MongoStore.EachRetryHasItsCommit | internal/store/mongo.go:200-248 | The attempts an update has lost are at most the other writers' commits to its key since it was called |
| MongoStore.DoneAppliesToLatest | internal/store/mongo.go:237-249 | A successful update applies its function to what the last conflicting writer left |
| MongoStore.FateIsThatOfTheLastTurn | internal/store/mongo.go:205-252 | When an update is answered as not found, aborted, failed, done or given up: by what the one turn that ends it found, did and met, all earlier ones being lost to rivals |
| MongoStore.BehaviourKeepsInv | internal/store/mongo.go:205-252 | A document at a version that a reader saw still has the data it read, in every run |
| MongoStore.Collection.Update | internal/store/mongo.go:205-252 | The retry loop, with a rival write, a cancelled context, a failing read or a failing write in any attempt: it ends at one turn, with the answer and the document of that turn, and gives up exactly if all 128 turns were lost |
| MongoStore.Collection.Put | internal/store/mongo.go:104-110 | Stores the data, or gives up after every attempt lost to a rival, or fails, leaving what rivals wrote, or after a failing write perhaps the data; no other document changes |
| MongoStore.Collection.Create | internal/store/mongo.go:112-125 | Creating fails exactly on an existing key and then changes nothing |
| MongoStore.Collection.Replace | internal/store/mongo.go:241-249 | A write back happens exactly if the same document is still at the version read |
| Text.PathIsRecoverable | internal/store/mongo.go:95-100 | A joined path can be taken apart again exactly when no segment contains the separator |
| Text.DistinctPathsStayDistinct | internal/store/mongo.go:95-100 | Distinct paths of such segments are stored apart |
| Text.SlashedPathCollides | internal/store/mongo.go:95-100 | Any other path is stored as some different path is |
| Buckets.TenantsNeverShareBuckets | internal/ca/ca.go:117-121 | With tenant ids of the checked form, no two tenants and no two kinds of object share documents |
| BoltStore.EachTransactionRefinesTheContract | internal/store/bolt.go:66-171 | Every transaction on the bucket tree is one action of the atomic map, with the same answer |
| BoltStore.AnswersAreByWhatWasFound | internal/store/bolt.go:66-171 | Exactly when each operation faults before its commit, and otherwise its answer: creating is won exactly if the document was absent, a missing one is not found, but deletes without an error |
| BoltStore.DocumentAfter | internal/store/bolt.go:66-171 | The document that each operation leaves, by what it answers |
| BoltStore.TransactionKeepsRooted | internal/store/bolt.go:66-171 | Every transaction keeps the tree well formed and changes at most the document it names |
| BoltStore.UpdateIsRefusedExactlyWhenBlocked | internal/store/bolt.go:155-171 | Before its commit an update fails exactly where a path segment is empty or the name of a document, or what it would write is unnamed or the name of a bucket |
| BoltStore.OpeningFailsWhenBlocked | internal/store/bolt.go:32-64 | Opening a path with creation fails exactly at an empty segment or one that names a document |
| BoltStore.CountersCount | internal/store/bolt.go:173-184 | A number drawn is one more than the counter stood at; a failing commit may skip one; no other counter and no document changes |
| BoltStore.Bolt.BucketPath | internal/store/bolt.go:32-64 | The walk down a path, creating missing buckets when asked, and how it ends |
| BoltStore.Bolt.Update | internal/store/bolt.go:155-171 | One transaction, rolled back as a whole on any error, its commit failing with or without effect |
| BoltStore.Bolt.Put | internal/store/bolt.go:66-74 | One transaction that stores the document or changes nothing, but for a commit that fails |
| BoltStore.Bolt.PutIfAbsent | internal/store/bolt.go:76-90 | Created exactly if the key was absent, and without an error if it was not |
| BoltStore.Bolt.Take | internal/store/bolt.go:109-124 | The document is returned and removed in one transaction |
| BoltStore.Bolt.Delete | internal/store/bolt.go:126-136 | The document is gone; a missing one is no error |
| BoltStore.Bolt.Get | internal/store/bolt.go:92-107 | The stored document, changing nothing |
| BoltStore.Bolt.NextNumber | internal/store/bolt.go:173-184 | The next number of the path's counter |
| AuditRecord.SealSucceedsAndVerifies | internal/audit/audit.go:172-207 | A record sealed onto a previous hash verifies against it |
| AuditRecord.VerdictNamesTheFirstFlaw | internal/audit/audit.go:189-207 | A record is accepted exactly if number, link, hash and signature are right, and otherwise the first that is not is named |
| AuditRecord.Replay | internal/audit/storelog.go:172-180 | Replaying stops at the first record that does not verify and reports how many did |
| AuditRecord.VerifyStore | internal/audit/storelog.go:164-195 | Verification succeeds exactly when every record verifies in turn and the head document matches the last one |
| AuditRecord.NumbersCountUp | internal/audit/audit.go:189-192 | Verified records are numbered without gaps |
| AuditRecord.SameEndSameChain | internal/audit/audit.go:155-207 | Equal hashes at one position force equal records at every earlier one |
| AuditRecord.HeadFixesEveryRecord | internal/audit/storelog.go:172-194 | Two record sequences that verify against one head have equal length and agree in every field but the signature |
| AuditRecord.EditIsDetected | internal/audit/storelog.go:160-195 | Any edit that touches more than signatures makes verification fail |
| Text.SeqKeysSortAsNumbers | internal/audit/storelog.go:35 | Zero-padded record keys sort as their 64-bit numbers, so key order is chain order |
| StoreLog.StoreChainIsOneChain | internal/audit/storelog.go:107-136 | Under any number of loggers and crashes there is one gapless linked chain as long as the head says; a claimed number belongs to one record for ever, and a stored record is the chain's |
| StoreLog.CheckpointsBindRealPrefixes | internal/audit/storelog.go:138-154 | Every checkpoint carries an earlier position and exactly the hash of the chain's record there, and can be read in no other way |
| StoreLog.RecordsSayWhatWasLogged | internal/audit/storelog.go:107-155 | In every run each record after the genesis carries, field by field, what an earlier call handed in, or the checkpoint of the head that an earlier call had read, and follows the record before it |
| StoreLog.EachAppendIsARunOfTheLog | internal/audit/storelog.go:107-135 | What one replica's append does, however its writes end, is a run of the protocol's steps |
| StoreLog.VerifySnapshot | internal/audit/storelog.go:160-195 | On any snapshot of a reachable store verification succeeds exactly when no claimed record is unwritten; otherwise it counts up to the first that is |
| StoreLog.CrashLosesTheRecord | internal/audit/storelog.go:126-135 | A crash between the head advance and the record write loses that record |
| StoreLog.LossIsPermanent | internal/audit/storelog.go:107-136 | A lost record is never written, whatever is appended |
| StoreLog.LossIsReportedForEver | internal/audit/storelog.go:37-42 | Verification keeps failing at or before a lost record for ever |
| StoreLog.BehaviourKeepsInv | internal/audit/storelog.go:107-136 | The chain invariant holds throughout every run |
| StoreLog.AppendExtendsUnlessLost | internal/audit/storelog.go:107-136 | One append changes nothing, or extends the chain by a record that verifies, or, no record being written, leaves a head that the records do not reach |
| StoreLog.Replica.Log | internal/audit/storelog.go:107-136 | Exactly when an append is answered how; one that succeeds stores a record of what the caller handed in, linked to the old head, and the head follows it |
| StoreLog.Replica.Checkpoint | internal/audit/storelog.go:140-154 | Appends a record that carries the head it read, and answers as that append does |
| Genesis.RecordAgreesIffWinnerWroteLast | internal/audit/storelog.go:64-103 | In every state of every run of any number of opening replicas that has a genesis record, it is the head's exactly when the last to write it was the replica that created the head |
| Genesis.ChainIsInitialisedIffWinnerWroteLast | internal/audit/storelog.go:64-103 | When all openings are over, the shared log starts from an initialised chain exactly in that case |
| Genesis.UndisturbedOpeningAgreesIffItWins | internal/audit/storelog.go:64-103 | A replica about to create the head, left alone from then on, leaves agreeing documents exactly when it still wins |
| Genesis.UnlostRacesKeepAgreement | internal/audit/storelog.go:64-103 | While no replica loses the race, with any number of replicas opening and crashing, a stored genesis record is the head's |
| Genesis.OpeningSucceedsExactly | internal/audit/storelog.go:67-103 | When an opening succeeds, for each way its calls end, and the head and the record it then leaves |
| Genesis.BehaviourKeepsInv | internal/audit/storelog.go:67-103 | A record kept from a lost race never matches the head, throughout every run |
| Genesis.ChainVerifiesIffCompleteAndWinnerWroteLast | internal/audit/storelog.go:67-195 | At any time of any run in which openings and appends interleave, a snapshot verifies exactly when every claimed number is written and the replica that created the head was the last to write a genesis record |
| Genesis.LostRaceIsNeverRepaired | internal/audit/storelog.go:97-136 | From the time on that a loser wrote last and the winner has no record left to write, no snapshot ever verifies again, whatever any number of replicas open or append, in any interleaving |
| Genesis.ChainDocuments.EnsureGenesis | internal/audit/storelog.go:67-103 | The update function with its retry leaves what the specification says, any read or write failing with or without effect, and whether or not the winner has written its record by then |
| FileLog.LogVerifiesIffNoAppendAfterFailure | internal/audit/audit.go:211-239 | A log verifies exactly when no line was torn and nothing was appended between a failed append and a reopening |
| FileLog.FailureFreeRunsVerify | internal/audit/audit.go:86-123 | Any run of open, log, checkpoint, close and reopen without a failed append leaves a file that verifies, holding exactly the records appended, genesis included, and an open log that continues it |
| FileLog.LinesSayWhatWasAppended | internal/audit/audit.go:86-239 | Every whole line of a log says, field by field, what one of its operations was given to write |
| FileLog.Log.Append | internal/audit/audit.go:211-239 | The number advances first, the head last; a success adds one line that says what the caller handed in; what each failure leaves behind |
| FileLog.Log.Checkpoint | internal/audit/audit.go:243-256 | Appends a record of the session's number and head, and answers as that append does |
| FileLog.Log.OpenFile | internal/audit/audit.go:86-123 | Recovers number and head from the last line, refuses a corrupt file, or writes a genesis record |
| FileLog.Log.CloseFile | internal/audit/audit.go:126-130 | Ends the session and leaves the lines |
| FileLog.Log.VerifyFile | internal/audit/audit.go:261-290 | Succeeds exactly when the file verifies, and otherwise counts its longest verifying prefix |
| AcmeProtocol.AuthorisedNamesOnly | internal/acme/order.go:119-156 | Every name of every certificate requested from the CA has an earlier successful check, under the finalizing account's key, of an authorization of that very order for that very name: dns-01, or http-01 unless it is a wildcard |
| AcmeProtocol.CheckVouchesForOneNameOnly | internal/acme/challenge.go:77-97 | One check vouches for one authorization, one name and one key; so not for a wildcard as well as the name below it |
| AcmeProtocol.CheckAuthorises | internal/acme/challenge.go:77-97 | A check that passes authorises the one name its authorization is for, and that authorization only |
| AcmeProtocol.WildcardIsCertified | internal/acme/order.go:25-156 | A run from the empty store through order, dns-01 check and finalization to the request of a wildcard certificate |
| AcmeProtocol.WrittenIsOk | internal/acme/challenge.go:98-137 | What a process writes as valid or ready is backed by successful checks |
| AcmeProtocol.BehaviourKeepsInv | internal/acme/order.go:56-92 | Stored and held objects are backed by successful checks throughout every run |
| AcmeObjects.CheckCsrIdentifiers | internal/acme/order.go:308-334 | Accepts exactly the requests that ask for the order's names and nothing else |
| AcmeObjects.TallyDecidesOutcome | internal/acme/challenge.go:115-136 | One invalid authorization spoils a pending order, all valid make it ready, whatever the order of looking |
| AcmeOrders.NewOrderOffers | internal/acme/order.go:56-92 | A new order has a pending authorization for each identifier, with a dns-01 challenge for a wildcard, and otherwise an http-01 and a dns-01 challenge, each pending and with its own token |
| AcmeOrders.RefusalNamesTheFirstFlaw | internal/acme/order.go:33-43 | Identifiers are refused by the first that is not a DNS name or is empty |
| AcmeOrders.Server.HandleNewOrder | internal/acme/order.go:25-103 | One authorization an identifier, wildcards with dns-01 only, and the refusals; a failing draw, write or audit record leaves exactly what was written before it, the order itself last |
| AcmeOrders.Server.HandleChallenge | internal/acme/challenge.go:45-75 | A challenge response by the owner settles challenge, authorization and order; other requests change nothing; any one read or write may fail |
| AcmeOrders.Server.ValidateChallenge | internal/acme/challenge.go:79-104 | Challenge and authorization become valid if the check passed and its kind is http-01 or dns-01, and otherwise invalid, before the order is recomputed; a failing write ends it there |
| AcmeOrders.Server.UpdateOrderStatus | internal/acme/challenge.go:108-137 | A pending order becomes invalid exactly if one of its authorizations is, and ready exactly if all are valid, unless a read or the write fails |
| AcmeOrders.Server.HandleFinalize | internal/acme/order.go:119-185 | A ready order becomes valid with its certificate, or nothing changes; a failure after issuance leaves exactly what was written before it |
| AcmeOrders.FinalizeAnswers | internal/acme/order.go:119-185 | Exactly when finalizing is answered how; what is served stores the certificate under the finalizing account and makes the order valid with it, and nothing else changes anything |
| AcmeOrders.InterruptedResponse | internal/acme/challenge.go:45-137 | A response that is interrupted leaves nothing, the settled challenge, that and its authorization, or all; one not answered as failed has done all |
| AcmeOrders.FailureInvalidatesTheOrder | internal/acme/challenge.go:88-127 | Failing one of its challenges makes a pending order invalid |
| AcmeOrders.BehaviourKeepsGood | internal/acme/challenge.go:106-137 | After every request of every run without failing calls a certificate is set exactly on valid orders, and a pending order has no invalid authorization and one not yet valid |
| AcmeOrders.EachRequestMovesOrders | internal/acme/challenge.go:106-137 | Whichever of its calls fails, a request moves an order only from pending to ready or invalid, or from ready to valid, and keeps the rules of the next row |
| AcmeOrders.FaultyBehaviourKeepsLasting | internal/acme/order.go:88-177 | After every request of every run, calls failing at will, a stored order has its authorizations, and is valid exactly if it names a certificate, which is then stored and its account's |
| AcmeOrders.OrdersOnlyAdvance | internal/acme/order.go:173-177 | Over any run, calls failing at will, no order is lost, settled orders never change, ready orders only become valid |
| AcmeOrders.RespondKeepsGood | internal/acme/challenge.go:45-137 | A challenge response keeps these rules for its own and for every other order, and meets no missing object |
| AcmeOrders.ReadyMeansAllValidAtFirst | internal/acme/challenge.go:111-136 | An order becomes ready only while all its authorizations are valid |
| AcmeOrders.ValidityIsLostExactlyByFailing | internal/acme/challenge.go:45-104 | One request ends that exactly if it is the owner's failing answer to a pending challenge of one of them |
| AcmeOrders.AuthorisedForAsLongAsUnspoiled | internal/acme/challenge.go:45-137 | Over any run they are all valid at a later time exactly if there was no such answer in between; after one they are never all valid again |
| AcmeOrders.ReadyMayOutliveItsAuthorizations | internal/acme/challenge.go:88-96 | A run from the empty store to a ready order with an invalid authorization |
| AcmeOrders.WildcardsCanBeCertified | internal/acme/order.go:69-177 | A run from the empty store in which a wildcard order becomes ready by dns-01 and then valid |
| Issuance.SuccessIsStoredAndAudited | internal/ca/issue.go:245-264 | A successful call answers with one certificate a chain, each stored, valid, and already in the audit log |
| Issuance.OthersAreUntouched | internal/ca/issue.go:103-120 | A call never touches another call's certificate |
| Issuance.ListsPartitionTheAffected | internal/ca/issue.go:137-173 | The revoked and left-issued lists of a failed call partition the serials it knows to be stored |
| Issuance.CompensationIsCompleteIffNoAmbiguousPut | internal/ca/issue.go:132-173 | Every certificate a failed call stored is listed, exactly when no store write committed while reporting a failure |
| Issuance.ListsTellTheTruth | internal/ca/issue.go:144-151 | What is listed as revoked is revoked; what is listed as left issued is valid exactly if its revocation never reached the store and no other request revoked it before or after |
| Issuance.ListsAreAudited | internal/ca/issue.go:137-162 | Every serial listed as revoked has its revocation record, for cessation of operation, in the log, and the lists themselves are recorded |
| Issuance.NoneValidIsTrueIffNoAmbiguousPut | internal/ca/issue.go:163-171 | The message that no issued serial remains valid is true of everything the call stored, exactly when no store write was ambiguous |
| Issuance.AmbiguousPutEscapes | internal/ca/issue.go:245-247 | The certificate of an ambiguous write stays valid and is mentioned nowhere |
| Issuance.Manager.IssueOne | internal/ca/issue.go:185-265 | Sign, store, audit; what each failure leaves behind |
| Issuance.Manager.Revoke | internal/ca/issue.go:281-304 | Refuses exactly unknown and already revoked certificates, changing nothing; on success that record alone is marked with the given time and reason, and the log has grown by its revocation record |
| Issuance.RevokeAnswers | internal/ca/issue.go:281-304 | Exactly when a revocation is answered how, and what is marked and audited, either write failing with or without effect |
| Issuance.Manager.AbandonIssued | internal/ca/issue.go:137-173 | Revokes each serial, sorts them into the two lists, and records both |
| Issuance.Manager.Issue | internal/ca/issue.go:103-120 | Issues from each chain in turn and compensates at the first failure |
| Crl.ListsExactlyTheRevoked | internal/ca/issue.go:354-369 | A build lists exactly the revoked certificates of its chain, each once, with time and reason, through the decimal serial |
| Crl.ListRevoked | internal/ca/issue.go:354-369 | Lists exactly the revoked certificates of the named chain, of the primary one if none is named, and is refused exactly if such a record has a corrupt serial |
| Crl.RevokedForEver | internal/ca/issue.go:281-296 | A certificate record is never lost, and once revoked never changes |
| Crl.LaterBuildCoversEarlier | internal/ca/issue.go:354-379 | Of two builds that do not overlap the later has the larger number and every entry of the earlier |
| Crl.LargerNumberCoversIffNothingRevokedBetween | internal/ca/issue.go:354-379 | For any two builds of a chain the larger number has every entry of the smaller exactly when nothing was revoked after its own scan and before the other's |
| Crl.NumbersIncrease | internal/ca/issue.go:374-379 | Numbers increase in the order they are drawn |
| Crl.OverlappingBuildsMayRegress | internal/ca/issue.go:354-379 | A run in which the larger number omits an entry of the smaller |
| Text.IntegerOfDecimal | internal/ca/issue.go:359-362 | Reading a serial that was printed in decimal gives it back |
| MintedFile.SecretIsNeverLost | internal/api/auth.go:291-323 | While the minted key is in the store its secret is in the final or in a temporary file, whatever starters do and wherever they crash |
| MintedFile.SolitaryStartRestores | internal/api/auth.go:541-584 | In any run, a later start that runs alone and returns leaves the final file holding exactly that secret, unless there was none and it failed to read every temporary file that holds the secret; it never loses the secret |
| MintedFile.FinalFileIsTheKeys | internal/api/auth.go:552-555 | A final file found beside the record holds that secret, so leaving it alone is right |
| MintedFile.WinnerInstallsItsSecret | internal/api/auth.go:310-321 | The starter that won the insert puts its own secret in place, and that is the key's |
| MintedFile.RecoveryKeepsTheSecret | internal/api/auth.go:541-584 | The recovery loop keeps a held secret, and unless its rename fails puts it in place exactly if it can read a file that holds it |
| MintedFile.BehaviourKeepsInv | internal/api/auth.go:291-323 | Starters keep names and secrets apart, and a starter's secret is the key's exactly if it won the insert |
| MintedFile.FailedInsertKeepsSecretIffNotStored | internal/api/auth.go:310-314 | After a failed insert and its clean-up the secret is still held exactly if the record was not stored after all |
| MintedFile.KeyFilesAreSound | internal/api/auth.go:554-566 | A key file reads back as its secret, and cut short as its secret or none |
| MintedFile.KeyDirectory.MintBootstrapFile | internal/api/auth.go:291-323 | Only the winner of the insert installs a file; a loser leaves no trace |
| MintedFile.KeyDirectory.RecoverMintedFile | internal/api/auth.go:541-584 | The first readable temporary file that holds the key's secret becomes the final one, if there is none; a rename that fails is an error unless another starter was faster |
| Bootstrap.FlaggedKeysAreRecorded | internal/api/auth.go:251-275 | In every interleaving with crashes a key flagged as audited has an audit record |
| Bootstrap.SuccessfulStartSawAnOperator | internal/api/auth.go:153-242 | A start that returns without an error found or left an operator key during its run |
| Bootstrap.BehaviourKeepsInv | internal/api/auth.go:144-242 | Bootstrap keys are operators and are flagged only after their record, throughout every run |
| Bootstrap.SolitaryStartConverges | internal/api/auth.go:144-242 | From any reachable state, a start that runs alone to an end that no failure causes returns without an error exactly if there was an operator key or no colliding key was supplied; and then there is an operator key and every bootstrap key is audited |
| Bootstrap.Server.BootstrapKey | internal/api/auth.go:153-242 | From any reachable store a start that succeeds alone leaves an operator key and every bootstrap key audited, a first key as created and a later one as recovered; and when it succeeds |
| Bootstrap.Server.AuditBootstrap | internal/api/auth.go:253-275 | The record, of a creation or of a recovery, is written before the flag; a key that is gone needs no flag |
| Bootstrap.Server.InsertKey | internal/api/auth.go:277-283 | Created exactly if the id was absent |
| Bootstrap.Server.ScanKeys | internal/api/auth.go:174-188 | Whether there is a key, an operator, and which bootstrap keys are unaudited |
| Bootstrap.Server.AuditAll | internal/api/auth.go:190-195 | Success means that every unaudited key is flagged; no key is lost or otherwise changed |
| KeyToken.ParseKeyAcceptsExactly | internal/api/auth.go:122-142 | Exactly the well-formed tokens are accepted, each as the pair it spells |
| KeyToken.ParseKeyUndoesMint | internal/api/auth.go:88-133 | Parsing a minted token gives back its id and its secret |
| KeyMaterial.Marshal | internal/signer/softkey.go:234-253 | What is marshalled unmarshals to the same components, or, the traditional key being 65536 bytes or longer, is refused |
| KeyMaterial.UnmarshalUndoesMarshal | internal/signer/softkey.go:234-295 | Decoding inverts encoding for every component shorter than 65536 bytes and fails on longer ones |
| KeyMaterial.UnmarshalAcceptsExactly | internal/signer/softkey.go:258-295 | Exactly a 32-byte seed, a big-endian 16-bit length and that many bytes are accepted |
| KeyMaterial.MarshalUndoesUnmarshal | internal/signer/softkey.go:258-295 | Re-encoding any accepted layout gives the same bytes |
| KeyMaterial.Zero | internal/signer/softkey.go:311-315 | Every byte is overwritten |
| Pkcs11Ref.Parse | internal/signer/pkcs11.go:51-81 | Accepts exactly the references that denote a triple, and returns that triple; of the others it says what is wrong first |
| Pkcs11Ref.ReadAttributes | internal/signer/pkcs11.go:57-76 | Reads known attributes once each, in any order, or reports the first part that is malformed, repeated or unknown, and which of these it is |
| Pkcs11Ref.FormatPrintsItsMeaning | internal/signer/pkcs11.go:36-46 | Formatting succeeds exactly for usable triples and prints a reference that denotes the triple |
| Pkcs11Ref.MeaningIsUnique | internal/signer/pkcs11.go:51-81 | A reference denotes at most one triple |
| Pkcs11Ref.FormattedIsReadBack | internal/signer/pkcs11.go:36-81 | What was formatted denotes the triple it was made from and no other, so parsing it is the identity |
| Pkcs11Ref.MeaningIsFormattable | internal/signer/pkcs11.go:36-81 | Every accepted reference has a normal form with the same meaning |

## Left out

- Cryptography, certificate encoding and X.509 parsing: digests and signatures are parameters, a certificate request is a record of its names.
- HTTP routing, JSON, JWS and base64 parsing, nonces, problem documents and logging to standard error.
- Network validation of challenges: its result is an input. HSM, KMS and passphrase envelopes, file permissions and symbolic links are not part of this model; the key directory is a map from names to contents.
- Profiles, validity clamping, algorithm lookups, tenant checks and the choice of chains before the issuing loop: they would add only easy members.
- Order expiry and finalize requests of one order that run at the same time: the code neither checks the one nor serialises the other, so nothing is claimed about them.
- 64-bit sequence numbers are natural numbers below 2^64; running out of them is an end of the modelled run. CRL numbers and bucket counters are unbounded.
- Parsing of request bodies and certificate requests.
- Failing reads of the minted key's final file: a start looks into it only after its own rename failed.
- BoltStore.UpdateIsRefusedExactlyWhenBlocked: the embedded database also refuses keys and values above its own size limits, which are the library's and not part of this model.
- OperatorGuard.LastOperatorSafety: keys added or removed behind the API's back are not part of this model.
- Listing a bucket through the store interface on its own: scans appear where a protocol uses them.
