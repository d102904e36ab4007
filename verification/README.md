# Verified model of taproot-common

A Dafny model of the parts of taproot-common where many steps, many parties or a whole
history decide whether something is right, and proofs about all of their inputs, runs and
schedules. `dafny verify dfyconfig.toml` checks everything.

## What is modelled

**The tamper-evident activity log** (`Activity*.dfy`, `JsonbValues.dfy`, `ComplianceExport.dfy`, `Hex.dfy`).
Any number of writers append to per-project hash chains without a lock. `ActivityLog` is a transition system
whose steps are the recorder's awaited calls over the adapter's upserts; a call may be answered,
lost before the commit, lost after it, or may commit arbitrarily late. The append-only trigger is a
parameter, and nothing is asked of the records. `ActivityLogSafety` proves what every run keeps,
`ActivityLogSeals` which chains then verify, `ActivityLogContention` how many attempts a race can cost,
`ActivityTrigger` and `ActivityTriggerRace` what is left to accept, and what of the bound, once the trigger is
on. `ActivitySchedule` and `ActivityRecorder` are the recorder itself, as a mutable object whose retry loop ends
exactly where its specification does, and whose every course is a run of the transition system. `ActivityChain`
is the hash and the verifier, `ActivityStorage` the column conversion and the SQL, `JsonbValues` what jsonb does
to numbers, `ActivityBuild` the record the recorder assembles. `ComplianceExport` builds, signs and checks the
export; `Hex` is the text that keys and signatures travel in. `ActivityColumns` says the same column by column, on
the values themselves: what the hash binds, what an upsert compares and refuses, what the table holds.

**The database ownership contract** (`Db*.dfy`). The rendered bootstrap is a transformer of a catalog of roles,
memberships, owners, access lists and default privileges, and may stop at a statement that PostgreSQL refuses: a
membership the admin may not grant or that would close a circle, an owner it cannot act for or give to, a procedure
under `ALTER FUNCTION`, a grant on an object it holds nothing on. `DbBootstrap` runs it statement by statement and
loop by loop, taking and giving back memberships, and says when it gets to its end and which memberships it leaves if
it does not; `DbContract` is what it does, when, and what the rendered verification asks; the theorems say when the
one leads to the other from any catalog. `DbFinishing` says on which catalogs the script finishes, `DbStatements` that
the table and sequence grants amount to one rewriting of each access list, `DbPrivileges` what the roles end up with,
`DbContractSettling` and `DbSecondRun` when a second run gets to its end and changes nothing, `DbRuntimeTables` a case
where it does change something. `DbRegistry` holds the registered contracts. `DbByKind` says object by object who owns
what and holds what after a finished script, and what each verification sees; `DbObstacles` what stops one.

**The circuit breaker and the retry loop** (`CircuitBreaker.dfy`), **signed tokens**
(`Base64Url.dfy`, `InternalTokens.dfy`, `DelegatedTokens.dfy`, `DelegatedPolicy.dfy`), **context propagation**
(`ContextPropagation.dfy`, `ContextSafeMerge.dfy`, `ContextLineage.dfy`, `ContextIngress.dfy`) and **the metadata
cache** (`MetadataCache.dfy`).

Foreign functions are parameters, and each theorem names the laws it needs of them: a jsonb column takes a
value and gives it back with its numbers rewritten, or refuses it (`JsonbLaw`), ISO text names its instant and
offset (`FaithfulIso`), claims and documents can be told from their JSON (`LosslessClaims`, `LosslessEncoding`), the
digest has no collisions (`CollisionFree`), a signature check passes exactly for what the matching key signed
(`Ideal`), and Python's `sorted` and `str` do what they say (`FaithfulBuiltins`). `Enumerates` says that a
query returns every matching row, in some order, possibly more than once. Everything named there is an
assumption of the theorem that names it and is not proved of the real libraries; that the laws can be met, all of
them at once, is proved in `LawfulLibraries` (`ChainLawsMet`, `TokenLawsMet`, `ExportLawsMet`, `QueryLawMet`), by
libraries made from injections into text (`Injections`).

## What turned out to hold only under a condition

- A valid chain with its last row deleted is still a valid chain: the verifier sees every deletion
  but that one (`DeletionLocalised`).
- A record hash survives storage exactly when every datetime in the record is written in UTC and no number in
  its JSON is a float that jsonb writes differently (`HashStableIff`). The server returns instants in UTC, and
  the hash covers the offset as written, or its absence; jsonb keeps numbers as numeric, so a float of
  magnitude 1e16 or more comes back as an integer and -0.0 without its sign (`RenumberedIff`,
  `WideFloatChangesHash`). The recorder's own values have the property; a caller's `occurred_at`, metadata and
  targets need not (`BuiltRecordIsStorable`).
- Hence after any run a chain verifies exactly when every row committed to it came from such a record, and
  otherwise stops at the first that did not (`EveryRunVerifies`); one writer with one such record is enough
  (`UnstableRecordFails`). Numbering and links hold for all records (`EveryRunLinks`).
- With the append-only trigger on, a retry after the interaction or the activity has been stored is
  never accepted, because the self-assigning `ON CONFLICT DO UPDATE` is itself refused
  (`TriggerDefeatsRetry`). With nothing going wrong, a package is accepted exactly when none of it was stored
  before and the server takes all of it (`TriggerAcceptsFresh`). The chain stays linked either way.
- A snapshot or diff without a caller-supplied id can be stored twice: every attempt mints a new id
  (`UnnamedItemMayRepeat`). One with an id is stored once (`NamedItemStoredOnce`).
- jsonb compares numbers by value, so a second write whose content differs only as 1 differs from 1.0 counts
  as the same content (`RepeatedInsert`, by `SameContent`).
- A windowed export passes verification exactly when the trusted key decodes to the signer's, the window
  selects a prefix of the chain, and every selected row came from a record whose hash is stable
  (`ExportPassesIff`). The key is compared as bytes: upper case and spaces in its hex make no difference
  (`BuiltSignatureChecks`, `CapitalsDecode`).
- An empty trusted key selects the key embedded in the document and still counts as a trusted key
  (`TrustedKeyDecides`); the export theorems ask for a non-empty one.
- A stored procedure in a governed schema that is not the DDL role's stops the bootstrap, whoever runs it:
  the routine loop selects it and `ALTER FUNCTION` refuses it (`StrayProcedureStops`). So does an app role that is
  a member of the DDL role where the contract makes the DDL role a member of it, because PostgreSQL refuses
  circular memberships (`CircularGrantStops`). For a superuser these are the only obstacles
  (`SuperuserFinishesIff`); `ReadyFinishes` gives a condition on the catalog for anybody.
- A script that stops leaves the admin at most the DDL role's membership usable of those it took; everything taken
  by a block has been given back (`Halted`, in the contract of `Bootstrap`).
- A finished service bootstrap verifies exactly when the admin who ran it is not the DDL role: otherwise
  retiring the admin's default privileges undoes the DDL role's (`ServiceBootstrapVerifies`).
- A finished shared bootstrap verifies exactly when no fact table stays rewritable: no statement revokes
  PUBLIC's table privileges, and on an extension's table whose owner the admin cannot act for REVOKE does
  nothing (`SharedBootstrapVerifies`, `FactTableAfter`). Without such tables PUBLIC alone decides
  (`SharedVerifiesIffPublic`).
- A superuser's second run always gets to its end and changes nothing (`SuperuserSecondRun`). Anybody else's gets
  to its end exactly when the catalog in between allows it (`SecondRunFinishesIff`): the first run may have given
  back what the second would need.
- A second run that gets to its end changes nothing exactly when it leaves no membership behind and every list it
  may write is as declared already (`SecondRunChangesNothing`). On PostgreSQL 16 it can leave one inert membership,
  when the admin could act as the DDL role only through memberships it lost on giving back what it had taken:
  `SecondRunIdleIff` says for which starting catalogs, and `DetourNotIdle` is one. Lists can change only where the
  contract makes the DDL role a member of the app role (`SecondRunIdleWithoutApp`): by the second run the admin acts
  for the app role, and writes lists of runtime-owned tables that the first was only warned about
  (`RuntimeTableNotIdle`).
- A breaker threshold below one behaves as one; with negative `max_retries` an admitted request makes
  no attempt and falls through; an exception other than a connection error leaves the breaker
  uncharged (`BreakerRefinesHistory`, `ExecuteWithRetry`).
- A token with characters outside ASCII, and a delegated token whose `metadata` or `entitlements`
  claim is not a dictionary, escape with an exception that is not a token error
  (`RefusalsMean`, `DelegatedRoundTrip`).

## Model

| member | source | states |
|---|---|---|
| ActivityChain.VerifyActivityChainRows | src/taproot_common/activity/chain.py:95-147 | the loop reports the longest intact prefix and the first defect after it, in the order the checks are made |
| ActivityChain.ReportIsExact | src/taproot_common/activity/chain.py:95-147 | valid exactly for an intact chain; `records_checked` is the length of the longest intact prefix, and every shorter prefix is intact |
| ActivityChain.DeletionLocalised | src/taproot_common/activity/chain.py:110-119 | deleting row i gives `sequence_gap` at its successor with i records checked; deleting the last row is not seen |
| ActivityChain.AlterationLocalised | src/taproot_common/activity/chain.py:129-139 | rewriting row i gives `hash_mismatch` at i if and only if its canonical content changed |
| ActivityColumns.ColumnAlterationSeen | src/taproot_common/activity/chain.py:129-151 | a row rewritten in any one of its 22 columns, to other text, to or from nothing, to another instant or another JSON value, is a `hash_mismatch` at that row |
| ActivityColumns.ChainColumnAlterationSeen | src/taproot_common/activity/chain.py:110-139 | a rewritten number is a gap that names it, a rewritten link a `prev_hash_mismatch`, a rewritten hash a `hash_mismatch`, each at its row |
| ActivityColumns.OtherKeySeen | src/taproot_common/activity/chain.py:72-92 | a chain moved to another key fails at its first row |
| ActivityColumns.HashBindsEverything | src/taproot_common/activity/chain.py:72-92 | equal hashes mean one key, one number, one predecessor, and columns that all read the same |
| ActivityChain.SwapLocalised | src/taproot_common/activity/chain.py:110-119 | exchanging rows i < j gives `sequence_gap` naming j's number, with everything before i checked |
| ActivityChain.HeadDeterminesHistory | src/taproot_common/activity/chain.py:72-92 | two non-empty chains valid under one key and ending in one hash have equal length and agree row by row in canonical content and chain columns |
| ActivityColumns.HeadDeterminesColumns | src/taproot_common/activity/chain.py:72-92 | two such chains have the same length and read the same in every column of every row |
| ActivityChain.SubsetIntactIffPrefix | src/taproot_common/activity/chain.py:95-147 | a selection of an intact chain's rows verifies if and only if it is a prefix |
| ActivityStorage.HashStableIff | src/taproot_common/activity/storage.py:589-596 | the hash of the native record equals the hash of the stored row exactly when every datetime is written in UTC and no number, however deep, is a float that jsonb writes differently |
| ActivityStorage.HashStable | src/taproot_common/activity/chain.py:150-165 | for such records the hash is stable, without assuming a collision-free digest |
| ActivityStorage.WideFloatChangesHash | src/taproot_common/activity/chain.py:72-92 | a float of magnitude 1e16 or more in the metadata, a deadline in nanoseconds say, changes the hash, whatever else the record holds |
| ActivityStorage.TakenIffStorable | src/taproot_common/activity/storage.py:589-596 | which records of the recorder's shape the server takes can be told from their values |
| JsonbValues.RenumberedIff | src/taproot_common/activity/storage.py:589-596 | a JSON value comes back from a jsonb column as it was exactly when every number in it survives |
| JsonbValues.SurvivesIff | src/taproot_common/activity/storage.py:589-596 | every number survives exactly when no part of the value is -0.0 or a float of magnitude 1e16 or more |
| JsonbValues.FirstWide | src/taproot_common/activity/storage.py:589-596 | 1e16 itself comes back as an integer, the float before it unchanged |
| JsonbValues.StorableIff | src/taproot_common/activity/storage.py:589-596 | jsonb takes a value exactly when no part of it is a NaN, an infinity or text with a NUL |
| JsonbValues.ComparedIff | src/taproot_common/activity/storage.py:554-578 | the comparison finds exactly the values that are equal up to the form of their numbers, at every depth |
| ActivityColumns.UntakableRefused | src/taproot_common/activity/storage.py:589-596 | a column with a NUL, or JSON with a NUL, a NaN or an infinity anywhere inside, keeps the row out of the table |
| ActivityColumns.MissingColumns | src/taproot_common/activity/storage.py:201-217 | an activity is turned away for a missing column exactly when one of twelve named ones is absent |
| ActivityStorage.FetchReturns | src/taproot_common/activity/storage.py:272-287 | of any table, however tampered with, the query returns the rows of the key, each as often as stored, by ascending number |
| ActivityBuild.BuiltRecordIsStorable | src/taproot_common/activity/recorder.py:1361-1440 | every record the recorder builds has the columns storage requires; if the server takes it, its hash is stable exactly when the caller's instant, if any, is in UTC and the caller's numbers survive |
| ActivityBuild.ActionCarried | src/taproot_common/activity/recorder.py:1418-1426 | which input each column on the action and its target carries |
| ActivityBuild.FilingCarried | src/taproot_common/activity/recorder.py:1426-1433 | which input each column on phase, outcome, durability, evidence and label carries |
| ActivityBuild.LinkCarried | src/taproot_common/activity/recorder.py:1413-1417 | what the interaction contributes, and that a parent named by the caller wins |
| ActivityBuild.StructuresCarried | src/taproot_common/activity/recorder.py:1434-1446 | targets, override and instant; empty lists become null and the clock is read in UTC |
| ActivityBuild.ReferencesCarried | src/taproot_common/activity/recorder.py:1551-1560 | each reference is kept exactly if given, and nothing at all if none is |
| ActivityBuild.MetadataCarried | src/taproot_common/activity/recorder.py:1376-1412 | which metadata entry wins: the call, the reconstruction, the scope, the annotations, the sequence |
| ActivityLog.ChainedIsPending | src/taproot_common/activity/recorder.py:853-879 | what an attempt computes from the head it read is the next position of its chain, linked to its last row, for every record |
| ActivityLog.FreeMeansNext | alembic/versions/0003_activity_records_hash_chain.py:37-43 | a computed position is free under the unique index exactly when the chain has not grown since |
| ActivityLog.AppendKeepsTable | src/taproot_common/activity/storage.py:513-552 | inserting a computed row at a free position with a new id keeps every chain numbered 1..n and linked, and ids unique |
| ActivityLog.PerformKeeps | src/taproot_common/activity/storage.py:554-578 | every upsert, with any outcome, keeps all chains numbered and linked and removes or changes nothing; a success has stored its content |
| ActivityLogSafety.StepKeeps | src/taproot_common/activity/recorder.py:674-720 | every single event keeps the whole invariant: chains, late writes, and what each writer may rely on in its phase |
| ActivityLogSafety.EveryRunLinks | src/taproot_common/activity/recorder.py:674-720 | after any run of any number of writers, with any records, faults and late commits, trigger on or off, each chain holds 1..n, each row linked to the one before |
| ActivityLogSeals.EveryRunVerifies | src/taproot_common/activity/storage.py:272-287 | after any run, verification of a chain is valid, with n checked, exactly when every row committed to it came from a record whose hash is stable; otherwise it is a hash mismatch at the first row that did not |
| ActivityLogSeals.SurvivingRunVerifies | src/taproot_common/activity/storage.py:272-287 | when all records survive storage every chain of every run verifies, without assuming a collision-free digest |
| ActivityLogSeals.UnstableRecordFails | src/taproot_common/activity/chain.py:129-139 | for every record that does not survive there is a run of one undisturbed writer after which its chain fails at row 1 |
| ActivityLogSafety.AcceptedMeansComplete | src/taproot_common/activity/recorder.py:366-438 | an accepted package has its interaction, activity and every related row stored |
| ActivityColumns.AcceptedHolds | src/taproot_common/activity/recorder.py:366-438 | an accepted activity is in the table, and each of its columns holds the same text, the same instant in UTC, or an equal JSON value |
| ActivityLogSafety.FirstCommitIsFinal | src/taproot_common/activity/storage.py:224-257 | a committed row never moves, and no later attempt adds another row of its id |
| ActivityLogSafety.ReuseNeverAccepted | src/taproot_common/activity/storage.py:541-545 | an activity id already stored with other content is never accepted in any run, and the stored row remains |
| ActivityColumns.ChangedNeverAccepted | src/taproot_common/activity/storage.py:224-257 | a package that reuses a stored id with any one of the other 21 columns changed is never accepted, in any run |
| ActivityLogSafety.RepeatedInsert | src/taproot_common/activity/storage.py:554-578 | inserting a stored id again leaves the table as it is, and succeeds only for content that compares equal with the trigger off, whatever position it carries |
| ActivityColumns.RepeatedWriteByColumn | src/taproot_common/activity/storage.py:513-552 | an id written again is a conflict exactly when the text, the instant or the JSON value of some other column differs, and leaves the table as it is |
| ActivityLogSafety.NamedItemStoredOnce | src/taproot_common/activity/recorder.py:790-838 | an accepted snapshot or diff with a caller's id is stored exactly once, whatever the number of attempts |
| ActivityLogSafety.UnnamedItemMayRepeat | src/taproot_common/activity/recorder.py:1216 | a run in which an accepted package without ids leaves its snapshot stored twice |
| ActivityLogSafety.TriggerDefeatsRetry | alembic/versions/0004_system_record_append_only.py:49-69 | with the trigger on, a writer whose interaction or activity is already stored is never accepted |
| ActivityTrigger.TriggerAcceptsFresh | alembic/versions/0004_system_record_append_only.py:49-69 | with the trigger on and no fault, a package is accepted exactly when its interaction, its activity id and all its items are absent, and the server takes all of it |
| ActivityLogContention.TakenMeansOvertaken | src/taproot_common/activity/recorder.py:853-879 | a position found taken was taken by another activity committed after this attempt read its head |
| ActivityLogContention.OnlyPositionsFail | src/taproot_common/activity/storage.py:513-552 | among writers that agree on shared rows, a write can fail only by losing its chain position |
| ActivityLogContention.ContentionBound | src/taproot_common/activity/recorder.py:674-720 | a writer uses at most as many attempts as its chain has writers plus calls it lost; with that many allowed it is never rejected, and after that many attempts' calls it is accepted |
| ActivityTriggerRace.TriggerContentionBound | src/taproot_common/activity/recorder.py:674-720 | with the trigger on, a writer without an interaction row keeps that bound until its activity is stored: it is not rejected before, and after that many attempts' calls it is stored |
| ActivitySchedule.DriveIsRun | src/taproot_common/activity/recorder.py:674-720 | whatever foreign writes and faults a schedule holds, the recorder's course is a run of the transition system |
| ActivityRecorder.StorageAdapter.WriteActivityRecord | src/taproot_common/activity/storage.py:173-257 | a missing column or a refused value first, then the id, and the chain index only for a new id; table and outcome are those of the transition system's insert (`RepeatedWriteByColumn`, `MissingColumns`, `UntakableRefused`) |
| ActivityRecorder.StorageAdapter.WriteInteractionRecord | src/taproot_common/activity/storage.py:139-171 | created, already stored with equal content, refused by the trigger, or conflict |
| ActivityRecorder.StorageAdapter.WriteRelated | src/taproot_common/activity/storage.py:321-402 | the same for snapshots, diffs and evidence links |
| ActivityRecorder.StorageAdapter.GetActivityChainHead | src/taproot_common/activity/storage.py:259-270 | the row of the key with the largest sequence number |
| ActivityRecorder.StorageAdapter.VerifyActivityChain | src/taproot_common/activity/storage.py:272-287 | reports on the key's rows in sequence order |
| ActivityRecorder.Recorder.AwaitWrite | src/taproot_common/activity/recorder.py:881-901 | true only for a write that succeeded and was acknowledged, which is then in the database |
| ActivityRecorder.Recorder.EnsureActivityInteraction | src/taproot_common/activity/recorder.py:840-851 | success means the interaction is stored; the attempt goes on to the head, or fails |
| ActivityRecorder.Recorder.ChainActivityRecord | src/taproot_common/activity/recorder.py:853-879 | reads the head anew and yields the row placed after it |
| ActivityRecorder.Recorder.WriteRelatedRows | src/taproot_common/activity/recorder.py:771-838 | stops at the first failure; the rows reported as written are stored |
| ActivityRecorder.Recorder.WriteActivityOnce | src/taproot_common/activity/recorder.py:746-838 | success means a complete package, a failure reports truthfully how far it came, and the attempt leaves recorder and database where the specification does |
| ActivityRecorder.Recorder.WriteActivityWithRetry | src/taproot_common/activity/recorder.py:674-720 | ends exactly where the specification does: accepted on the first complete attempt, rejected only after the last one failed |
| ComplianceExport.VerifySignedComplianceExport | src/taproot_common/activity/export.py:194-241 | signature, chain and trusted key are each reported truthfully, with the reason of the first defect, and pass overall only together; undecodable hex is an invalid signature |
| ComplianceExport.CheckSignature | src/taproot_common/activity/signing.py:104-126 | valid exactly when key and signature are hex of something, the key is one, and the check of the decoded values passes |
| ComplianceExport.TrustedKeyDecides | src/taproot_common/activity/export.py:194-241 | a key that is given is the one that decides, save that an empty one stands for the document's own and still passes for trusted |
| ComplianceExport.EmbeddedKeyNeverPasses | src/taproot_common/activity/export.py:194-241 | without a key the document's own decides whether the signature is valid, and nothing passes overall |
| Hex.HexRoundTrip | src/taproot_common/activity/signing.py:98-126 | decoding the hex of any bytes gives them back, and only no bytes have empty hex |
| Hex.CapitalsDecode | src/taproot_common/activity/signing.py:125-126 | hex in capitals names the same bytes |
| ComplianceExport.HashStableThroughExport | src/taproot_common/activity/export.py:105-121 | stored row and exported row hash alike, and the native record with them exactly when it survives storage |
| ComplianceExport.ExportKeepsIntact | src/taproot_common/activity/export.py:105-121 | making rows JSON-safe keeps a chain intact, and a broken one broken |
| ComplianceExport.ExportedColumn | src/taproot_common/activity/export.py:105-121 | an exported column is the stored one, instants as ISO text, and the chain columns are untouched |
| ComplianceExport.ExportPassesIff | src/taproot_common/activity/export.py:145-191 | a built export passes exactly when the trusted key decodes to the signer's, the window selects a prefix of the chain, and every selected row came from a record whose hash is stable |
| ComplianceExport.BuiltSignatureChecks | src/taproot_common/activity/export.py:194-226 | the signature of a built document checks under exactly the spellings of the signer's key |
| ComplianceExport.UnwindowedExportPasses | src/taproot_common/activity/export.py:145-191 | an export without window of any reachable log passes under the signer's key exactly when its chain came from records whose hash is stable |
| ComplianceExport.WindowSelects | src/taproot_common/activity/storage.py:289-318 | a window selects exactly the rows of the chain whose instants lie between its bounds, both included, in sequence order |
| ComplianceExport.BuiltDocument | src/taproot_common/activity/export.py:145-191 | every entry of the built document, with the counts of what it holds |
| ComplianceExport.SignatureBindsDocument | src/taproot_common/activity/export.py:135-142 | with another document's signature a document's signature is valid exactly when it reads like that document, entry by entry, and the trusted key decodes to its signer's |
| ComplianceExport.RenderedBinds | src/taproot_common/activity/export.py:135-142 | documents that read alike agree on every entry but the signature and on every column of every row |
| DbContractTheorems.ServiceBootstrapVerifies | src/taproot_common/db_contract.py:407-454 | from any catalog in which the script finishes every service verification statement passes, if and only if the admin is not the DDL role |
| DbContractTheorems.SharedBootstrapVerifies | src/taproot_common/db_contract.py:457-518 | from any catalog in which the script finishes every shared verification statement passes, if and only if no fact table stays open to rewriting by PUBLIC or, where the admin cannot act for its owner, by the writer |
| DbContractTheorems.DefaultInsertIff | src/taproot_common/db_contract.py:391-401 | default privileges let the app role insert unless the retired admin is the DDL role itself |
| DbContractTheorems.FactTableAfter | src/taproot_common/db_contract.py:484-485 | on a fact table the writer is left with no update or delete but PUBLIC's, and its own where the admin cannot act for the owner |
| DbContractTheorems.MembershipsReturned | src/taproot_common/db_contract.py:231-253 | afterwards the admin has no usable membership in any role it was granted on the way, however many owners were met, and no membership of anybody else changed |
| DbContractTheorems.BlockReturns | src/taproot_common/db_contract.py:317-364 | one reassignment block gives back every membership it took and touches no other |
| DbContractTheorems.BootstrapReaches | src/taproot_common/db_contract.py:367-404 | every governed schema ends as its own block leaves it, with the memberships held at its grants: no other block or later statement disturbs it |
| DbByKind.FinishedMeansOwned | src/taproot_common/db_contract.py:289-355 | after a finished script every table, partitioned table, view, materialized view and free-standing sequence outside extensions is the DDL role's, or the app role's if its name fits a runtime pattern; serial sequences follow their tables; functions are the DDL role's; what extensions brought keeps its owner |
| DbByKind.ServiceVerifiesIff | src/taproot_common/db_contract.py:521-596 | the service verification passes exactly when schema owner, the owners of those kinds, the default privileges and the app role's CREATE are as declared |
| DbByKind.SharedVerifiesIff | src/taproot_common/db_contract.py:625-683 | the shared verification passes exactly when schema and objects are the DDL role's and the writer can rewrite no ordinary or partitioned table but the declared ones |
| DbByKind.DriftedOwnerSeen | src/taproot_common/db_contract.py:545-571 | one object of those kinds with any other owner, and neither verification passes |
| DbFinishing.StrayProcedureStops | src/taproot_common/db_contract.py:336-355 | a procedure that is not the DDL role's, in any governed schema, keeps the script from its end, whoever runs it |
| DbFinishing.CircularGrantStops | src/taproot_common/db_contract.py:436-440 | an app role that is a member of the DDL role, other than through the admin, keeps the script from its end where the DDL role is to become its member, whoever runs it |
| DbObstacles.ForeignSchemaStops | src/taproot_common/db_contract.py:373 | a schema of an owner out of the admin's reach stops its block |
| DbObstacles.UntouchableTableStops | src/taproot_common/db_contract.py:385-390 | so does an extension's table of such an owner on which the admin holds nothing |
| DbObstacles.NoCreateStops | src/taproot_common/db_contract.py:328-334 | so does a relation to be given to a role that may not create in the schema |
| DbObstacles.UntakableOwnerStops | src/taproot_common/db_contract.py:317-322 | so does an owner out of reach that the admin may not grant itself |
| DbFinishing.ReadyFinishes | src/taproot_common/db_contract.py:210-364 | from a ready catalog, read off before the run, no statement fails, for want of authority or because a membership would close a circle, in whatever order the queries return their rows |
| DbFinishing.SuperuserFinishesIff | src/taproot_common/db_contract.py:407-518 | run by a superuser the script gets to its end if and only if no governed schema holds such a procedure and the contract's own grant of the app role closes no circle |
| DbPrivileges.TablesEndAsDeclared | src/taproot_common/db_contract.py:387-388 | whatever the app role held on a table or view before, it ends with exactly the declared privileges, and each reader may select; an extension's table whose owner the admin cannot act for keeps what it had |
| DbPrivileges.SchemaEndsUsable | src/taproot_common/db_contract.py:372-390 | app role and readers may use the schema, and the app role the sequences and functions whose owner the admin acts for; procedures get nothing |
| DbPrivileges.FutureObjectsCovered | src/taproot_common/db_contract.py:391-401 | what the DDL role creates later carries the declared privileges, and the admin's legacy defaults are gone |
| DbPrivileges.BootstrapGrants | src/taproot_common/db_contract.py:407-518 | a finished script leaves those privileges in every governed schema and the declared ones on the database, from any catalog |
| DbByKind.FinishedMeansGranted | src/taproot_common/db_contract.py:385-390 | after a finished script whatever can be selected from, views and foreign tables included, carries exactly the declared privileges where the admin acts for its owner |
| DbByKind.ServiceSchemaGrants | src/taproot_common/db_contract.py:367-404 | for every registered service: the declared table privileges, USAGE and SELECT on sequences, EXECUTE on functions |
| DbByKind.SharedSchemaGrants | src/taproot_common/db_contract.py:457-518 | for the system of record: SELECT and INSERT on tables, UPDATE on the retention policies alone, and SELECT for the front |
| DbByKind.ServiceRoles | src/taproot_common/db_contract.py:436-448 | for every registered service: whose search path is set, and to what, and that only the service that makes tables at run time has its DDL role join its app role |
| DbPrivileges.SharedVerifiesIffPublic | src/taproot_common/db_contract.py:484-485 | where no extension brought tables along, a finished shared bootstrap verifies if and only if PUBLIC could not rewrite a fact table to begin with |
| DbContractProofs.SchemaSettles | src/taproot_common/db_contract.py:367-404 | a schema that has been through its block comes through it again unchanged, and all its lists are declared, if the admin then acts for no owner it did not act for before |
| DbContractProofs.SchemaSettlesIff | src/taproot_common/db_contract.py:367-404 | it comes through again unchanged if and only if every list that the admin may then write is as declared |
| DbContractSettling.SecondRunFinishesIff | src/taproot_common/db_contract.py:407-518 | after a finished run a second one gets to its end if and only if the DDL membership is there or can be taken, the admin acts for the DDL role and may grant on the rest, and the closing statements are allowed |
| DbContractSettling.SecondRunChangesNothing | src/taproot_common/db_contract.py:407-518 | a second run that gets to its end changes nothing, if and only if every list it may write is declared, and it is before PostgreSQL 16, or the admin kept a membership in the DDL role, or can act as it |
| DbContractSettling.SuperuserSecondRun | src/taproot_common/db_contract.py:407-518 | a superuser's second run gets to its end and changes nothing at all |
| DbSecondRun.SecondRunIdleIff | src/taproot_common/db_contract.py:210-253 | the same on the starting catalog, PostgreSQL 16 and no superuser: every list is declared, and the admin is left a membership in the DDL role, or the starting memberships less those given back still let it act as that role |
| DbSecondRun.SecondRunIdleOtherwise | src/taproot_common/db_contract.py:210-253 | for a superuser, or before PostgreSQL 16, the lists alone decide |
| DbSecondRun.SecondRunIdleWithoutApp | src/taproot_common/db_contract.py:436-440 | where the contract joins no app role, the memberships alone decide |
| DbSecondRun.DetourNotIdle | src/taproot_common/db_contract.py:210-253 | a family of catalogs whose first run finishes; a second gets to its end exactly when an intermediate role may lend the DDL role, and then adds a membership |
| DbRuntimeTables.RuntimeTableNotIdle | src/taproot_common/db_contract.py:385-390 | a family of catalogs where both runs get to their ends and the second writes the list of a runtime-owned table, which the first could not |
| DbBootstrap.Database.ReassignRelations | src/taproot_common/db_contract.py:289-335 | the relation loop stops at the first statement PostgreSQL refuses, and otherwise gives every managed relation its target owner, serial sequences along with their tables, taking exactly the memberships that were missing |
| DbBootstrap.Database.ReassignRoutines | src/taproot_common/db_contract.py:336-355 | the routine loop stops at a procedure, and otherwise gives every routine outside extensions to the DDL role |
| DbBootstrap.Database.ReturnMemberships | src/taproot_common/db_contract.py:356-363 | gives back every collected membership, by option on PostgreSQL 16 and whole before it |
| DbBootstrap.Database.ReassignSchemaObjects | src/taproot_common/db_contract.py:256-364 | the block ends with all owners reconciled and all memberships given back, for any order of rows, or fails exactly when one of its statements does and then leaves no membership behind |
| DbBootstrap.Database.TakeDdlMembership | src/taproot_common/db_contract.py:210-228 | grants the membership only when the abilities asked for are missing, and fails, changing nothing, exactly when the admin may not grant it or the DDL role is a member of the admin |
| DbStatements.RelationGrantsDo | src/taproot_common/db_contract.py:385-390 | the grants on tables and sequences, statement by statement, amount to one rewriting of each access list |
| DbBootstrap.Database.GrantOnRelations | src/taproot_common/db_contract.py:385-389 | the loop over those statements fails exactly when one of them concerns an object the admin holds nothing on, and changes lists only where the admin acts for the owner |
| DbBootstrap.Database.AlterDefaults | src/taproot_common/db_contract.py:391-401 | the default-privilege statements in their order, with the admin's retired |
| DbBootstrap.Database.GrantOnDatabase | src/taproot_common/db_contract.py:429-431 | the database grants and the revoke, one by one |
| DbBootstrap.Database.SchemaGrants | src/taproot_common/db_contract.py:367-404 | the statements of one schema, in order, fail exactly when the block does, and amount to it otherwise |
| DbBootstrap.Database.Close | src/taproot_common/db_contract.py:436-453 | joining the roles, setting the paths and withdrawing, one by one; stops at a circular grant or for want of authority, and withdraws nothing then |
| DbBootstrap.Database.Bootstrap | src/taproot_common/db_contract.py:407-518 | the whole script gets to its end exactly on the catalogs the theorems speak of, and is then the transformer they are about; wherever else it stops, run by anybody but the DDL role, no membership taken is left usable but the DDL role's, and no other has changed |
| DbRegistry.RegisteredServiceVerifies | src/taproot_common/db_contract.py:116-175 | the service theorem applies to every registered service |
| DbRegistry.RegisteredServiceFinishes | src/taproot_common/db_contract.py:116-175 | run by a superuser the bootstrap of a registered service finishes exactly when there is no stray procedure and, for retrieval, no circular membership |
| DbRegistry.RegisteredServiceRepeats | src/taproot_common/db_contract.py:116-175 | a superuser may run a registered bootstrap again, to its end and without effect |
| DbRegistry.SystemRecordVerifies | src/taproot_common/db_contract.py:177-183 | the shared theorem applies to the system of record |
| DbRegistry.RuntimeOwnedMeans | src/taproot_common/db_contract.py:142-153 | the runtime-owned relations are exactly those whose names end in `_vector_store` |
| CircuitBreaker.BreakerRefinesHistory | src/taproot_common/http.py:70-110 | after any interleaving of outcomes and reads a request is admitted exactly when trailing failures are below the threshold or the last failure is a reset timeout old; the stored state is CLOSED exactly below the threshold |
| CircuitBreaker.FieldsMatchHistory | src/taproot_common/http.py:80-106 | the stored fields are the trailing failure count and the time of the last failure |
| CircuitBreaker.Breaker.ReadState | src/taproot_common/http.py:87-93 | a read moves OPEN to HALF_OPEN once the timeout is over |
| CircuitBreaker.Breaker.RecordFailure | src/taproot_common/http.py:99-106 | counts, remembers the time, and opens at the threshold or from HALF_OPEN |
| CircuitBreaker.Breaker.RecordSuccess | src/taproot_common/http.py:95-97 | closes the breaker and forgets the failures |
| CircuitBreaker.Breaker.AllowRequest | src/taproot_common/http.py:108-110 | the decision is the one the history determines |
| CircuitBreaker.ExecuteWithRetry | src/taproot_common/http.py:264-341 | zero attempts when refused; otherwise an exchange is followed by another exactly when attempts remain and it was a connection error or answered 502, 503 or 504; the last one decides the result and is charged once, as failed in those cases and as succeeded for every other response; it falls through only for negative `max_retries` |
| CircuitBreaker.TotalDelayClosed | src/taproot_common/http.py:264-341 | the waits of n retries add up to the base times 2^n - 1 |
| Base64Url.RoundTrip | src/taproot_common/trust/tokens.py:62-68 | decoding an encoding gives the bytes back, for every byte string and residue |
| Base64Url.PaddedRoundTrip | src/taproot_common/trust/tokens.py:66-68 | the same for the padded form the decoder restores |
| Base64Url.EncodeShape | src/taproot_common/trust/tokens.py:62-63 | only the 64 URL-safe symbols, no padding, and the length that the number of bytes dictates |
| Base64Url.ThreeBytesAreFourDigits | src/taproot_common/trust/tokens.py:62-63 | three bytes read as one number are four base-64 digits, the highest first |
| Base64Url.EncodeInjective | src/taproot_common/trust/tokens.py:62-63 | different bytes have different encodings |
| InternalTokens.TokenParts | src/taproot_common/trust/tokens.py:215-222 | splitting a token at its dots recovers exactly its three segments |
| InternalTokens.MintedClaimsMean | src/taproot_common/trust/tokens.py:97-109 | each claim of a plain token: subject, audience, times, the actor email if given, and the caller's own |
| InternalTokens.SignedTokenVerifies | src/taproot_common/trust/tokens.py:215-252 | a signed token verifies to its claims for its audience until it expires, and is refused with the right error otherwise |
| InternalTokens.MintedTokenRoundTrip | src/taproot_common/trust/tokens.py:79-118 | a minted token verifies to its claims at every time before `exp` and at none from then on |
| InternalTokens.OtherSecretRefused | src/taproot_common/trust/tokens.py:223-229 | under another secret the signature is refused unless the digests coincide |
| InternalTokens.AcceptedIsSigned | src/taproot_common/trust/tokens.py:215-252 | whatever is accepted carries the digest of its own first two parts, a header naming the algorithm, the audience and a future expiry |
| DelegatedTokens.MintDelegatedActorToken | src/taproot_common/trust/tokens.py:121-212 | the guards in their order, then the token of the normalised claims |
| DelegatedPolicy.RequestErrorMeans | src/taproot_common/trust/tokens.py:148-199 | which requests are refused, and how: no secret; no audience, subject or actor, a lifetime outside 1 to 300 seconds, or one of eleven controlled claims |
| DelegatedPolicy.GrantedScopesMean | src/taproot_common/trust/tokens.py:175-181 | the scopes granted are `actor.delegate` and the words or non-empty items asked for |
| DelegatedPolicy.WordsMean | src/taproot_common/trust/headers.py:417-438 | nothing splits into nothing, a visible text into itself, and any space separates |
| DelegatedTokens.CollectScopes | src/taproot_common/trust/headers.py:417-438 | a list of scopes is the set of its non-empty texts, and no set at all if anything else is in it |
| DelegatedTokens.CollectPolicy | src/taproot_common/trust/headers.py:387-414 | trimmed values; a blank one, or none where some are required, is an error |
| DelegatedTokens.DelegatedRoundTrip | src/taproot_common/trust/headers.py:236-354 | mint, carry, verify yields exactly the trimmed request plus `actor.delegate` under every policy the request satisfies, and the policy's error under every other |
| DelegatedPolicy.VerdictMeans | src/taproot_common/trust/headers.py:304-354 | what a policy says of a minted token, in the terms of the request |
| DelegatedPolicy.ClaimsErrorMeans | src/taproot_common/trust/headers.py:304-354 | verified claims are refused exactly when type, subject, audience, times, actor or scopes are not in order, or the subject is not among those allowed; and for the project exactly when both are given and differ |
| DelegatedPolicy.TokenScopesMean | src/taproot_common/trust/headers.py:417-438 | the scopes claim counts, and the scope claim only where that is null or missing |
| DelegatedTokens.AcceptedDelegation | src/taproot_common/trust/headers.py:304-354 | whatever is accepted names an actor, holds every required scope and does not contradict the expected project |
| DelegatedPolicy.AcceptedMeansInOrder | src/taproot_common/trust/headers.py:236-301 | whatever is accepted was signed for the audience, its claims meet the policy, its subject is one of those allowed, and the principal says what they say |
| DelegatedPolicy.RefusalsMean | src/taproot_common/trust/headers.py:236-301 | how a verification fails: no secret, no bearer, a token that is none, claims out of order, another project; a token in three parts that is not ASCII fails with an error that is not a token error |
| DelegatedTokens.BearerCarriesToken | src/taproot_common/trust/headers.py:111-120 | the bearer value of a token gives that token back |
| ContextIngress.BearerMeans | src/taproot_common/trust/headers.py:111-120 | a bearer value is the word bearer in any case, a space, and something visible |
| DelegatedPolicy.HeaderFound | src/taproot_common/trust/headers.py:123-140 | the first non-empty value under a name in any case |
| ContextPropagation.CleanHeaders | src/taproot_common/http.py:188-192 | every context header is dropped, in any spelling, and nothing else |
| ContextPropagation.MergeTaprootContext | src/taproot_common/http.py:180-204 | setting the canonical headers one by one amounts to appending those that are taken over |
| ContextPropagation.MergedIsCanonical | src/taproot_common/http.py:180-204 | each context header appears at most once, in its canonical spelling |
| ContextPropagation.MergeIdempotent | src/taproot_common/http.py:180-204 | merging again changes no entry |
| ContextPropagation.CollectLookup | src/taproot_common/activity/context.py:403-438 | the propagation headers hold exactly the values the context gives them |
| ContextSafeMerge.SpoofNeverWins | src/taproot_common/activity/context.py:473-494 | for a reserved header, or one the context sets, a receiver reads the context's value or nothing; every other header keeps the caller's |
| ContextIngress.SafeMergeDropsCredentials | src/taproot_common/activity/context.py:473-494 | a receiver reads nothing under a credential, actor or baggage header |
| ContextIngress.SafeMergeContext | src/taproot_common/activity/context.py:473-494 | the value of each of the nine context headers, in the fields of the context |
| ContextIngress.SafeMergeDefaults | src/taproot_common/activity/context.py:473-494 | correlation and trace are the context's if it has them, and the caller's otherwise |
| ContextSafeMerge.SafeMergeIdempotent | src/taproot_common/activity/context.py:473-494 | merging again leaves the same dictionary in the same order |
| ContextSafeMerge.SafeMergedSplits | src/taproot_common/trust/headers.py:183-186 | what the caller keeps, then the canonical headers, each once |
| ContextLineage.WireCarriesContext | src/taproot_common/http.py:180-204 | context headers on the wire are the sender's own, whatever the caller supplied |
| ContextIngress.WireContext | src/taproot_common/http.py:180-204 | the value of each of the nine context headers on the wire, in the fields of the context; the two about the caller are never sent |
| ContextIngress.WireDefaults | src/taproot_common/http.py:180-204 | a correlation or trace header that the caller set stays, and the context's is sent where it set none |
| ContextLineage.WireKeepsOthers | src/taproot_common/http.py:180-204 | every other header keeps its value |
| ContextLineage.HopLinksToCaller | src/taproot_common/activity/context.py:289-350 | the child's parent interaction is its caller; its parent activity is the caller's, or the caller itself |
| ContextIngress.ChildSpelledOut | src/taproot_common/activity/context.py:289-350 | over one hop every field of the child is determined: type, agents, project, correlation, trace, caller and parents |
| ContextLineage.MintedCallAdmitted | src/taproot_common/activity/context.py:289-350 | a call that carries a live token minted for the receiver is admitted (`AdmittedIsGenuine` is the other direction) |
| ContextIngress.AdmittedIsGenuine | src/taproot_common/activity/context.py:302-306 | only a call with a bearer token whose third part is the digest under the receiver's secret of the first two, for its audience and alive, is admitted, and the caller is the principal of exactly its claims |
| ContextIngress.SignedCallAdmittedIff | src/taproot_common/trust/headers.py:217-233 | a signed token is refused as unauthenticated exactly when its digest is another, its audience is another, it has expired, or its claims have no principal |
| ContextIngress.MissingTokenRefused | src/taproot_common/trust/headers.py:217-233 | a call without a token is unauthenticated |
| ContextLineage.ChainIsLinked | src/taproot_common/activity/models.py:305-309 | along a chain of calls of any length each hop's parent is its caller, and the parent activity is fixed from the first hop on |
| ContextLineage.ClimbIsUnique | src/taproot_common/activity/context.py:289-350 | climbing k parents from hop n leads to hop n - k and nowhere else |
| ContextLineage.LineageReachesRoot | src/taproot_common/activity/context.py:403-438 | with fresh ids the root is reached in exactly as many steps as there were calls, without a cycle |
| MetadataCache.KeysNeverCollide | src/taproot_common/auth/metadata.py:132-152 | the two key namespaces are disjoint and each key determines its id |
| MetadataCache.EntriesComeFromFetches | src/taproot_common/auth/metadata.py:129-130 | every entry of a run came from a fetch of that very key and kind; absence is never cached |
| MetadataCache.HitsAreFresh | src/taproot_common/auth/metadata.py:117-127 | a hit is what the inner store held for that key and kind less than a lifetime and a fetch ago |
| MetadataCache.FilledIsHit | src/taproot_common/auth/metadata.py:117-130 | what was fetched is a hit until its lifetime is over, and none from then on |
| MetadataCache.HitStays | src/taproot_common/auth/metadata.py:117-130 | lookups, and whatever happens to other keys, leave it one |
| MetadataCache.CachedMetadataStore.GetCached | src/taproot_common/auth/metadata.py:117-127 | returns the live entry, and drops an expired one |
| MetadataCache.CachedMetadataStore.Get | src/taproot_common/auth/metadata.py:132-152 | a live entry is returned as it is; otherwise the inner store's answer, cached unless absent |

## Left out

- Cryptography and JSON: SHA-256, HMAC, Ed25519 and the `json` library are parameters with stated laws.
- JsonbValues.NumbersSurvive: floats are told apart only by being finite, -0.0 or neither, and by reaching 1e16, where Python changes to exponent form; smaller magnitudes that Python prints with an exponent, such as 1e-05, read back as the same float and hash alike.
- JsonbValues.Renumbered: dictionaries inside a JSON column whose keys are not strings. `json.dumps` sorts integer keys by number and writes them as text, so that after read-back keys such as 9 and 10 sort the other way and the hash changes; the model's keys are strings.
- SQL text, quoting and the statements that only touch passwords, locks or login attributes: each rendered statement is modelled by its meaning.
- Foreign keys from related rows to activities and interactions: a violation would be one more failed call, which the lost call already covers.
- Failure-visibility rows, logging and the error details of `record_activity`: they are written after the package has been given up and touch no chain.
- `record_activity` and `record_critical_activity` themselves: the second is one attempt (`WriteActivityOnce`), the first is the retry loop with its result wrapped.
- Input validation of `_build_activity_record`, and the builders of snapshot, diff and evidence rows: an item that cannot be built, or that the server refuses, is a flag that fails its attempt; the content of interactions and related rows is the value as the server compares it.
- Retention mode and purging, which bypass the append-only trigger: they appear only as the tampering that the verifier lemmas are about.
- Cancellation: an attempt that is cancelled is one whose calls are lost.
- ActivityStorage.ReadBack: microsecond rounding and other driver conversions are not modelled, only the return to UTC and the re-rendering of jsonb.
- DbContract.Finishes: ownership of the database and of a schema, the right to create a role, and the authority to withdraw a membership are taken as given; memberships have one grantor, and access lists no grant options.
- DbBootstrap.Database.Bootstrap: of a script that stops it says which memberships are left, not what the earlier statements did to owners and access lists; statements take effect one by one, not in one transaction.
- DbBootstrap.Database.Close: the shared script creates each reader role just before that reader's grants; here the roles are created in one loop near the end, and the grants to readers are made with the schema's and the database's other grants.
- DbBootstrap.Database.GrantOnSchema: for the shared script the order of the two statements on the writer's CREATE and USAGE is not kept, nor that of the table grants per reader; they touch different entries.
- Privileges that the server gives a new role or object by default.
- The app role inheriting from other roles: the verification theorems assume that it inherits from none, as a condition one can check before the run.
- DelegatedTokens.NormalizeName: letters outside ASCII are not lower-cased.
- ContextPropagation.Mentions: header names padded with spaces are not told apart from names without; a name is one of its spellings up to case.
- Public ingress, observed context and trace-context creation: they take nothing on trust and feed no lineage.
- MetadataCache.CachedMetadataStore.Get: a metadata dictionary is a value, so a caller who mutates the cached dictionary is not modelled.
- DynamoDB and other stores, secret loading, the HTTP library, middleware and configuration: foreign calls or lookups.
