# Evidence pipeline: a verified model

The repository is an evidence pipeline. A gateway authenticates publishers, checks them against a
subject's trust list and queues signed-for receipts; a worker seals each receipt into the subject's
append-only transparency log and announces it; a loader turns the announcements into a graph that
answers threat-model and evidence queries. Most functions are short. What is hard is how they compose
under redelivery, lost acknowledgements, timeouts, crashes and concurrent writers, and that is what
this project models and proves.

## How the model is organised

| files | what they model |
|---|---|
| `Pipeline`, `SealProtocol` | the whole pipeline as a step machine; every interleaving, crash, timeout, lost reply and redelivery is a run |
| `PipelineSafety`, `TrustReceipts`, `ReceiptTexts`, `Announcements`, `Delivery`, `RegistrationProgress`, `Guarantees` | what every run keeps, and the theorems about whole runs |
| `Ledger`, `Locker`, `Worker`, `AdminSubscriber` | the locker's objects and handlers as they are written, each tied to the step machine |
| `Bundle`, `Base64`, `Decimal`, `StorageRef`, `Receipt` | the encodings, with their inverses |
| `TrustKv`, `Authn`, `Authz`, `ReplayWindow` | compare-and-swap trust lists, issuer dispatch, policy evaluation, token ids |
| `Graph`, `Catalogs`, `Loader`, `GraphHistory`, `GraphViews`, `ThreatModel`, `Pagination`, `Walks` | the graph store, parser, loader, views and paged listing |
| `EndToEnd` | from what the graph shows back to the ledgers and trust lists behind it |
| `SampleRuns` | runs from the initial state in which a subject is stranded, an event lost, a publisher confused |

Uninterpreted, so that every statement holds whatever they are: SHA-256 (`Digests.SHA256Hex`), JSON
canonicalisation, JSON printing and parsing, and the content digest (`Receipts.Canonicalize`,
`MarshalJson`, `UnmarshalJson`, `ContentDigestOf`), and the decoding of an artifact (`EndToEnd.DecodeArtifact`).
What is assumed of the JSON functions is `Receipts.Laws`: canonical text is a fixed point, and that of a printed
object made of strings, arrays and objects parses back to it; nothing is assumed of numbers, which canonical text
does not keep apart. Statements about digests speak of equal digests, not equal contents. Clock readings,
the network, the database's row order, failures and signature checks are parameters or nondeterministic steps.

A restart reopens some of the stored ledgers, and rebuilds each index from what it reads back through the
bundles, up to the first read that fails. Most results hold for every run, whatever its restarts did. Two
conditions are used where a result needs one, and each speaks of a single subject's ledger and of no other:

- restarts *reopen* the ledger, whatever its rebuilds read (`Guarantees.NeverTerminated`,
  `PipelineSafety.LedgerIsOpen`, `RegistrationProgress.CompletesIffLive`, `StepStuck`, `TimeoutStrands`);
- wherever the ledger is opened, the opening is *clean*: its rebuild reports success and its entries are shorter
  than 2^16 bytes, so that what is read is what was appended (`SealProtocol.AtMostOnce`,
  `Guarantees.SealedAtMostOnce`). The ledger need not even be reopened.

What happens otherwise is stated by `Guarantees.TerminatedIffClosed`, `RegistrationProgress.ClosedCompletes`,
`SealProtocol.NextSealSafeIff`, `Ledgers.SuccessfulRebuildIff` and the runs below. What `EndToEnd` says of fetched
content is for events whose own bundle holds no entry of 2^16 bytes (`EndToEnd.Readable`), since a bundle that
does is not served as sealed.

## What the code does not do

Some promises turn out not to hold of the code. Each is stated exactly.

- The duplicate check is as good as the digest index is complete, no better (`SealProtocol.NextSealSafeIff`). A
  rebuild that stops early is only logged (`PartialRebuildIff`); one that reports success still misses entries
  of 2^16 bytes or more, and, unless digests collide, exactly then (`Ledgers.SuccessfulRebuildIff`). Either way,
  from any state, a receipt can be sealed twice (`MissedIsSealedTwice`, `FailedRebuildSealsTwice`,
  `OversizedSealsTwice`). A receipt that never was sealed can be taken for a duplicate exactly when the rebuild
  read something that is no entry's (`NothingHiddenIff`). `MissedRun`, `OversizedRun` and `OversizedHidesOther`
  are runs of the locker alone: the receipts in the last two are plain byte strings, not ones the gateway wraps.
- Entries of 2^16 bytes or more do not survive the 16-bit length prefix of an entry bundle; reads agree with
  appends exactly when there is none (`Bundle.FetchRefinesLogIff`), and each bundle on its own
  (`Bundle.FetchRefinesLog`). The gateway's body limit is larger
  (internal/gateway/handler.go:29).
- A registration whose reply is lost leaves a ledger behind, and every later registration of that subject
  is refused: it can be completed exactly when an earlier one is still live
  (`RegistrationProgress.CompletesIffLive`, `TimeoutStrands`); `SampleRuns.StuckRun` is a run to such a subject. That
  lasts while restarts reopen the ledger; one that leaves it closed lets a new registration through
  (`ClosedCompletes`).
- A crash or a failed publish between sealing and announcing loses the event for good; these are the only
  entries without one (`Announcements.AnnouncedUnlessDropped`); `SampleRuns.LostRun` is a run that loses one.
- Errors reach `isPermanent` wrapped, so cancellation is retried, not terminated, contrary to the comment
  beside it; only a missing ledger is permanent (`Workers.Worker.HandleMessage`). So a waiting message
  can be terminated before the next restart exactly when its ledger is not open (`Guarantees.TerminatedIffClosed`),
  which never happens while restarts reopen it (`Guarantees.NeverTerminated`). In the loader nothing but a message
  that is no event at all is terminated; event data that does not decode is given back
  (`Loaders.Loader.HandleMessage`).
- Evidence nodes are keyed by the log index alone, which ledgers reuse. The threat model keeps subjects
  apart exactly when no two subjects collide (`GraphViews.SeparateIff`, `SharedIndexLeaks`), and the listing
  shows for every subject at an index what the last event there said (`Pagination.RowIff`, `ListingLeaks`).
- A failed publisher lookup falls back to a placeholder; a retry that then finds the publisher leaves both
  on the evidence (`GraphViews.OtherPublisherIff`), and a page that ends between two rows of one index loses
  the second. Following the cursor to its end returns every matching row exactly when no page of that size ends
  inside the rows of an index (`Walks.WalkCompleteIff`), so for every size exactly when no index has two
  matching rows (`Walks.AlignedIff`). Two rows arise exactly from two publishers at one index
  (`Pagination.OneRowIff`, `Walks.ListingCompleteIff`).
- A token id can be reused when a request stalls for more than four minutes between validating the token
  and claiming its id, and only then (`ReplayWindow.NoReplayIff`).
- A stored scanner key never decides who is authenticated: trust entries for it are accepted only if its
  issuer is also a configured publisher (`Authn.StoredKeyNeverDecides`).
- Added permits keep the floor against untrusted publishing exactly when they leave the floor's own policy id
  alone or never apply to an untrusted publish (`Authz.FloorIff`, `ReusedIdDropsFloor`).
- Receipts carry the canonical form of the content, although adrs/0003-receipt-model.md:67 promises byte-exact
  envelopes; content comes back byte for byte exactly when it was canonical (`Receipts.ByteExactIff`).
- The graph attributes an entry to whoever submitted the same content for the subject, not to the publisher its
  receipt names. The two are sure to agree, up to the placeholder, exactly when nobody else has submitted that
  content (`EndToEnd.AttributionIff`); `WrongPublisherRun` is a run that shows the wrong one.

## Model

| member | source | states |
|---|---|---|
| `SealProtocol.StepKeeps` | internal/locker/worker.go:155-194 | every append, index write, refusal, crash and, if clean for the ledger, opening of it keeps, of that ledger: index entries point at entries with their digest, every entry is indexed or about to be, no two worker entries share a digest |
| `SealProtocol.BaseStep` | internal/locker/ledger.go:224-239 | every step, whatever a restart reopened or re-read, keeps each indexed digest explained: an entry of the log has it, or something once read in an entry's place |
| `SealProtocol.RereadIsSealed` | internal/locker/ledger.go:114-149 | where every entry fits its bundle, whatever was read back is an entry's |
| `SealProtocol.AtMostOnce` | internal/locker/worker.go:123-194 | in every run, whatever happens to other ledgers, a ledger whose own openings are clean never holds two worker entries with one receipt digest, and its index is sound and misses nothing but pending writes |
| `SealProtocol.OpenStep` | internal/locker/locker.go:90-116 | a stored ledger that restarts reopen is open whenever the locker is up, whatever its rebuilds read |
| `SealProtocol.UnindexedIsFresh` | internal/locker/worker.go:162-168 | a digest missing from the index was never sealed by the worker, although other goroutines' index writes may be pending |
| `SealProtocol.SequentialIndexIsRebuild` | internal/locker/ledger.go:97-110 | the index left by sealing one after the other is the one a rebuild from scratch computes |
| `SealProtocol.NextSealSafeIff` | internal/locker/worker.go:162-168 | no next worker seal can duplicate exactly when the index holds every digest the worker has sealed |
| `SealProtocol.PartialRebuildIff` | internal/locker/ledger.go:89-91 | a rebuild that stopped at k is as good as a full one exactly when every later digest occurs before k |
| `SealProtocol.FailedRebuildSealsTwice` | internal/locker/ledger.go:89-91 | from any state with the locker down, a restart whose rebuild fails at its first read lets the worker seal any of its receipts again |
| `SealProtocol.MissedIsSealedTwice` | internal/locker/worker.go:162-168 | from any state and for any ledger, a restart whose rebuild misses a receipt the worker sealed lets it seal that receipt again |
| `SealProtocol.OversizedSealsTwice` | internal/locker/ledger.go:224-239 | so does, unless digests collide, every rebuild that reports success, for every receipt of 2^16 bytes or more |
| `SealProtocol.NothingHiddenIff` | internal/locker/ledger.go:153-158 | after a restart the worker turns away no receipt that was never sealed exactly when everything the rebuild read has the digest of an entry |
| `SealProtocol.MissedRun` | internal/locker/worker.go:162-168 | a run from the initial state through any rebuild that misses the ledger's one receipt, which ends up sealed twice |
| `SealProtocol.OversizedRun` | internal/locker/ledger.go:224-239 | such a run whose rebuild reports success, with 2^16 zero bytes for a receipt |
| `SealProtocol.OversizedHidesOther` | internal/locker/ledger.go:153-158 | a run of the locker after which the duplicate check finds a digest that no entry of the ledger has, with an empty byte string for the receipt turned away |
| `SealProtocol.StepGrows` | internal/locker/ledger.go:97-110 | no step, clean or not, removes or rewrites a log entry |
| `DigestIndex.IndexOfIff` | internal/locker/ledger.go:224-239 | a rebuilt index holds exactly the digests of the log's entries |
| `DigestIndex.IndexOfLast` | internal/locker/ledger.go:224-239 | each digest is indexed, at or behind every position it occurs at |
| `DigestIndex.IndexOfSound` | internal/locker/ledger.go:153-158 | every indexed position holds an entry with that digest |
| `Ledgers.SuccessfulRebuildIff` | internal/locker/ledger.go:224-239 | a rebuild that reports success leaves a complete index, unless digests collide, exactly when no entry reaches 2^16 bytes |
| `Ledgers.SeenReads` | internal/locker/ledger.go:224-239 | what a rebuild has read when it ends or breaks off is what reading those positions yields |
| `Ledgers.Ledger.constructor` | internal/locker/ledger.go:40-94 | opening a ledger indexes exactly what its rebuild reads of the integrated entries, oversized ones included; a read that fails is not reported |
| `Ledgers.Ledger.Seal` | internal/locker/ledger.go:97-110 | an accepted receipt is appended at the end and indexed there; a refused one changes nothing; an index equal to the rebuild stays so |
| `Ledgers.Ledger.Fetch` | internal/locker/ledger.go:114-149 | after waiting for integration it returns what the bundles hold at that index, the entry appended there if entries are shorter than 2^16 bytes; the out-of-range and read-failure branches behind the wait are never taken |
| `Ledgers.Ledger.WaitForIntegration` | internal/locker/ledger.go:201-222 | succeeds exactly when some poll saw the log grow past the index |
| `Ledgers.Ledger.VerifyDigest` | internal/locker/ledger.go:153-158 | finds a digest exactly when it is indexed, at the indexed position |
| `Ledgers.Ledger.RebuildDigestIndex` | internal/locker/ledger.go:224-239 | indexes exactly the prefix it could read; complete exactly when it reports success |
| `Bundle.UnmarshalText` | internal/locker/ledger.go:137-141 | the one-pass bundle parser computes the recursive reading of length-prefixed entries, including where it rejects |
| `Bundle.RoundTripIff` | internal/locker/ledger.go:137-141 | a bundle is read back as it was written exactly when every entry is shorter than 2^16 bytes |
| `Bundle.FetchRefinesLog` | internal/locker/ledger.go:114-149 | for every size and index below it, if the integrated entries of its bundle are shorter than 2^16 bytes, reading bundle index/256 at its partial width and taking entry index%256 gives the entry appended at index, with no error branch |
| `Bundle.FetchRefinesLogIff` | internal/locker/ledger.go:114-149 | reads agree with appends on the whole log exactly when no entry reaches 2^16 bytes |
| `Bundle.OversizedIsLost` | internal/locker/ledger.go:137-149 | the first entry of 2^16 bytes or more is never read back as it was appended |
| `Bundle.ZerosReadEmpty` | internal/locker/ledger.go:137-149 | such an entry need not fail to read: 2^16 zero bytes are read back as an empty entry |
| `Lockers.Locker.CreateLedger` | internal/locker/locker.go:58-78 | refuses a bad id or an open ledger with nothing changed, otherwise adds one fresh ledger over the stored log with the index of what its rebuild read |
| `Lockers.Locker.GetLedger` | internal/locker/locker.go:81-86 | finds the ledger exactly when the subject has one |
| `Lockers.Locker.OpenExistingLedgers` | internal/locker/locker.go:90-116 | afterwards exactly the old subjects and the directories that open are open; open ledgers keep their identity; new ones hold the stored log and the index of what their rebuild read |
| `Workers.Worker.ProcessReceipt` | internal/locker/worker.go:155-194 | from any machine state its ledger stands for, it leads to the state the worker's machine steps lead to, touches no other ledger, and hands over exactly the event of a fresh seal |
| `Workers.Worker.HandleMessage` | internal/locker/worker.go:123-152 | the verdict is the machine's: terminate exactly for undecodable data or a missing ledger, give back a refused append whatever its cause, otherwise acknowledge |
| `Workers.AfterIsRun` | internal/locker/worker.go:155-194 | what the handler leads to is reached by a run of the step machine |
| `AdminSubscribers.AdminSubscriber.HandleRegister` | internal/locker/admin.go:47-85 | opens a ledger over whatever is stored and seals its registration receipt; a refusal before the ledger opens changes nothing, one after it leaves the open ledger behind |
| `AdminSubscribers.AdminSubscriber.HandleSealTrust` | internal/locker/admin.go:87-123 | appends the receipt naming subject, list and operator and answers its index, or changes nothing |
| `AdminSubscribers.SealIsThreeSteps` | internal/locker/ledger.go:97-110 | an undisturbed seal by an admin handler is begin, append and index write of the step machine |
| `AdminSubscribers.RegisterIsRun` | internal/locker/admin.go:47-85 | what the registration handler leads to is reached by a run of the step machine through creation and the registrar's own steps |
| `PipelineSafety.BaseStep` | internal/locker/worker.go:123-194 | every step of gateway, queue, worker, admin handlers, crash and any restart keeps the pipeline's base invariant: registration order, vouched references, sealed means queued, acknowledged means sealed or taken for sealed, events resolve |
| `PipelineSafety.RunBase` | internal/gateway/admin.go:105-132 | so does every run from the initial state |
| `PipelineSafety.StepKeeps` | internal/locker/worker.go:123-194 | every pipeline step that is clean for a ledger keeps that ledger's index sound and complete and each receipt sealed once |
| `PipelineSafety.RunKeeps` | internal/locker/worker.go:123-194 | so does every run from the initial state that is clean for it |
| `PipelineSafety.AdmittedIsVouched` | internal/authz/middleware.go:190-311 | a request that passes authentication and authorisation names a publisher on the subject's list at that moment, from an issuer other than the human provider |
| `PipelineSafety.LedgerIsOpen` | internal/locker/worker.go:156-160 | where restarts reopen a ledger and the locker is up, it is open once its subject has a trust list or a queued message |
| `PipelineSafety.StepSpares` | internal/locker/worker.go:123-160 | no step terminates, or sets out to terminate, a message whose ledger is open |
| `Guarantees.RunGrows` | internal/locker/ledger.go:97-110 | in any run at all, logs, trust history, operations, queue and events only grow |
| `Guarantees.Provenance` | internal/gateway/handler.go:72-205 | in every reachable state every worker entry of a subject's ledger is the receipt of a message for that subject, unwraps to a publisher that an administrator had put on the list and that was on it when authorised, with a configured publisher issuer; and the ledger opens with the subject's registration |
| `Guarantees.SealedStaysJustified` | internal/locker/worker.go:155-194 | that justification survives every later trust change, crash or restart |
| `Guarantees.RegistrationOrder` | internal/gateway/admin.go:105-132 | in every reachable state registry entry implies trust list implies ledger, and any ledger with an entry starts with its subject's registration, whatever failed in between |
| `Guarantees.NeverTerminated` | internal/locker/worker.go:156-160 | in every run whose restarts reopen a subject's ledger, whatever their rebuilds read and whatever becomes of other ledgers, none of its messages is ever terminated and its ledger is open whenever the locker is up and the subject is trusted or has a message |
| `Guarantees.TerminatedIffClosed` | internal/locker/worker.go:123-160 | in every reachable state with the locker up and its worker free, a waiting message can be terminated before the next restart exactly when its ledger is not open |
| `Guarantees.SealedAtMostOnce` | internal/locker/worker.go:162-168 | in every run whose openings of this one ledger are clean, two of its worker entries with one digest are one entry |
| `Guarantees.AcknowledgedIsSealed` | internal/locker/worker.go:123-152 | in every reachable state an acknowledged message's receipt digest is in its ledger if the ledger's entries fit their bundles, and otherwise there or once read there |
| `Guarantees.NoLostTrustUpdate` | internal/trust/store.go:108-132 | of two trust writes to a subject the later one replaced a revision no older than the earlier one |
| `Guarantees.EventsResolve` | internal/locker/worker.go:176-187 | in every later state an event's reference is accepted by the driver, driver and loader ask for one path, the locker routes it to the event's subject and index, the entry there has the announced digest, and reading returns it, however many entries are integrated, if the entries of its bundle fit |
| `ReceiptTexts.ReceiptsRecordWrites` | internal/gateway/admin.go:190-220 | in every run every trust receipt records, in its own text, the subject, list and operator of a trust write that took effect, and no write is recorded twice |
| `ReceiptTexts.TrustTextInjective` | internal/locker/admin.go:99-104 | the text of a trust receipt belongs to one subject, one list and one operator |
| `ReceiptTexts.RegistrationSays` | internal/locker/admin.go:60-79 | the first entry of a trusted subject's ledger says that this subject was registered and by whom |
| `TrustReceipts.StepReceipts` | internal/locker/admin.go:87-123 | every step keeps each sent trust change in at most one place: on the wire, being sealed, or sealed once |
| `TrustReceipts.StepWrites` | internal/gateway/admin.go:167-194 | every trust write belongs to an operation whose entries were all validated |
| `Announcements.AnnouncedUnlessDropped` | internal/locker/worker.go:170-190 | in every run no entry is announced twice, only worker entries are announced, and those that never are are exactly the ones whose announcement a crash or failed publish dropped |
| `Announcements.StepAccounted` | internal/locker/worker.go:170-190 | every step keeps the worker's entries split into announced, about to be announced, and lost |
| `SampleRuns.LostRun` | internal/locker/worker.go:170-190 | a run from the initial state that seals an entry and never announces it |
| `SampleRuns.SomeScene` | internal/gateway/handler.go:72-205 | what those runs start from exists: for every subject and body some configuration with two trusted publishers admits it, unless the two receipts' digests collide |
| `RegistrationProgress.CompletesIffLive` | internal/gateway/admin.go:91-132 | after any run whose restarts reopen the subject's ledger, a subject with a ledger but no trust list can still get one, by such a continuation, exactly when some registration of it is past the refusal with its caller still listening |
| `RegistrationProgress.TimeoutStrands` | internal/gateway/admin.go:105-109 | the caller's timeout on the only live registration leaves the subject without a trust list in every continuation whose restarts reopen its ledger |
| `SampleRuns.StuckRun` | internal/gateway/admin.go:105-109 | a run from the initial state to a subject that no continuation whose restarts reopen its ledger can complete |
| `RegistrationProgress.StepStuck` | internal/locker/locker.go:66-68 | while its ledger is open, no step revives a subject that has a ledger, no trust list and no live registration |
| `RegistrationProgress.ClosedCompletes` | internal/locker/locker.go:58-78 | where a restart has left the ledger closed, a new registration is not refused and can be completed |
| `Delivery.StepMoves` | internal/nats/streams.go:30-59 | a message keeps its place and content, is redelivered only from the queue, and never changes once acknowledged, terminated or aged out |
| `Delivery.StepMeasure` | internal/nats/streams.go:50-59 | every queue or worker step lowers a measure that only publishing raises, by a fixed amount |
| `Delivery.WorkIsBounded` | internal/nats/streams.go:50-59 | in any run the number of queue and worker steps is bounded by the backlog and the messages published, so a finite set of messages settles |
| `Delivery.BusyWorkerCanMove` | internal/locker/worker.go:123-152 | a worker that holds a message always has a next step |
| `Delivery.QuietMeansSettled` | internal/locker/worker.go:123-152 | when nothing can move, every message is acknowledged and sealed or taken for sealed, terminated, out of deliveries, or aged out |
| `StorageRef.RefRoundTrip` | internal/locker/worker.go:176-177 | for every valid subject and index below 2^63 the printed reference passes the driver, driver and loader derive one path, and the locker's route reads back subject and index |
| `StorageRef.RefInjective` | drivers/locker/locker.go:20-33 | two entries never share a reference |
| `Base64.EncodeDecode` | internal/gateway/receipt/receipt.go:25-83 | decoding inverts encoding for all byte strings |
| `Base64.EncodeInjective` | internal/gateway/receipt/receipt.go:25-83 | different bytes never share an encoding |
| `Decimal.FormatParse` | internal/graph/writer.go:684-713 | parsing inverts printing for every 64-bit integer |
| `Receipts.WrapUnwrap` | internal/gateway/receipt/unwrap.go:19-85 | wrapping succeeds exactly on JSON, and unwrapping returns the same publisher and the canonical content |
| `Receipts.RewrapIsStable` | internal/gateway/receipt/receipt.go:25-83 | re-submitting what a receipt unwraps to yields the same receipt |
| `Receipts.ByteExactIff` | internal/gateway/receipt/receipt.go:25-83 | content comes back byte for byte exactly when it was canonical |
| `Receipts.SameReceiptIff` | internal/gateway/receipt/receipt.go:25-83 | two submissions give one receipt exactly when canonical content, publisher, subject, type and time agree |
| `TrustKv.TrustStore.SetPublisherTrust` | internal/trust/store.go:108-132 | succeeds exactly when nobody else wrote the subject since the read; then it is the latest write, else it wrote nothing |
| `TrustKv.TrustStore.IsPublisherTrusted` | internal/trust/store.go:75-103 | answers membership in the list of the latest successful write |
| `TrustKv.CommitKeeps` | internal/trust/store.go:108-132 | any interleaving of successful writes keeps store and history in agreement and the history a chain of exact replacements |
| `TrustKv.NoSharedRevision` | internal/trust/store.go:108-132 | two successful writes to a subject never started from one revision |
| `TrustKv.RevisionStableIff` | internal/trust/store.go:108-132 | the revision read is current exactly when nobody wrote the subject since |
| `Authn.NewIssuerRegistry` | internal/authn/registry.go:26-44 | no human provider or a key store without a replay store is refused; otherwise publishers are indexed by URL, later ones winning |
| `Authn.PublisherClassIff` | internal/authn/registry.go:48-87 | an accepted token is publisher-class exactly when its issuer is not the human provider, and then carries no scopes or groups |
| `Authn.AcceptedEntriesAreConfigured` | internal/authn/registry.go:91-102 | a token that an accepted trust entry names is dispatched to a configured publisher whatever keys are stored |
| `Authn.StoredKeyNeverDecides` | internal/gateway/admin.go:51-78 | storing a scanner's key changes no authentication of that scanner |
| `Authz.Authorize` | internal/authz/middleware.go:288-302 | the decision is permit-and-no-forbid, in whatever order the policies are visited |
| `Authz.PublishAllowedIff` | internal/authz/policies/base.cedar:11-30 | a publish is allowed exactly for a publisher-class principal that the subject trusts |
| `Authz.OtherActionsAllowedIff` | internal/authz/policies/base.cedar:32-81 | the other actions are allowed exactly for admins, or for auditors and admins |
| `Authz.FloorIff` | internal/authz/middleware.go:112-150 | added permits let no untrusted publish through exactly when they leave the floor's id alone or none of them applies to an untrusted publish |
| `Authz.FloorStands` | internal/authz/policies/base.cedar:23-30 | while the floor keeps its id no overlay whatever, permits or forbids, allows an untrusted publish |
| `Authz.FloorHolds` | internal/authz/policies/base.cedar:23-30 | no policies added under fresh ids ever allow an untrusted publish |
| `Authz.ExtraPermitsOnlyAdd` | internal/authz/middleware.go:112-150 | permits under fresh ids take nothing away |
| `Authz.ReusedIdDropsFloor` | internal/authz/middleware.go:112-150 | a permit under the floor's id allows untrusted publishes |
| `Authz.PublishPassesIff` | internal/authz/middleware.go:190-311 | a publish passes exactly for an identified publisher-class principal that the lookup reports as trusted for a named subject; scopes and groups do not matter |
| `ReplayWindow.JtiBucket.ClaimJTI` | internal/trust/store.go:184-193 | a claim succeeds exactly when no retained claim has that id |
| `ReplayWindow.JtiBucket.Authenticate` | internal/authn/publisher/staticjwk.go:36-96 | accepts exactly the valid tokens whose id is free, and uses the id up even if the sub check behind it fails |
| `ReplayWindow.ClaimStays` | internal/nats/streams.go:130-138 | an accepted id stays claimed with a claim no older than the acceptance |
| `ReplayWindow.NoReplayIff` | internal/authn/publisher/staticjwk.go:46-88 | no token is accepted twice in any run exactly when no request stalls over 240 seconds between validation and claim |
| `ReplayWindow.StalledReplay` | internal/authn/publisher/staticjwk.go:46-88 | a run that accepts one token twice, for every longer stall |
| `Graphs.GroundedAdds` | internal/graph/writer.go:102-269 | from any graph, a write sequence whose matches cannot fail adds exactly the sum of its contributions |
| `Graphs.CommuteIff` | internal/graph/writer.go:185-269 | two contributions commute on every graph exactly when they set no property differently |
| `Catalogs.ParseArtifact` | internal/graph/parser.go:18-29 | parses each catalog type to its specification, any other type to nothing, malformed data to an error |
| `Catalogs.ParseControlCatalog` | internal/graph/parser.go:31-82 | the nested loops compute the flat map over controls, mappings and non-empty references |
| `Catalogs.ParseThreatCatalog` | internal/graph/parser.go:84-140 | the same over threats, with capability edges coming in and vector edges going out |
| `Catalogs.ParseCapabilityCatalog` | internal/graph/parser.go:142-170 | one entity for each capability and no edges |
| `Catalogs.ControlCatalogEdge` | internal/graph/parser.go:65-77 | the edges found are exactly the non-empty control-to-threat references |
| `Catalogs.ThreatEdge` | internal/graph/parser.go:109-136 | the edges found are exactly the non-empty capability and vector references of the threat |
| `Loaders.Store.Run` | internal/graph/writer.go:102-116 | a statement takes its full effect, or fails with no effect, or fails having taken effect |
| `Loaders.Loader.ProcessArtifact` | internal/graph/loader.go:311-348 | writes entities, then each edge behind both its ends, as far as the store goes; nothing for malformed data |
| `Loaders.Loader.HandleSealed` | internal/graph/loader.go:196-264 | runs the event's write sequence for the resolved publisher, completely exactly when it succeeds, otherwise a prefix; nothing without the artifact |
| `Loaders.Loader.HandleIngested` | internal/graph/loader.go:169-193 | runs subject, publisher and stub writes in order, as far as the store goes |
| `Loaders.Loader.HandleMessage` | internal/graph/loader.go:119-157 | acknowledged means the whole sequence ran, given back means a prefix did; only a message that is no event is terminated, undecodable event data and malformed artifacts never are |
| `GraphHistory.JobGrounded` | internal/graph/loader.go:318-344 | from any graph no `MATCH` of a processed event fails, so no parsed edge is lost |
| `GraphHistory.CrashTolerance` | internal/graph/loader.go:196-264 | any number of attempts broken off after any prefix, then one complete attempt, leave exactly the graph of the complete attempt alone |
| `GraphHistory.ReplayStructure` | internal/graph/writer.go:102-269 | nodes and edges after any history are those before it and each event's own contribution |
| `GraphHistory.Confluence` | internal/graph/loader.go:196-348 | histories with the same events, in any order and with any replays, lead to the same nodes and edges |
| `GraphHistory.SwapIff` | internal/graph/writer.go:185-235 | two events may be swapped on every graph exactly when they set no property differently |
| `GraphViews.LookupIff` | internal/graph/writer.go:157-182 | a digest's stub names exactly the publishers whose ingested events were processed |
| `GraphViews.AddressesIff` | internal/graph/writer.go:400-419 | the graph relates a control to a threat exactly when some processed control catalog does |
| `GraphViews.IntroducesIff` | internal/graph/writer.go:329-349 | the graph relates a capability to a threat exactly when some processed threat catalog does |
| `GraphViews.ListedIff` | internal/graph/writer.go:364-370 | a node is listed for a subject exactly when the subject has an event at some index and some event at that index names the node |
| `GraphViews.SeparateIff` | internal/graph/writer.go:192 | the view lists for each subject exactly what its own artifacts name, if and only if no two subjects collide at an index |
| `GraphViews.SharedIndexLeaks` | internal/graph/writer.go:192 | two subjects with artifacts at one index, where one is shown the other's capability |
| `GraphViews.OtherPublisherIff` | internal/graph/loader.go:217-227 | a retry that resolves another publisher erases the earlier attempt exactly when that stopped before its publisher or the graph already had what it wrote |
| `ThreatModels.Assemble` | internal/graph/writer.go:329-349 | every listed id once, with the partners of its rows in row order |
| `ThreatModels.Threats` | internal/graph/writer.go:364-419 | every listed threat with exactly the controls some processed catalog relates to it, none twice |
| `ThreatModels.Capabilities` | internal/graph/writer.go:287-349 | every listed capability with exactly the threats some processed catalog has it introduce, none twice |
| `EndToEnd.AddressesIsSealed` | internal/graph/loader.go:196-264 | behind every control-to-threat relation of a graph fed by the pipeline stands a sealed ledger entry that states it, by a publisher its subject trusted when it was authorised, if the events that state it are readable |
| `EndToEnd.IntroducesIsSealed` | internal/graph/loader.go:196-264 | the same for capability-to-threat relations |
| `EndToEnd.LoadedIsSealed` | internal/graph/loader.go:282-308 | what the loader fetches for a readable event, however many entries are integrated, is the content of the announced entry, sealed by the worker for a trusted publisher |
| `EndToEnd.RunKnown` | internal/locker/worker.go:176-190 | every event announces a queued message, and the entry it points at is that message's receipt |
| `EndToEnd.AttributionIff` | internal/graph/loader.go:217-227 | in every reachable state the loader is sure to attribute a readable announced entry to the publisher its receipt names, or to the placeholder, exactly when nobody else, of an identity the loader shows, submitted the same content for the subject |
| `EndToEnd.WrongPublisherRun` | internal/graph/writer.go:157-182 | a run with two trusted submitters of one content after which the graph shows the second as publisher of the first one's entry, and the first not at all |
| `Pagination.CursorRoundTrip` | internal/graph/writer.go:749-757 | a cursor handed out is read back as the index it was made from |
| `Pagination.HandlerLimit` | internal/graph/handler.go:136-147 | the handler's limit is always between 1 and 200 |
| `Pagination.Evidence` | internal/graph/writer.go:661-760 | a page of wanted rows in order, none twice; all of them if there is no cursor, otherwise full with a cursor at its last index |
| `Pagination.PageComplete` | internal/graph/writer.go:749-757 | a wanted row that is not on the page lies at or above its last index, and there is a next page |
| `Pagination.SplitIff` | internal/graph/writer.go:749-757 | no wanted row falls between page and cursor exactly when the row behind the page has another index than its last |
| `Pagination.WalkAscends` | internal/graph/writer.go:684-757 | over any changes between pages a walk returns rows in ascending order and none twice |
| `Pagination.WalkComplete` | internal/graph/writer.go:684-757 | over any changes between pages a finished walk has returned every matching row that was there throughout exactly once, for all limits, if no index has two matching rows |
| `Pagination.WalkEnds` | internal/graph/writer.go:684-757 | over unchanging rows a walk ends after at most one page more than there are rows |
| `Walks.WalkCompleteIff` | internal/graph/writer.go:684-757 | for every filter, page size and unchanging table, and whatever order the database gives rows of one index, a finished walk has returned every matching row exactly when no page of that size ends inside the rows of an index |
| `Walks.AlignedIff` | internal/graph/writer.go:749-757 | no page of any size does exactly when none of one row does, and exactly when no index has two matching rows |
| `Walks.ListingCompleteIff` | internal/graph/writer.go:661-760 | over the rows of a graph, every walk is complete if all events at the subject's indices were attributed to one publisher each, and a walk by single rows exactly then |
| `Walks.FinishedWalk` | internal/graph/writer.go:684-757 | for every table, filter and page size some walk comes to its end |
| `Walks.SplitLoses` | internal/graph/writer.go:749-757 | in any table with two matching rows at one index, either of them can be missed by a finished walk |
| `Pagination.RowIff` | internal/graph/writer.go:703-747 | a subject's row at an index shows exactly: any publisher some event there was attributed to, with digest, type, status and time of the last event there, of whatever subject, once the subject has an event there |
| `Pagination.OneRowIff` | internal/graph/writer.go:185-200 | a subject has one matching row per index exactly when all events at its indices, where the last one matches, were attributed to one publisher each |
| `Pagination.ListingLeaks` | internal/graph/writer.go:192 | one subject's listing shows another subject's digest, type and time |

## Left out

- HTTP routing, generated API code, configuration, logging and command wiring: no deep property.
- JWKS fetching, OIDC discovery, signature checks and the per-provider issuers: a token is an input record that says whether its checks pass.
- Tessera's tree, checkpoints and key files: only append, integrated size and bundle reads are modelled; a failed append leaves the log unchanged.
- JSON Schema validation of submissions (internal/gateway/validate.go): the model admits every body that canonicalises, a superset.
- Loading of operator policy files: policies are a map from id to policy, so the effect of any loading order on ids is a parameter.
- `SubjectSummary`, `ListSubjects` and `Coverage`: the parser emits nothing that coverage counts, and the summary reads its totals from one row.
- `Leverages` and `Applies` lists: the parser writes `LEVERAGES` to vectors while the query reads capabilities, and nothing writes `APPLIES`.
- Entity, title and description fields of the threat-model answer: only which nodes are listed and how they are related is modelled.
- `RegisterSubject` and `ModifyTrust` of the gateway are steps of `Pipeline.GwNext`, one for each remote or store operation, not methods, because what matters is what others do between the steps; the gateway is assumed to have its issuer registry, as its main program sets it.
- `VerifierKey` and the registered and ingested CloudEvents of locker and gateway: not modelled as steps; the loader's model takes arbitrary histories of them.
- Bundle.Prefix: the 16-bit conversion of an entry's length is the log library's; the model takes it to keep the low 16 bits.
- Pipeline.Init: one locker process with one worker goroutine, as the worker fetches and handles one message at a time.
