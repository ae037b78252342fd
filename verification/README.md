# Payment channel escrow: a verified model

Daemon replicas sell calls of a service for tokens that a client has deposited in a channel of
the MultiPartyEscrow contract. The replicas share one key-value storage and read one
blockchain. On the storage they keep, per channel, a lock, a channel record (the amount the
client has authorised so far) and payment records (amounts the provider has started to claim).
This project models that protocol and proves what its money properties rest on.

## How the files fit together

| file | content |
|---|---|
| `Encoding.dfy`, `Keys.dfy` | 32-byte words, signed messages, decimal printing, storage keys |
| `Storage.dfy`, `Components.dfy` | the flat in-memory storage, prefixed and typed views, namespace refinement, the daemon's three storages |
| `Etcd.dfy` | transactions, and the non-atomic PutIfAbsent as a system of clients |
| `Records.dfy` | channel and payment records, merging, validation, income, the two record updates |
| `Ledger.dfy` | the reference: one bookkeeper serving calls and claims one at a time, without failures |
| `Protocol.dfy` | the step system: requests interleave, operations fail with or without effect, replicas crash, the blockchain moves, an operator deletes lock keys |
| `Exclusion.dfy`, `Serial.dfy`, `Funds.dfy`, `ClaimRecords.dfy` | what every step keeps: mutual exclusion, serialisability, backing, payment records |
| `Runs.dfy` | the main theorems, over every run of one channel |
| `Collection.dfy`, `Incidents.dfy` | which claims can be collected, and runs in which one never can |
| `Fleet.dfy`, `Disks.dfy`, `Flat.dfy` | all channels, and the shared storage they live on |
| `Identity.dfy` | whose channels are stored and accepted |
| `Reconciliation.dfy`, `Provider.dfy` | the reconciliation pass, and what the provider is told, in the whole system |
| `Service.dfy`, `Gateway.dfy`, `Control.dfy` | the code itself as classes and methods; whatever writes is proved to take the steps of the protocol |
| `Alone.dfy` | a request without interference is one operation of the bookkeeper, and a run of the system |
| `ClientState.dfy` | the state reply, and that a client can always go on paying from it |

The argument runs in three layers. `Service`, `Gateway` and `Control` are the code; their
methods return, as a ghost, what the environment decided at each storage or blockchain
operation, and the state they leave is `RunAlone` of the step system. Storages and the
blockchain node carry a flag `reliable`; on reliable ones no error may be reported, so the
contracts also say what a method must achieve, not only what it must not break. `Protocol` interleaves
such requests arbitrarily. `Ledger` is what the system must look like from outside.

Assumptions about the environment, all visible in `Protocol.Enabled` and `Protocol.Init`:

- The contract is not part of this repository. A claim needs the channel's current nonce and an
  amount that StartClaim took out of the channel record, collects at most that amount and sends
  nothing back; it need not have a payment record, which only makes the safety results
  stronger. What can be collected is stated in `Collection` for claims that the provider
  presents: stored payment records with a signature. The
  sender takes the deposit back only when the block has reached the expiration, which may then
  be set to anything; deposits and extensions only add; signer, recipient and group do not
  change. The comments at escrow/payment_channel_api.go:36-39, 85-88 and 175-187 say as much.
- All replicas have the same price, threshold, recipient and contract address, and price and
  threshold are not negative.
- One storage or blockchain operation is one atomic step. It may report an error after taking
  effect, but a failed operation does not take effect later.
- The operator deletes a lock key only when no live request holds the lock.
  `Exclusion.DeletionSafeIffNobodyHolds` shows that this is exactly what is needed.
- The mutex of etcd is correct, and its lease outlives the client that holds it.

Where the code differs from what its documentation suggests, the code is followed:

- `StartClaim` empties the channel record before it writes the payment record. A crash or a
  failed write in between drops the claim, and the chain nonce then never passes it unless the
  sender takes the deposit back: `Collection.StrandedBlocksLater`, `Incidents.CrashStrands`.
  `Collection.CollectableAfterRunIff` says exactly when everything can be collected.
- The non-zero test before StartClaim runs without the lock, so two claims may race and the
  second one records an empty, unsigned payment, which strands later claims in the same way:
  `Incidents.RaceRecordsEmptyClaim`. `Runs.ClaimWorth` says exactly when a claim is empty.
- The interceptor takes a service that ends with panic(nil), or with runtime.Goexit, for a
  success where `recover` returns nil for these, as it does for panic(nil) before Go 1.21; the
  call is then paid. `HandlerResult.Vanished` stands for this, and the channel record is
  written exactly for `Protocol.LooksDone`.
- `listChannels` and `listClaims` test an amount for zero with `Int64()`, which sees 64 bits
  only. `Control.UnclaimedComplete` and `Control.InProgressComplete` say exactly what is dropped.
- `removeClaimedPayments` returns without an error at the first channel it does not find, and
  then may leave claimed payments behind: `Control.PassCompleteIff` says exactly when, and
  `Reconciliation.PassLeavesBehind` is such a storage. No run of the daemon reaches one
  (`Reconciliation.PassCompletes`).
- `beginClaimOnChannel` dereferences a channel that was found nowhere.
- PutIfAbsent of the etcd client is not atomic. `Etcd.AtomicRunIff` and
  `Etcd.PutIfAbsentAtomicIff` say exactly when it behaves as if it were.

## Model

| member | source | states |
|---|---|---|
| `Encoding.BigIntToBytesValue` | escrow/validation.go:120-122 | every integer becomes one 32-byte word holding its absolute value modulo 2^256 |
| `Encoding.RoundTrip` | escrow/validation.go:120-126 | reading a written word gives the number back exactly for uint256 values |
| `Encoding.PaddingIrrelevant` | escrow/state_service.proto:13-17 | padded or not, an input of at most 32 bytes means the same number and the same word |
| `Encoding.PaymentMessageInjective` | escrow/validation.go:71-77 | two payments share a signed message exactly when contract, channel, nonce and amount share their words |
| `Encoding.InRangePaymentsDiffer` | escrow/validation.go:71-77 | in range, equal messages mean equal payments |
| `Encoding.PaymentMessageLayout` | escrow/validation.go:71-77 | the signed message of a payment is contract, then three words that decode to channel, nonce and amount |
| `Encoding.StartClaimMessageLayout` | escrow/control_service.go:192-197 | the start-claim message is its text, contract, and words that decode to channel and nonce |
| `Encoding.ListMessageLayout` | escrow/control_service.go:136-143 | the two list messages are their texts, contract, and a word that decodes to the block, negative ones by two's complement |
| `Encoding.MessageLengths` | escrow/control_service.go:136-143 | payment, start-claim, both list and channel-state messages have five different lengths |
| `Keys.PaymentIDInjective` | escrow/payment_channel_api.go:32-34 | distinct (channel, nonce) pairs have distinct payment keys, for unbounded integers |
| `Keys.ChannelKeyStringInjective` | escrow/payment_channel_api.go:44-46 | distinct channels have distinct lock names |
| `Keys.KeysRead` | escrow/payment_channel_api.go:32-46 | channel and nonce can be read back from the printed keys |
| `Storage.OwnView` | escrow/atomic_storage.go:36-62 | an operation through a prefix acts on that view as on a map of its own, with the same result |
| `Storage.OtherView` | escrow/atomic_storage.go:36-62 | it leaves every view under an apart prefix unchanged |
| `Storage.ViewsAreSeparateMaps` | escrow/atomic_storage.go:29-62 | after any sequence of operations through apart prefixes each view is what its own operations make of a separate map |
| `Storage.NamespacesApart` | escrow/payment_channel_storage.go:25-38 | the channel, payment and lock prefixes are pairwise apart |
| `Storage.TypedOperation` | escrow/atomic_storage.go:137-194 | an operation on serialised keys and values is the operation on the typed map they stand for |
| `Storage.MemoryStorage.GetByKeyPrefix` | escrow/memory_storage.go:40-51 | returns the values under the prefix, each exactly once |
| `Storage.MemoryStorage.PutIfAbsent` | escrow/memory_storage.go:61-75 | writes and reports true exactly if the key was absent |
| `Storage.MemoryStorage.CompareAndSwap` | escrow/memory_storage.go:77-91 | writes and reports true exactly if the key held the expected value |
| `Storage.TypedAtomicStorage.GetAll` | escrow/atomic_storage.go:115-135 | returns exactly this namespace's values, each once, and no error |
| `Storage.TypedAtomicStorage.CompareAndSwap` | escrow/atomic_storage.go:167-185 | is the compare-and-swap of the typed map |
| `Components.EscrowStorages.PutChannel` | snetd/cmd/components.go:174-179 | over one flat storage, writing a channel record leaves payments and locks as they were |
| `Components.EscrowStorages.PutPayment` | snetd/cmd/components.go:174-179 | writing a payment leaves channel records and locks as they were |
| `Components.EscrowStorages.SwapLock` | snetd/cmd/components.go:147-153 | swapping a lock is the atomic swap on the locks and leaves channel records and payments as they were |
| `Etcd.EtcdClient.Transaction` | etcddb/etcddb_client.go:172-205 | all writes happen if every comparison holds, otherwise none; with an error, either of the two |
| `Etcd.PutAllAt` | etcddb/etcddb_client.go:184-187 | the writes of a transaction give each key its value and change no other |
| `Etcd.EtcdClient.CompareAndSwap` | etcddb/etcddb_client.go:163-170 | meets the storage contract, also in what an error leaves open; a missing key is never equal |
| `Etcd.StepKeepsKey` | etcddb/etcddb_client.go:207-252 | a client about to write still finds the key absent, the value and all results are those of atomic operations, and every caller is told its own result |
| `Etcd.StepKeepsCallers` | etcddb/etcddb_client.go:235-251 | a call that returns without an error was exactly one creation of its value, with the result it returns; with an error, at most one |
| `Etcd.OneCallAlone` | etcddb/etcddb_client.go:207-252 | alone, a call returns whether the key was absent, writes exactly then, and frees the mutex |
| `Etcd.OwnValue` | etcddb/etcddb_client.go:208 | a call works with the value it was given |
| `Etcd.AtomicRunIff` | etcddb/etcddb_client.go:207-252 | run by run, the values and what callers are told are those of atomic operations if and only if no write of PutIfAbsent finds the key present |
| `Etcd.PutIfAbsentAtomicIff` | etcddb/etcddb_client.go:207-252 | that is so in every run exactly if nobody else writes the key unconditionally |
| `Etcd.OverwriteHappens` | etcddb/etcddb_client.go:233-251 | with such a write in between, the call reports absence and overwrites it |
| `Etcd.MutexKeyIsNoLockKey` | etcddb/etcddb_client.go:223 | the key of the mutex is never a channel's lock key |
| `Records.MergeKeepsNewest` | escrow/payment_channel_storage.go:144-161 | the merged channel has the newer nonce, keeps what was authorised at it, and takes deposit and expiration from the chain at the chain's nonce |
| `Records.ResolveNew` | escrow/escrow.go:43-62 | a channel that is not stored is found exactly if the blockchain has it for this recipient and group, with the chain's fields and nothing authorised |
| `Records.ResolveStored` | escrow/escrow.go:63-68 | a stored channel is always found; deposit and expiration, or all of it, come from the chain exactly if that could be read, pays this daemon and is not behind |
| `Records.ValidateAcceptsIff` | escrow/validation.go:34-69 | a payment is accepted exactly for the channel's nonce and signer, at a block that was read, in time and within the deposit; and when each refusal code is given |
| `Records.SignatureReading` | escrow/validation.go:88-118 | only 65 bytes are read as a signature, and the last byte counts modulo 27 |
| `Records.SignatureIsForOnePayment` | escrow/validation.go:42-51 | a signature that recovers to the signer only for one payment's bytes passes validation for no other contract, channel, nonce or amount |
| `Ledger.PayKeepsBooks` | escrow/escrow.go:226-251 | a paid call keeps the books in order: bounds, signature, exact income |
| `Ledger.ClaimKeepsBooks` | escrow/payment_channel_api.go:200-208 | so does starting a claim |
| `Ledger.ReplayKeepsBooks` | escrow/payment_channel_api.go:93-97 | after any served log, claims plus authorised amount plus what was lost are price times paid calls, and records and claims carry the payer's signature |
| `Ledger.ReplayFollows` | escrow/payment_channel_api.go:36-39 | nonce and claims only grow, and at one nonce the authorised amount rises by the price of each call |
| `Ledger.ReplayKeepsWorth` | escrow/escrow.go:236-251 | after any served log each claim is worth the price of the calls paid at its nonce, and is signed exactly if there was one |
| `Ledger.ReplayKeepsDeposit` | escrow/escrow.go:122-125 | after any served log the record's deposit is the one last read from the chain less the claims started since, and its expiration is from there |
| `Exclusion.StepKeepsLock` | escrow/lock.go:43-81 | every step keeps: at most one live holder, and a held lock reads "locked" |
| `Exclusion.AttemptSucceedsIffUnlocked` | escrow/lock.go:43-65 | without contention and errors a new attempt gets the lock exactly if the key is not "locked" |
| `Exclusion.OrphanedLockBlocks` | escrow/escrow.go:104-109 | a lock left behind blocks the channel until the operator deletes the key |
| `Exclusion.DeletionSafeIffNobodyHolds` | snetd/cmd/channel.go:64-81 | deleting a lock key keeps mutual exclusion in every continuation exactly if no live request holds the lock |
| `Exclusion.StaleAttempt` | escrow/lock.go:48-59 | over runs: an attempt that read the key, then waited while anything happened, gets the lock exactly if the key is still free as seen; nobody else holds it then, and a value seen before a deletion never wins a deleted key |
| `Serial.StepOnRecord` | escrow/escrow.go:185-251 | a record is written only under the lock, and is the one the bookkeeper would write for the logged operation |
| `Serial.StepKeepsSerial` | escrow/escrow.go:96-125 | every step keeps: the stored record is the replay of the accepted log, and what holders read is still stored |
| `Funds.ChainKeepsBacked` | escrow/payment_channel_api.go:85-88 | deposits, extensions, collected claims, timeouts and blocks keep a channel backed |
| `Funds.MergedIsBacked` | escrow/escrow.go:43-68 | the channel PaymentChannel returns is backed, also after the fallback to storage |
| `Funds.StepOnFunds` | escrow/escrow.go:185-259 | a step of a request keeps the stored and the in-flight channel backed |
| `Funds.StepKeepsFunds` | escrow/escrow.go:96-259 | every step of the system does |
| `Funds.StepKeepsCalm` | escrow/payment_channel_storage.go:146-161 | as long as no deposit was taken back, the chain nonce never overtakes the stored one and nothing is lost |
| `ClaimRecords.StepKeepsRecords` | escrow/escrow.go:111-138 | every step keeps: payment records are started claims, unchanged, and disappear only when the chain has passed them |
| `Runs.InvAlways` | escrow/escrow.go:8-10 | the whole invariant holds in every run |
| `Runs.MutualExclusion` | escrow/lock.go:43-81 | at most one live request holds the lock of a channel |
| `Runs.Serialisable` | escrow/escrow.go:96-251 | the stored record is that of a serial run in write order, and every pending write overwrites the record it read |
| `Runs.RecordMonotone` | escrow/escrow.go:236-251 | between any two moments of a run the record only grows, at one nonce by the price of each paid call |
| `Runs.Solvent` | escrow/payment_channel_storage.go:146-161 | before the stored expiration the deposit pays for the authorised amount and all pending claims |
| `Runs.AcceptedAtTheCurrentBlock` | escrow/validation.go:52-66 | a payment is accepted only at the block that was really read at that moment, in time and within the deposit, and right then the deposit pays for it and all pending claims |
| `Runs.BackedSinceAccepted` | escrow/validation.go:57-66 | and so it stays while the request is under way, until the threshold has run out from that block |
| `Runs.AcceptedPaymentBacked` | escrow/validation.go:52-66 | an accepted payment is backed, with all pending claims, as long as the block is within the threshold of its transaction's block |
| `Runs.DepositExact` | escrow/escrow.go:236-251 | the stored deposit is exactly the one last read less the claims started since: paid calls take nothing from it |
| `Runs.RestSpendable` | escrow/escrow.go:204-216 | while the chain is as last read, a payment in time is accepted exactly up to the deposit less the pending claims |
| `Runs.StaleRecordRejectsAll` | escrow/escrow.go:63-65 | once the chain has overtaken the stored nonce, the fallback record rejects every payment |
| `Runs.PaidIsCommits` | escrow/escrow.go:236-251 | the paid calls of the books are the Commit writes of the run that took effect |
| `Collection.ExactIncome` | escrow/payment_handler.go:64-72 | over a run, claims recorded, claims being recorded, claims dropped between the two writes, the authorised amount and what was taken back add up to price times committed calls |
| `Runs.ClaimsKept` | escrow/escrow.go:111-138 | a started claim stays stored, unchanged, signed and below the stored nonce until the chain has passed it |
| `Runs.WrittenOnce` | escrow/escrow.go:127-133 | no two steps of a run write a payment record for the same nonce |
| `Runs.ClaimWorth` | escrow/escrow.go:122-138 | over a run, a claim is empty if and only if calls are free or no call was committed at its nonce, and unsigned if and only if none was |
| `Collection.ClaimsAccounted` | escrow/escrow.go:122-133 | in every run each started claim has its payment record, is being recorded, or was dropped by a failed write or a crash, and only one of these |
| `Collection.AllClaimsCollectable` | escrow/payment_channel_api.go:175-187 | before the stored expiration all pending claims can be collected in full, in order, if and only if each has a stored, signed payment record; the rest still pays for the authorised amount |
| `Collection.PresentableIff` | escrow/control_service.go:201-228 | a claim not passed by the chain is stored with a signature if and only if it was not dropped, is not being recorded, and calls were paid at its nonce |
| `Collection.CollectableAfterRunIff` | escrow/escrow.go:111-138 | after a run everything pending can be collected if and only if this holds of every pending nonce |
| `Collection.StrandedBlocksLater` | escrow/escrow.go:122-133 | a claim without a payment record or signature stops the chain nonce for good, in every continuation in which the sender takes nothing back |
| `Incidents.CrashStrands` | escrow/escrow.go:124-133 | from every reachable state with a record and a free lock, a crash between the two writes of StartClaim leads there |
| `Incidents.RaceRecordsEmptyClaim` | escrow/control_service.go:159-169 | so do two claims that both passed the zero test on the same state: the second one records an empty, unsigned payment |
| `Incidents.IncidentsHappen` | escrow/escrow.go:96-139 | both happen in runs from an empty storage |
| `Runs.RecordSigned` | escrow/validation.go:42-51 | the stored record is bounded and signed by the payer for exactly its nonce and amount |
| `Identity.OnlyOwnChannels` | escrow/escrow.go:52-58 | no payment is accepted and no record stored for a channel of another recipient or group; the parties in a record are the blockchain's |
| `Fleet.ProjectionIsRun` | escrow/lock.go:27-32 | a run of all channels is, for each channel, a run of its own system |
| `Fleet.FleetSafe` | escrow/payment_channel_api.go:44-46 | every channel keeps its invariant whatever the others do |
| `Flat.DiskStepShown` | escrow/payment_channel_api.go:32-46 | a step of a request on the storage, under the daemon's keys, is the step on its channel's own state |
| `Flat.DiskIsFleet` | escrow/payment_storage.go:39-45 | in every run the shared storage holds for each channel exactly the state of that channel's own system, and every payment under its own ID |
| `Service.Locker.Lock` | escrow/lock.go:43-65 | takes the lock steps; a handle means the key was free and is now "locked", and otherwise nothing changed unless an error is reported; on a reliable storage a free lock is always acquired |
| `Service.Lock.Unlock` | escrow/lock.go:72-81 | swaps "locked" for "unlocked" on its own key only |
| `Service.PaymentChannelService.PaymentChannel` | escrow/escrow.go:43-68 | resolves stored record and blockchain read, with group check and fallback |
| `Service.PaymentChannelService.CheckPayment` | escrow/escrow.go:204-216 | takes the read and validation steps and refuses with the protocol's code; when nothing fails it returns the channel exactly if the payment is valid for it; whatever fails, a channel is returned only if at the current block it is in time and covers the payment |
| `Service.PaymentChannelService.StartPaymentTransaction` | escrow/escrow.go:185-224 | takes the protocol's steps; without a transaction the acquired lock was released exactly once; when nothing fails and the lock is free, there is a transaction exactly if the payment is valid |
| `Service.PaymentTransaction.Commit` | escrow/escrow.go:226-259 | writes the record with the payment's amount and signature and every other field of the channel as it was read, or reports an error (never on reliable storages), and releases the lock once |
| `Service.PaymentTransaction.Rollback` | escrow/escrow.go:261-271 | releases the lock once and writes nothing |
| `Service.IncrementChannelNonce` | escrow/payment_channel_api.go:203-208 | the field assignments, in their order, make the record of the next nonce |
| `Service.PaymentChannelService.StartClaim` | escrow/escrow.go:96-139 | takes the protocol's steps; a started claim has exactly the amount, nonce and signature that left the record, and is stored; the lock is released once; when nothing fails and the lock is free, a claim starts exactly if a record is stored |
| `Service.PaymentChannelService.ListClaims` | escrow/escrow.go:141-157 | lists every payment record once |
| `Service.Claim.Finish` | escrow/escrow.go:92-94 | deletes the claim's own record and no other |
| `Gateway.PaymentHandler.Payment` | escrow/payment_handler.go:55-76 | returns a transaction only for income equal to the price, and otherwise has released the lock; when nothing fails and the lock is free, it does so exactly for payments the bookkeeper would accept |
| `Gateway.PaymentInterceptor.Intercept` | handler/interceptors.go:176-224 | a call is a run of the payment request: the service runs at most once and under the lock, the lock is released exactly once, and the record is written only if the service left neither an error nor a panic to recover; when nothing fails and the lock is free, the service runs exactly if the bookkeeper would accept the payment, and the call is paid exactly if it completes or vanishes |
| `Gateway.PaymentInterceptor.Complete` | handler/interceptors.go:195-213 | commits when nothing was recovered and there is no error, rolls back after an error or a recovered panic |
| `Control.Int64ZeroIff` | escrow/control_service.go:115 | the zero test is exact below 2^64 and wrong on its positive multiples |
| `Control.ReplyTells` | escrow/control_service.go:174-179 | a reply decodes to channel, nonce and amount of its payment exactly if these are uint256 values, and carries its signature |
| `Control.UnclaimedListed` | escrow/control_service.go:113-125 | a channel is listed exactly if its authorised amount is no multiple of 2^64 |
| `Control.UnclaimedComplete` | escrow/control_service.go:105-129 | everything there is to claim is listed exactly if no positive amount is such a multiple |
| `Control.InProgressListed` | escrow/control_service.go:209-222 | a claim is listed exactly if it is signed and its amount is no multiple of 2^64 |
| `Control.InProgressComplete` | escrow/control_service.go:201-228 | every claim is listed exactly if all are signed and no amount is such a multiple |
| `Control.ClaimableIff` | escrow/control_service.go:165-168 | a stored channel passes the test before a claim exactly if its amount is no multiple of 2^64 and the chain has not overtaken it |
| `Control.ProviderControlService.ListChannels` | escrow/control_service.go:105-129 | replies for every stored channel that passes the test, each decoding to that channel's number, nonce and amount, without signatures |
| `Control.ProviderControlService.ListClaims` | escrow/control_service.go:201-228 | replies for every payment record with a signature and an amount that passes the test, each decoding to that payment's numbers |
| `Control.PassDeletes` | escrow/control_service.go:247-266 | a pass deletes a record exactly if the chain has passed it and no unknown channel is listed before it |
| `Control.PassCompleteIff` | escrow/control_service.go:240-268 | a pass leaves exactly the records not yet passed if and only if no passed record is listed after one of an unknown channel |
| `Control.PassFailsIff` | escrow/control_service.go:248-256 | a pass reports an error exactly if the first unknown channel is on the blockchain, for another recipient; a missing one ends it silently |
| `Control.ProviderControlService.RemoveClaimedPayments` | escrow/control_service.go:240-268 | deletes only passed records, whatever fails; without errors it is exactly one pass, with that pass's error; on every channel it takes the steps of the protocol's reconciliation |
| `Identity.StoredPaymentsAreOurs` | escrow/payment_channel_storage.go:113-126 | in every reachable state the channel of a stored payment is on the blockchain and this daemon's |
| `Reconciliation.PassCompletes` | escrow/control_service.go:240-268 | after every run of the daemon, over the shared storage, a pass without errors leaves exactly the records the chain has not passed |
| `Reconciliation.PassLeavesBehind` | escrow/control_service.go:249-252 | on a storage with a payment of an unknown channel, listed first, a pass leaves a passed record behind and reports nothing |
| `Control.ProviderControlService.BeginClaimOnChannel` | escrow/control_service.go:159-181 | the reply decodes to what left the record, with its signature, never empty without interference; dereferences nil only for a channel found nowhere; when nothing fails and the lock is free, a claim starts exactly if a record is stored and the merged amount passes the zero test |
| `Provider.ListedReplyRedeemable` | escrow/control_service.go:201-228 | in every reachable state a listed claim is told with its numbers, and its signature is the payer's for exactly these |
| `Provider.StartedReplyRedeemable` | escrow/control_service.go:159-181 | so is a claim a request was told it started, and its record is stored until the chain has passed it |
| `Control.ChannelCommand.UnlockChannel` | snetd/cmd/channel.go:64-81 | takes the operator's steps on this channel's key only |
| `Alone.PayAlone` | escrow/escrow.go:185-259 | alone and without errors a call is served exactly if the bookkeeper accepts it, with the same record, and the lock is free again; refusals have the code of their reason |
| `Alone.LockedAlone` | escrow/lock.go:48-54 | on a held lock a call is refused as a failed precondition and a claim is refused; nothing changes |
| `Alone.ErrorsRefuse` | escrow/escrow.go:185-224 | an operation that reports an error ends the request, with the code of its place |
| `Alone.ClaimAlone` | escrow/escrow.go:96-139 | so does a claim |
| `Alone.AloneIsRun` | escrow/escrow.go:185-271 | the steps the methods are proved to take are steps of the system |
| `ClientState.NextPaymentFits` | escrow/state_service.go:54-64 | the payment built from the reply has the channel's nonce and exactly the price as income |
| `ClientState.ReplyIsThePayersPromise` | escrow/state_service.go:29-64 | in every reachable state the state is given to the payer and to nobody else, and decodes to the merged nonce and the amount signed for at it |
| `ClientState.SignatureIsForOneChannel` | escrow/state_service.go:29-52 | a signature that recovers to the signer only for one channel's word opens the state of no other channel |
| `ClientState.ClientProgress` | escrow/state_service.go:54-64 | with the lock free and no errors, that payment reaches the service exactly if deposit and time suffice |

## Left out

- Keccak and ECDSA key recovery are one uninterpreted function from message and signature to an address.
- gob encoding is a codec assumed to give distinct keys distinct strings and to read back what was written; serialisation errors are not modelled.
- Delayed effects: an operation that timed out and takes effect later.
- Contracts: that a claim sends nothing back and that amounts are below 2^256 on the blockchain are assumptions; chain amounts are unbounded naturals here.
- `Service.PaymentChannelService.CheckPayment`: reads the current block before the nonce and signature checks instead of between them; reading changes nothing, so the outcome is the same.
- `Storage.TypedAtomicStorage.GetAll`: over the in-memory storage, which reports no errors; an error of etcd, or in serialising, is not a case of it.
- `Storage.TypedAtomicStorage.CompareAndSwap`: the same.
- `Service.Store` keeps a typed namespace with failing operations instead of a view of the flat strings; `Storage` proves that the views are such maps.
- Channel and payment records are values, so the aliasing of their big.Int fields is not captured.
- Interleaving inside the classes: their methods run alone; `Protocol` interleaves the steps they are proved to take.
- The control service's StartClaim and GetListInProgress, which only call reconciliation before beginning or listing claims, and their address and signer checks.
- The ±5 block comparison, which accepts every block, and `CloseChannel`, which has no caller.
- Reading the payment from gRPC metadata, choice of a handler by payment type, monitoring, rate limiting, gRPC codes and error texts.
- The etcd server, sessions, timeouts and lease expiry, Ethereum RPC, IPFS, configuration, and the cobra commands other than unlock.
