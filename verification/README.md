# bank-core: a verified model of the money path

bank-core is a set of Go services around a double-entry ledger. This project models the part of it
that moves money and proves what that part promises:

- **Ledger** (`LedgerDomain`, `Ledger`, `LedgerLaws`, `LedgerTheorems`, `LedgerExact`, `LedgerAnswers`, `Locking`,
  `LedgerService`):
  accounts, materialized balances, holds, the journal, entry references and the outbox. Every
  transaction is a function from the tables before to the tables after (`Ledger`); the class
  `LedgerService.Service` holds the tables in fields, runs the loops of the service, and is proved to
  do exactly what those functions say. Invariants and theorems are over every sequence of
  transactions from the seeded chart of accounts, operator status changes included.
- **Transfer saga** (`TransferDomain`, `Saga`, `SagaLaws`, `SagaTheorems`, `SagaDrive`,
  `TransferService`, `SagaContract`, `SagaPayment`, `SagaOutcome`, `SagaRuns`): any number of drivers
  and recovery workers with stale snapshots, requests that may be lost, repeated, delayed or reported as failed, other ledger
  clients and the hold sweeper, all over one transfer table guarded by `WHERE state = expected` and
  one real `Ledger` state. `Saga.Action` lists the steps; every theorem of `SagaTheorems` is about every run.
  `TransferService.Service` is the service itself when nobody interferes: its drive loop, recovery
  batch and idempotent creation, proved to take exactly the turns `SagaDrive` defines. `SagaOutcome`
  says how such a drive ends, from the request, the answers and the ledger alone; `SagaPayment` who
  pays and who receives.
- **Daily limit** (`DailyLimit`): validators that read the clock, read the day's sum and move on in
  separate steps.
- **Event pipeline** (`Delivery`, `Projection`, `Pipeline`): outbox, relay, broker, consumer with its
  dedup row in the handler's transaction, and the version-guarded balance read model; `Pipeline` runs
  them together, from the ledger's commits to what a customer is shown, in any interleaving.
- **Listings** (`Cursor`, `Paging`), **fraud velocity** (`Velocity`), **FX** (`Fx`) and **account
  numbers** (`AccountNumber`).

64-bit integers are explicit: `Int64.Wrap` is what Go's unchecked arithmetic does, `Int64.AddChecked`
is the source's overflow test. UUIDs are natural numbers ordered as their text is; a generated id is a
parameter, and a collision is refused as the primary key would refuse it. Clocks, random ids, network
outcomes and the answers of the account and rate services are parameters of the operations. A failed
transaction leaves the tables as they were (`pkg/pgtx/pgtx.go:63-81`).

Where the code and its description part ways, the model follows the code:

- A hold captured by an entry without a leg on the hold's account never leaves `held`
  (`services/ledger/internal/app/service.go:263-278`). `LedgerTheorems.Reservation` states that `held`
  is the sum of the active holds exactly if no hold was stranded that way, `LedgerExact.AnyHoldCanStrand`
  that every active hold can be, and `LedgerExact.StrandedReachable` that two operations suffice.
- A failed transfer's reservation is described as released. The code releases the hold its row names
  (`services/transfer/internal/app/service.go:376-388`); a hold that was placed while its answer was
  lost or reported as a refusal is named by no row, and stays active until it is swept.
  `SagaTheorems.FailedHold` says what holds in every run, `SagaRuns.FailedLeavesHold` is a run without
  any misreported answer that leaves one, and `SagaRuns.OrphanedIffUnnamed` gives the exact condition.
- `-debit` in `CaptureHold` is not checked, so the most negative debit passes the comparison
  (`services/ledger/internal/domain/domain.go:165-167`); `LedgerDomain.CaptureHold` says exactly which
  debits are accepted.
- A RELEASING transfer whose hold is captured can never progress
  (`services/transfer/internal/app/service.go:376-388`). `SagaRuns.SinkReachable` is a run from the
  initial world that gets there, `SagaTheorems.SinkEntered` the step that does it,
  `SagaTheorems.SinkForever` that no run leaves it, and `TransferService.Service.Drive` and
  `TransferService.Service.RunOnce` that it is the only place an undisturbed driver or recovery batch
  stops short of a terminal state.
- The daily limit subtracts the transfer from a sum that only contains it on the day it was created
  (`services/transfer/internal/app/service.go:294-301`). `DailyLimit.DailyCap` holds under same-day
  validation. Without it there is no bound: `DailyLimit.PastMidnight` gives, for every cap and every
  total, a run that spends that total, and `DailyLimit.CapBreaks` says the cap can be exceeded exactly
  where the per-transfer limit lets any transfer through.
- A post that loses the race for its reference is replayed only after its own validation, hold and
  balance checks (`services/ledger/internal/app/service.go:176-190`), so it can be refused although the
  same request, a moment later, is answered with the entry. `LedgerExact.RacedExact` says exactly when
  it is answered, `LedgerExact.RacedHoldRefused` that it never is when its winner captured the hold.
- The fraud scorer reads its row without a lock. `Velocity.Scorer.Handle` is about handlings of one
  customer in turn; `Velocity.OverlapExact` says exactly when an overlap leaves the same row.
- `ValidNumber` accepts check digits outside 02..98 that agree with the generated ones modulo 97;
  `AccountNumber.CheckDigits` states the exact set.

## Model

| member | source | states |
|---|---|---|
| Int64.AddChecked | services/ledger/internal/domain/domain.go:79-85 | the test on the wrapped sum rejects exactly the sums outside the 64-bit range and otherwise returns the mathematical sum |
| Int64.WrapExact | services/ledger/internal/domain/domain.go:79-85 | unchecked arithmetic keeps the value modulo 2^64 and lands in the signed 64-bit range, and leaves what fits alone |
| LedgerDomain.ValidateEntry | services/ledger/internal/domain/domain.go:91-125 | the loop accepts an entry exactly if it has two or more sound legs, is zero in every currency over the mathematical integers, and no running sum leaves 64 bits on the way; otherwise it returns the first error |
| LedgerDomain.EntryErrorExact | services/ledger/internal/domain/domain.go:91-125 | no error if and only if the entry is acceptable |
| LedgerDomain.LegErrorExact | services/ledger/internal/domain/domain.go:96-112 | a leg is sound if and only if its account is known, its amount nonzero, its currency KZT or USD and its account's, and a customer's account active; otherwise each error is returned exactly for the first of these that fails |
| LedgerDomain.EntryErrorFirst | services/ledger/internal/domain/domain.go:91-125 | too few legs, an imbalance, and otherwise the error of the first leg that is unsound or whose running sum overflows |
| LedgerDomain.CaptureHold | services/ledger/internal/domain/domain.go:161-173 | exactly which debits an active hold is captured for, the unchecked negation of the most negative debit included |
| Ledger.PlaceHoldGrant | services/ledger/internal/app/service.go:105-135 | a granted hold fits into held, for a customer within the balance, for an internal account by the table's check |
| Ledger.DeltasExact | services/ledger/internal/app/service.go:229-237 | the net deltas name exactly the touched accounts and are their sums over the legs |
| Ledger.PlanFacts | services/ledger/internal/app/service.go:224-300 | what an accepted post computes: an acceptable entry, a captured active hold of the same reference, new balances for exactly the touched accounts in lock order |
| LedgerLaws.StepInv | services/ledger/internal/app/service.go:51-360 | every transaction keeps the ledger invariant: unique identities, one hold and one entry per reference, zero-sum entries, balances and versions as the journal says, held as the outstanding reservations, customers never overdrawn, events true to history |
| LedgerLaws.HistoryStable | services/ledger/internal/app/service.go:302-352 | an account's balance at an earlier version is not changed by later entries |
| LedgerLaws.ReleaseShape | services/ledger/internal/app/service.go:138-170 | a release succeeds if and only if the hold exists and is not captured, ends released, frees exactly its amount once, and never underflows |
| LedgerExact.HoldDecides | services/ledger/internal/app/service.go:105-130 | a hold is granted exactly if its amount is positive in the account's currency and, for a customer, the account is active and the balance covers all holds, for an internal account held stays in 64 bits; no unchecked sum decides otherwise by wrapping |
| LedgerExact.ApplyDecides | services/ledger/internal/app/service.go:269-288 | a locked balance takes its net delta exactly if the new balance fits 64 bits and, for a customer, still covers what stays held after the capture; then balance, held and version are the mathematical ones |
| LedgerExact.PlaceHoldExact | services/ledger/internal/app/service.go:76-135 | a hold under a new reference is granted if and only if its account can carry it; it is then active, held grows by its amount, nothing else changes, and a refusal changes nothing |
| LedgerExact.PostExact | services/ledger/internal/app/service.go:192-300 | a post under a new reference is accepted if and only if its accounts resolve, the entry is acceptable, its hold covers the debit, and every touched account can bear its net change; a refusal changes nothing |
| LedgerExact.PostEffect | services/ledger/internal/app/service.go:290-360 | an accepted post appends exactly its legs, captures exactly its hold, moves every touched balance by its net sum and one version, and leaves every other balance |
| LedgerAnswers.ResolveExact | services/ledger/internal/adapters/postgres/store.go:231-251 | the first identity given finds exactly the account that carries it |
| LedgerAnswers.CreateExact | services/ledger/internal/app/service.go:51-72 | a known external id gives its account back, or AlreadyExists in another currency; a new one opens an active customer account with a zero balance and changes nothing else |
| LedgerAnswers.PlaceHoldReplays | services/ledger/internal/app/service.go:89-95 | a repeated hold request for the same account and amount is answered with its hold, any other under the reference with DuplicateReference, and nothing is written |
| LedgerAnswers.HoldRefusals | services/ledger/internal/app/service.go:76-130 | a hold under a new reference is granted or refused for the first of: reference, currency, status, amount, funds, held limit |
| LedgerAnswers.PostRefusals | services/ledger/internal/app/service.go:176-288 | a post under a new reference is refused for the first of: reference, accounts, entry, net overflow, hold, and then the first account in lock order that cannot bear its change, for overflow or want of funds |
| LedgerAnswers.OnlyOpenAccounts | services/ledger/internal/domain/domain.go:104-112 | a newly committed entry has no leg on a frozen or closed customer account, no zero leg, and each leg in its account's currency |
| LedgerAnswers.AppendedOpen | services/ledger/internal/app/service.go:192-360 | and so does whatever any transaction appends to the journal |
| LedgerAnswers.PostAnnounces | services/ledger/internal/app/service.go:324-352 | an accepted post announces exactly the touched accounts, once each in ascending order, with key, currency, new balance, new version and entry |
| LedgerExact.PostStrands | services/ledger/internal/app/service.go:263-278 | a post strands a hold if and only if it captures it with no leg on the hold's account, and frees none |
| LedgerExact.AnyHoldCanStrand | services/ledger/internal/app/service.go:239-288 | every active hold under a reference without an entry is stranded by some post, as soon as any other account is open |
| LedgerExact.StrandedReachable | services/ledger/internal/app/service.go:239-288 | some reachable ledger has a stranded hold |
| LedgerExact.RacedExact | services/ledger/internal/app/service.go:364-386 | a post that lost the race for its reference changes nothing and is answered with the winner's entry if and only if it would still be postable and has the winner's payload |
| LedgerExact.RacedHoldRefused | services/ledger/internal/app/service.go:176-190 | a duplicate racing the entry that captured its hold is refused, where the replay of the same request is answered |
| LedgerTheorems.Conservation | services/ledger/internal/app/service.go:192-360 | in every reachable state each entry is zero-sum per currency, each balance is the sum of the account's postings, each version counts the entries touching it, and the balances of a currency cancel out |
| LedgerTheorems.Reservation | services/ledger/internal/app/service.go:105-165 | in every reachable state 0 <= active holds <= held, for a customer held <= balance without wrap-around, and held equals the active holds if and only if no hold is stranded |
| LedgerTheorems.CaptureAlwaysFunded | services/ledger/internal/app/service.go:252-288 | whatever ran in between, capturing an active customer hold for at most its amount succeeds on its account |
| LedgerTheorems.NoHeldUnderflow | services/ledger/internal/app/service.go:138-170 | both held-underflow branches, of release and of post, are unreachable |
| LedgerTheorems.Replay | services/ledger/internal/app/service.go:364-386 | after any further run, a posted request is answered with the same entry whatever hold it names and changes nothing; another payload under its reference is refused and changes nothing |
| LedgerTheorems.OneEntryPerReference | services/ledger/internal/app/service.go:209-222 | no two entries of a reachable journal carry the same reference |
| LedgerTheorems.RunExtends | services/ledger/internal/app/service.go:192-360 | account identities, entries and references are never taken back |
| Locking.DeadlockFree | services/ledger/internal/app/ports.go:75-77 | in every interleaving of transactions that lock in increasing order, no chain of waits closes into a cycle |
| Locking.SomeoneProceeds | services/ledger/internal/app/ports.go:75-77 | while any transaction runs, one of them is not blocked |
| LedgerService.RowsIncreasing | services/ledger/internal/app/service.go:239-288 | at most one hold row and then the sorted balance rows are an increasing lock sequence |
| LedgerService.SamePayload | services/ledger/internal/app/service.go:454-476 | counting up and down in one map decides exactly equality of the two payloads as bags of legs |
| LedgerService.NetDeltas | services/ledger/internal/app/service.go:229-237 | the loop's map gives every account its mathematical net sum |
| LedgerService.ApplyBalances | services/ledger/internal/app/service.go:269-288 | the locking loop computes the specified balances or the first refusal, and locks exactly the rows up to it |
| LedgerService.Service.CreateAccount | services/ledger/internal/app/service.go:51-72 | the tables and the answer are those of the specification, the invariant is kept, locks increase, and every row or unique key it writes is locked |
| LedgerService.Service.PlaceHold | services/ledger/internal/app/service.go:76-135 | the tables and the answer are those of the specification, the invariant is kept, locks increase, and every row or unique key it writes is locked |
| LedgerService.Service.ReleaseHold | services/ledger/internal/app/service.go:138-170 | the tables and the answer are those of the specification, the invariant is kept, locks increase, and every row or unique key it writes is locked |
| LedgerService.Service.PostTransaction | services/ledger/internal/app/service.go:176-360 | the tables and the answer are those of the specification, the invariant is kept, locks increase, and every row or unique key it writes is locked |
| LedgerService.Service.PostOnStaleRead | services/ledger/internal/app/service.go:176-190 | a post whose first look at the reference came too early answers as specified, writes nothing, and its locks increase |
| LedgerService.Service.Sweep | services/ledger/internal/app/sweeper.go:40-62 | every listed hold ends released, captured or unknown, and nothing but releases happened |
| TransferDomain.TableDescends | services/transfer/internal/domain/state.go:67-100 | every edge of the transition table descends in rank, and exactly the terminal states have no edge |
| TransferDomain.TableExact | services/transfer/internal/domain/state.go:67-87 | the whole table: for each trigger, from which states and to which it leads |
| TransferDomain.SpecExact | services/transfer/internal/domain/state.go:111-138 | a request is well-formed if and only if it moves a positive amount of KZT or USD and names its ends as its type demands; the same-account error exactly for an own transfer to itself |
| TransferDomain.JudgeExact | services/transfer/internal/app/service.go:187-318 | validation accepts exactly the permitted transfers (ownership, status, currency, exchange, limits), for the account it looked up, with the amount received and the rate used |
| TransferDomain.JudgeWaits | services/transfer/internal/app/service.go:193-220 | validation waits if and only if the first lookup that fails is unreachable, and breaks off if and only if a lookup, a rate that is needed or a limit query that is needed is broken |
| TransferDomain.JudgeRefuses | services/transfer/internal/app/service.go:211-304 | it refuses with a reason if and only if that is the first thing found wrong, from ACCOUNT_NOT_FOUND to LIMIT_EXCEEDED |
| TransferDomain.AcceptedRow | services/transfer/internal/app/service.go:306-318 | acceptance writes the account found and, across currencies, the amount received, its currency, the pair and the rate used, and nothing else |
| Saga.GuardIsCompareAndSwap | services/transfer/internal/adapters/postgres/db/queries.sql.go:361-373 | the phase of a snapshot matches the row's if and only if the row is the snapshot but for the claim counter |
| Saga.MoveInv | services/transfer/internal/app/service.go:439-470 | a guarded transition keeps every row, snapshot, request and reply consistent, whether it is raced or not |
| SagaLaws.AdvanceHeldNever | services/transfer/internal/app/service.go:322-349 | a HELD row never carries a hold id, so the second branch is not taken |
| SagaLaws.ExecPost | services/ledger/internal/app/service.go:209-264 | whenever a post request is executed, an entry appears only together with the capture of the hold the row names |
| SagaLaws.DoInv | services/transfer/internal/app/service.go:138-394 | every step of every driver, recovery worker, request execution or other client keeps the invariant, and every row becomes only what it may become |
| SagaTheorems.Outcome | services/transfer/internal/app/service.go:322-394 | in every run a COMPLETED transfer has exactly one entry, the one its row describes, and a FAILED one has none, and the hold its row names, if it names one, is released |
| SagaPayment.CompletedPays | services/transfer/internal/app/service.go:396-434 | in every run the one entry of a COMPLETED transfer takes the amount from the payer named by the row (the customer's account, or for a deposit the cash account of its currency), gives the receiver t.to the counter amount or the amount, moves the two exchange positions by exactly that, and no other account |
| SagaPayment.ValidatedPays | services/transfer/internal/app/service.go:396-434 | the same for the legs of any validated transfer on a ledger that knows its accounts, each party's sum on its own |
| SagaPayment.HeldFromPayer | services/transfer/internal/app/service.go:322-343 | in every run the hold a row names is of its amount and on its payer's account |
| SagaTheorems.FailedHold | services/transfer/internal/app/service.go:376-394 | in every run a hold under a FAILED transfer's reference is never captured; if the row names a hold it is that one and it is released; a release of it always succeeds |
| SagaRuns.FailedLeavesHold | services/transfer/internal/app/recovery.go:88-98 | some run in which no answer is misreported ends FAILED with the hold still active: placed, its answer lost, recovery exhausted in HELD |
| SagaRuns.OrphanedIffUnnamed | services/transfer/internal/app/service.go:376-377 | a FAILED transfer can leave an active hold behind if and only if its row names no hold |
| SagaTheorems.OutcomeForever | services/transfer/internal/app/recovery.go:68-106 | over every continuation, with every request still in flight, a terminal row does not change, a FAILED transfer never gains an entry, a COMPLETED one keeps its single entry |
| SagaTheorems.TransferNeverStrands | services/transfer/internal/app/service.go:396-434 | in every run, no hold placed for a transfer is ever stranded |
| SagaTheorems.Fence | services/ledger/internal/app/service.go:209-264 | from POSTING on the row names a hold of its amount on its source, and the entry exists if and only if that hold is captured |
| SagaTheorems.History | services/transfer/internal/app/service.go:439-491 | transfer_events is a path of the table ending in the row's state, no state is entered twice, at most six rows; the outbox has one status event if and only if the transfer is terminal |
| SagaTheorems.StaleNeverOverwrites | services/transfer/internal/adapters/postgres/db/queries.sql.go:361-373 | in every run a stale driver's guard passes exactly if nothing it would overwrite has changed |
| SagaTheorems.Frozen | services/transfer/internal/app/service.go:306-318 | over every continuation amounts, destination, rate and journal legs are frozen after validation, the hold id once written, and the state only descends |
| SagaTheorems.SinkEntered | services/transfer/internal/app/service.go:351-374 | in any consistent world, a committed post reported as refused leads to RELEASING with a captured hold |
| SagaRuns.SinkReachable | services/transfer/internal/app/service.go:351-388 | some run from the initial world reaches that state: a deposit created, validated, held and posted, its success reported as a refusal |
| SagaTheorems.SinkForever | services/transfer/internal/app/service.go:376-394 | no continuation leaves that state, and the transfer's single entry exists |
| SagaDrive.TurnGood | services/transfer/internal/app/service.go:138-394 | every turn of the loop keeps the tables good, costs rank, touches only its own row and hold, stops only on a fault, an undecided validation or the sink, and never enters the sink |
| SagaDrive.DrivesUnique | services/transfer/internal/app/service.go:138-182 | the outcome of a drive is determined by the tables and the answers |
| SagaDrive.NamedHoldPosts | services/transfer/internal/app/service.go:344-348 | a HELD row that already names its hold goes on to POSTING without a ledger call |
| SagaDrive.UnknownHoldFails | services/transfer/internal/app/service.go:376-394 | a release the ledger answers with not found ends the transfer FAILED like a release |
| TransferService.Service.Advance | services/transfer/internal/app/service.go:439-470 | writes exactly the guarded columns, the event and the terminal status event, or nothing when raced |
| TransferService.Service.Validate | services/transfer/internal/app/service.go:187-318 | the tables and flags are exactly those of the validation turn: parked or failed when undecided, else FAILED with the reason or HELD with the locked columns |
| TransferService.Service.HoldAndAdvance | services/transfer/internal/app/service.go:322-349 | the tables and flag are exactly those of the hold turn, the branch of a row that already names a hold included: POSTING with the placed hold, RELEASING with the reason, or parked on an ambiguous answer, executed or not |
| TransferService.Service.PostLegs | services/transfer/internal/app/service.go:351-374 | the tables and flag are exactly those of the post turn: COMPLETED, RELEASING with the reason, or parked on an ambiguous answer, executed or not |
| TransferService.Service.ReleaseReservation | services/transfer/internal/app/service.go:376-394 | the tables and flags are exactly those of the release turn: FAILED, parked on an ambiguous answer, or the error of a captured hold |
| TransferService.Service.Drive | services/transfer/internal/app/service.go:138-182 | terminates after the turns its tables and answers determine, at most as many as the state has rank, so three from HELD; without faults it parks if and only if validation is due and the first failing lookup is unreachable, stops if and only if validation breaks off or the transfer is in the sink, which it leaves untouched, and else ends terminal; it never gets past a call that stays unanswered |
| TransferService.Service.RecoverOne | services/transfer/internal/app/recovery.go:68-106 | completes a POSTING row whose entry is found; else drives HELD and POSTING on as they are up to five attempts and gives them up after five; with the ledger answering, a claimed row ends terminal if and only if it was not in the sink, which it leaves untouched |
| TransferService.Service.RunOnce | services/transfer/internal/app/recovery.go:52-66 | counts one attempt on every listed row and passes over them in order, each pass within the five-attempt budget; with the ledger answering, each ends terminal with that same exact exception, and no other row is touched |
| TransferService.Service.CreateTransfer | services/transfer/internal/app/service.go:69-133 | one transfer per customer and key: the first request inserts a CREATED row with its own type, customer, accounts, amount and currency and drives it, a repeat drives the one on file on with those columns unchanged, another request under the key is refused without a change; a request is turned away exactly for a missing caller, a missing key or a malformed specification |
| SagaOutcome.RequestOutcome | services/transfer/internal/app/service.go:138-394 | undisturbed, a transfer yet to be validated parks exactly while the account service is unreachable, stops exactly when validation breaks off, is FAILED with the reason found first, and ends COMPLETED if and only if it is permitted, its hold can be had, and every balance it changes fits 64 bits |
| SagaOutcome.HeldOutcome | services/transfer/internal/app/service.go:322-394 | undisturbed, a validated HELD transfer ends, and COMPLETED if and only if the hold under its reference still stands or its payer can fund one, and the balances fit |
| SagaOutcome.HeldRecovers | services/transfer/internal/app/recovery.go:88-106 | picked up by recovery it ends COMPLETED if and only if it has had at most five attempts, the hold can be had, and the balances fit |
| SagaOutcome.PostingRecovers | services/transfer/internal/app/recovery.go:76-106 | a POSTING transfer picked up by recovery ends COMPLETED if and only if it was posted already, or has had at most five attempts, its hold stands and the balances fit |
| SagaContract.LegsBalance | services/transfer/internal/app/service.go:396-434 | its legs are nonzero, sum to zero in every currency, and take exactly the held amount from its source |
| SagaContract.EntryAccepted | services/ledger/internal/domain/domain.go:91-125 | on open accounts of the right currencies the entry check accepts those legs |
| SagaContract.CaptureAccepted | services/ledger/internal/domain/domain.go:161-173 | the net debit on the source is the held amount, so the hold is captured and never exceeded |
| SagaContract.PostAccepted | services/ledger/internal/app/service.go:192-360 | in any ledger state, the post of a validated transfer under its active hold succeeds or is answered with overflow, whatever else could refuse a post |
| SagaContract.PostSucceeds | services/ledger/internal/app/service.go:192-360 | that post succeeds if and only if no balance its legs touch leaves 64 bits |
| SagaContract.AcceptedPosts | services/transfer/internal/domain/state.go:111-138 | from the request to the ledger: whatever passed ValidateSpec and validation, with accounts as described, is posted under its active hold if and only if no touched balance leaves 64 bits |
| SagaContract.AlwaysSeeded | services/ledger/migrations/000001_init.up.sql:121-131 | the internal accounts the legs name exist with their currencies in every reachable ledger |
| DailyLimit.CheckExact | services/transfer/internal/domain/state.go:141-149 | the check on the wrapped differences is the check on the sum with the transfer counted |
| DailyLimit.OutgoingChanges | services/transfer/internal/adapters/postgres/db/queries.sql.go:312-320 | an outgoing transfer counts into its customer's, currency's and day's sum from its creation until it fails, and nothing else changes the sum |
| DailyLimit.StepInv | services/transfer/internal/app/service.go:288-318 | every interleaved step keeps passing same-day readings within the cap |
| DailyLimit.DailyCap | services/transfer/internal/adapters/postgres/db/queries.sql.go:312-320 | in every run the outgoing transfers of a customer, currency and day past validation and not failed never total more than the cap, if each was validated on the day it was created |
| DailyLimit.PastMidnight | services/transfer/internal/app/service.go:294-301 | without that condition, for every cap that is not negative and every positive per-transfer limit, each total is spent on one day by some run |
| DailyLimit.CapBreaks | services/transfer/internal/app/service.go:294-301 | so the cap of a currency can be exceeded if and only if its per-transfer limit is positive |
| Fx.MulDivHalfEven | pkg/money/fx.go:41-66 | truncating and adjusting gives the specified result, which is the nearest integer with ties to even for all signs |
| Fx.MulDivExact | pkg/money/fx.go:41-66 | there is a result exactly if the denominator is not zero and a nearest-even quotient fits 64 bits |
| Fx.ConvertExact | pkg/money/fx.go:10-27 | a conversion is value times rate over 1000000, the inverse value times 1000000 over rate, each to the nearest integer with ties to even, and exists exactly if that fits 64 bits and no zero divides |
| Fx.NearestUnique | pkg/money/fx.go:41-66 | the nearest integer with ties to even is unique |
| Fx.RoundTrip | pkg/money/fx.go:15-27 | at rates of at least 1.0 the inverse conversion restores the amount exactly |
| Fx.NoRoundTripGain | services/transfer/internal/app/service.go:262-285 | with 1.0 <= buy <= sell no USD to KZT to USD round trip gains a cent |
| Delivery.Relay.RelayOnce | pkg/outbox/relay.go:82-132 | no row is marked sent before the broker acknowledged it, acknowledged rows are on the topic, and only records of outbox rows are produced; an acknowledged round appends exactly the batch's records in order |
| Delivery.BatchExact | pkg/outbox/relay.go:89-94 | a batch is the oldest unsent unlocked rows, oldest first, up to the limit |
| Delivery.Relay.Drain | pkg/outbox/relay.go:46-72 | terminates, and unless a round failed leaves no unlocked row unsent |
| Delivery.ProcessOnceKeeps | pkg/kafka/consumer.go:178-208 | whatever happens to an attempt, every event's effect is there once if its dedup row is, and not at all otherwise; success implies the dedup row |
| Delivery.Consumer.ProcessOnce | pkg/kafka/consumer.go:178-208 | the attempt's transaction has exactly the specified effect |
| Delivery.Consumer.ProcessWithRetry | pkg/kafka/consumer.go:127-167 | ends processed, dead-lettered or lost to a failed dead-letter produce; processed if any attempt would commit; false only on shutdown; processed only if one of the allowed attempts could have succeeded |
| Delivery.Consumer.ProcessPartition | pkg/kafka/consumer.go:94-122 | from any committed offset, every marked record was processed, dead-lettered or had its dead-letter produce fail, and a shutdown marks nothing |
| Delivery.EffectExactlyOnce | pkg/kafka/consumer.go:94-208 | an event never takes effect twice, and a sent row whose record was processed has taken effect exactly once |
| Delivery.Deliver | pkg/outbox/relay.go:46-132 | draining the relay and consuming the partition settles every unlocked row |
| Delivery.AnyRun | pkg/outbox/relay.go:82-132 | in any interleaving of inserts, relay rounds of any number of relays, redeliveries and restarts, nothing is marked sent unacknowledged, no event takes effect twice, and every marked record is accounted for |
| Projection.ReadModel.ApplyProjection | services/account/internal/adapters/kafka/consumers.go:73-93 | one delivery changes the read model exactly as specified |
| Projection.ReadModel.UpsertBalanceGuarded | services/account/internal/adapters/postgres/db/queries.sql.go:240-248 | only a strictly newer version overwrites the row |
| Projection.ReadModel.Consume | services/account/internal/adapters/kafka/consumers.go:73-93 | any sequence of deliveries leaves exactly the specified fold of them |
| Projection.NewestWins | services/account/internal/adapters/postgres/db/queries.sql.go:240-248 | after any deliveries the row is one of the delivered events and none of them is newer |
| Projection.VersionsNeverFall | services/account/internal/adapters/kafka/consumers.go:73-93 | over any further deliveries a row stays, its version never falls, and it only changes with its version |
| Projection.AlwaysReal | services/ledger/internal/app/service.go:327-352 | for any deliveries of a ledger history's events, the shown pair was the account's balance row at some moment of that history |
| Projection.CurrentIffNewestDelivered | services/ledger/internal/app/service.go:327-352 | the read model shows the current pair if and only if the account's newest event has been delivered |
| Projection.CaughtUp | services/account/internal/adapters/kafka/consumers.go:73-93 | once every event has been delivered, in any order and number, the read model agrees with the ledger |
| Pipeline.AnyRun | pkg/outbox/relay.go:82-132 | in any interleaving of ledger transactions, relay rounds, redeliveries and restarts, the outbox holds exactly the announcements, only they are published or processed, and the read model is the fold of the processed ones |
| Pipeline.OneStretch | pkg/kafka/consumer.go:94-208 | a stretch of the partition, wherever it starts and stops, keeps that, each effect being the projection of its event |
| Pipeline.ShownWasReal | services/account/internal/adapters/kafka/consumers.go:73-93 | at every moment of every such run, the pair a customer is shown was the account's balance row at some moment of the ledger's history |
| Pipeline.CurrentIffProcessed | services/account/internal/adapters/postgres/db/queries.sql.go:240-248 | a customer is shown the current pair if and only if an announcement of the current version has been processed, whatever happened to the others |
| Pipeline.QuietAgrees | pkg/kafka/consumer.go:94-208 | once every outbox row is sent and every record processed, the read model is the ledger's customer side |
| Pipeline.CatchUp | pkg/outbox/relay.go:46-72 | after any such run, draining the relay and consuming the partition shows every customer the ledger's current pair, unless a step failed or a record was given up |
| Cursor.Base64RoundTrip | services/ledger/internal/app/service.go:486-491 | unpadded URL-safe base64 decodes to the bytes it encoded |
| Cursor.DecimalRoundTrip | services/ledger/internal/app/service.go:486-502 | every 64-bit integer parses back from its decimal text |
| Cursor.CursorRoundTrip | services/transfer/internal/app/cursor.go:11-29 | every microsecond time and every id comes back from a cursor, ids containing bars included |
| Cursor.CursorExact | services/transfer/internal/app/cursor.go:15-29 | a cursor is read if and only if it decodes to the decimal text of a 64-bit time, a bar, and then the id |
| Cursor.DecodeAccepts | services/transfer/internal/app/cursor.go:15-19 | a text decodes if and only if, line breaks aside, it has only letters of the alphabet and does not end in a lone one |
| Cursor.Alphabet | services/ledger/internal/app/service.go:486-491 | the 64 letters are those of URL-safe base64 |
| Cursor.SplitValue | services/ledger/internal/app/service.go:486-491 | the letters spell the bits of the bytes, most significant first, three bytes to four letters |
| Cursor.Vectors | services/ledger/internal/app/service.go:486-491 | the first test vectors of section 10 of RFC 4648, unpadded |
| Paging.ListingExact | services/ledger/internal/adapters/postgres/db/queries.sql.go:421-432 | the one-shot listing holds each matching row once, in descending (time, id) order |
| Paging.PageExact | services/ledger/internal/app/service.go:420-452 | a page is the next stretch of the one-shot listing and its cursor stands right after it, or is empty at the end |
| Paging.PostingsAnswer | services/ledger/internal/app/service.go:420-452 | refused for a bad range, an unknown account or a malformed cursor; without a cursor the newest rows, as many as asked for, fifty by default and two hundred at most |
| Paging.TransfersAnswer | services/transfer/internal/app/service.go:508-538 | the same for a customer's transfers, twenty by default and a hundred at most |
| Paging.FollowPostings | services/ledger/internal/app/service.go:420-452 | for every fixed table, range and page size, following cursors terminates and the pages together are the one-shot listing |
| Paging.FollowTransfers | services/transfer/internal/app/service.go:508-538 | the same for a customer's transfers |
| Velocity.FiresOnlyOnBursts | services/antifraud/internal/domain/rules.go:53-85 | when the rule fires, more than N transfers lie within one five-minute span ending now |
| Velocity.BurstsFire | services/antifraud/internal/domain/rules.go:53-85 | more than 2N transfers within five minutes make the rule fire on one of them |
| Velocity.HalfOpenBurstsFire | services/antifraud/internal/domain/rules.go:53-85 | in a half-open five-minute span 2N suffice |
| Velocity.DaySumExact | services/antifraud/internal/domain/rules.go:88-94 | the stored sum is the day's true sum reduced to 64 bits |
| Velocity.Evaluate | services/antifraud/internal/domain/rules.go:53-76 | the loop raises exactly the specified alerts, in rule order |
| Velocity.AlertsExact | services/antifraud/internal/domain/rules.go:53-76 | the alerts stand one to one and in order for the rules that are raised, so there is an alert for a rule if and only if the rule is raised |
| Velocity.Scorer.Handle | services/antifraud/internal/app/scorer.go:39-113 | handled in turn, each customer's stored row is what the customer's own history gives, and the alerts stand exactly for the rules by which the history makes the transfer alarming: over the amount, the velocity rule firing, the day's total over the limit, a large first transfer to a destination |
| Velocity.AlertsAlarm | services/antifraud/internal/domain/rules.go:53-76 | a rule's alert is raised on the stored row if and only if the rule fires on the customer's history |
| Velocity.OverlapExact | services/antifraud/internal/app/scorer.go:57-113 | a handling that read its row before another's write leaves the in-turn row if and only if it starts both window and day afresh |
| AccountNumber.Mod97 | services/account/internal/domain/domain.go:50-59 | the loop is the decimal value modulo 97 for every digit string and -1 for every other |
| AccountNumber.TrimExact | services/account/internal/domain/domain.go:30-33 | trimming digits leaves nothing exactly if there are only digits |
| AccountNumber.GeneratedValid | services/account/internal/domain/domain.go:30-48 | exactly 13 digits give a number, it validates, and its check digits are in 02..98 |
| AccountNumber.CheckDigits | services/account/internal/domain/domain.go:42-48 | check digits validate if and only if they agree with the generated ones modulo 97 |
| AccountNumber.SingleErrorDetected | services/account/internal/domain/domain.go:42-48 | changing any one character of a valid number makes it invalid |
| AccountNumber.AdjacentSwapDetected | services/account/internal/domain/domain.go:42-48 | swapping any two unequal neighbours of a valid number makes it invalid |

## Left out

- Gateway, identity, notification, metrics, tracing, configuration, generated code and gRPC/HTTP
  adapters: field copying, libraries and plumbing.
- Postgres and Kafka internals: a transaction is atomic, row locks and unique keys hold, delivery is
  at least once. Of the read-committed interleavings inside one ledger transaction only the early look
  at a reference is modelled (`Ledger.PostRaced`); in `Saga` any failure may be reported at any time,
  which covers what a caller sees of the others.
- Retries and circuit breakers between services: any number of repeated or lost requests is allowed.
- Error-code texts: only the split into success, definite failure and ambiguous answer is kept; reasons
  are parameters.
- Request hashes are a parameter of `TransferService.Service.CreateTransfer`; SHA-256 and the
  ambiguity of its joined input are not modelled. Cleanup of old keys is not modelled.
- Recovery of CREATED and VALIDATING transfers: the worker does not claim them, so no progress is
  claimed for them beyond `TransferService.Service.Drive`.
- The staleness condition and the limit of ten in the claim query: the claimed ids are a parameter.
- Account freezing on fraud alerts, customer bootstrap and account status rules: short guarded updates.
- Wrap-around of version counters and of the window counter's 32-bit column: counters are unbounded.
- Reordering among partitions of a topic: `Delivery` follows one partition.
- The round trip KZT to USD to KZT: no claim is made.
- Strings are sequences of characters; bytes and code points coincide on the inputs the code accepts.
- LedgerService.Service.Sweep: the listing of expired holds is a parameter, because the sweeper reads it outside any transaction.
- Saga.MoveInv: reading a row and writing it back are separate steps of a driver, but one transition is atomic, as its database transaction is.
- DailyLimit.DailyCap: assumes a daily limit that is not negative and constant; the seeded limits are.
- Paging.FollowPostings: the table does not change between pages.
- Velocity.BurstsFire: needs nondecreasing timestamps.
- Velocity.AdvanceWindow: times are whole microseconds; the code compares an event's time in nanoseconds with a start stored at the database's precision, so on the edge of a window the two can differ by less than a microsecond.
- Velocity.Scorer.Handle: assumes one customer's transfers are scored one after another; the row is read without a lock and the topic is keyed by transfer, so two partitions can overlap. One overlap is described by `Velocity.OverlapExact`, longer ones are not.
- LedgerTheorems.Replay: is about a replay that sees the entry; one that looked too early is described by `LedgerExact.RacedExact`.
- SagaTheorems.SinkEntered: the world before the step is any consistent one; `SagaRuns.SinkReachable` exhibits a run.
- SagaOutcome.RequestOutcome: takes it that the account service answers for the account it was asked for, that the ledger has the accounts it describes, open and in their currencies, and that a generated hold id is new.
- Pipeline.AnyRun: event ids are drawn without collision, the topic carries only the ledger's events, and one partition is followed.
- Delivery.Deliver: settling is stated for one relay and one consumer taking turns; for other interleavings `Delivery.AnyRun` states safety only, and concurrent relays appear as locked rows.
