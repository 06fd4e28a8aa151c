# zkVerify, modelled in Dafny

A model of four parts of zkVerify, and proofs about them.

- **The aggregate pallet** (`Aggregate*.dfy`, `Ledger.dfy`). Verified proofs are collected per
  domain into aggregations, paid for by holds on the submitters' balances, and published with a
  Merkle receipt. `AggregateSpec.dfy` is the pallet as a state machine over its calls;
  `AggregatePallet.dfy` is the pallet as an object whose methods change storage in place, each
  proved equal to the state machine. The theorems speak about every state reachable from genesis
  by any sequence of calls with any arguments.
- **The Merkle receipt** (`Merkle.dfy`). The tree, its paths, and the verifier of the repository's
  own scripts, for an arbitrary hash function: soundness is stated as "or here is a collision".
- **The certificate revocation pallet** (`Crl*.dfy`). A flat vector and a version map refine "the
  newest list of each issuer"; issuer and `thisUpdate` are those of sections 5.1.2.3 and 5.1.2.4
  of RFC 5280.
- **Token claims** (`Eip191.dfy`, `ClaimScript.dfy`, `Decimal.dfy`). The framing of the signed
  message, and the script that turns a table of decimal amounts into batches and a total.

What the outside world decides is an argument of a call: whether the ledger grants a hold, how
much of a release or transfer goes through, whether a deposit can be taken, whether a dispatch
succeeds, the estimated fee and tip, and the result of parsing and checking a certificate list.
The theorems hold for every such choice unless they name a condition on it.

In five places a natural property fails. The condition under which it holds is exact, and there is
an input for which it fails:

- A proof sent to a manager-owned domain with the owner-only rule panics, because there is no
  owning account to compare with and registration does not rule the combination out. Besides,
  in a build that checks for overflows, as the testnet profile does, a proof panics if the
  estimate plus the publisher's tip or the delivery fee plus its tip exceeds 128 bits. There is
  no other panic (`AggregateSafety.PanicsExactly`,
  `AggregateSafety.OwnerlessDomainPanics`, `AggregateSafety.OverflowingFeePanics`).
- In every reachable state the registration deposits cover what is stored, if and only if the length
  of the largest domain can be said in a 32 bit `usize`. A runtime for which it cannot is far from
  any that exists: its largest domain takes more than four gigabytes
  (`AggregateFootprint.DepositsCoverExactly`).
- The revocation pallet refines the simple machine if and only if no storable issuer shares its
  hash with another issuer that is used (`CrlRefinement.StorageRefines`,
  `CrlTheorems.CollisionDiverges`).
- No order of deliveries of revocation lists meets a limit if and only if there is room for the
  largest list of every issuer at once; then the order is irrelevant
  (`CrlOrder.OrderFreeExactly`, `CrlOrder.RoomyDeliveriesConverge`,
  `CrlOrder.LimitsMakeOrderMatter`).
- The claim script is exact if and only if an amount has at most 18 fractional digits or is zero
  (`ClaimScript.UnitsExact`, `ClaimScript.TooManyDigits`).

Where code and comments differ, the model follows the code: `register_ca` documents a
`MaxCasReached` error that no code returns.

`dafny verify dfyconfig.toml` checks the whole project.

## Model

| member | source | states |
|---|---|---|
| `AggregateTheorems.Reachable` | pallets/aggregate/src/lib.rs:190-280 | the whole invariant (identifiers 1, 2, ... each queued or published but never both, sizes within limits, stages, tickets, event log, receipts, holds) is true after every sequence of calls from genesis |
| `AggregateTheorems.CallKeepsInv` | pallets/aggregate/src/lib.rs:866-942 | every call, failed ones included, keeps that invariant |
| `AggregateTheorems.LogRefinement` | pallets/aggregate/src/lib.rs:269-278 | the `NewProof` events of a domain are, in order, exactly the statements of its published, queued and open aggregations: an append-only log is refined by queue, archive and open aggregation |
| `AggregateTheorems.AnnouncedThenPublished` | pallets/aggregate/src/lib.rs:269-278 | the statements announced under a domain and aggregation id are, in order, exactly those of the aggregation filed under it, wherever it is by now |
| `AggregateTheorems.ReceiptsCommitToAnnouncements` | pallets/aggregate/src/data.rs:141-145 | over a whole run no (domain, aggregation) pair has two receipts, the id is never the dummy 0, and the receipt is the Merkle root of exactly the statements announced under that pair |
| `AggregatePreservation.CallKeepsCore` | pallets/aggregate/src/lib.rs:190-280 | no call breaks filing, limits, stages, log or receipts |
| `AggregatePreservation.AcceptKeepsDomain` | pallets/aggregate/src/lib.rs:571-613 | accepting a statement into a ready domain with room cannot fail, extends the log by that statement under the open id, and keeps the domain in order, also when the identifiers run out |
| `AggregatePreservation.TakeKeepsDomain` | pallets/aggregate/src/lib.rs:486-492 | taking an aggregation moves it from queue or open slot to the archive under a fresh id, without changing the log |
| `AggregatePreservation.TakeEffect` | pallets/aggregate/src/lib.rs:486-492 | an aggregation is found exactly if it is queued, or open and not empty; what it leaves behind |
| `AggregatePreservation.PopEffect` | pallets/aggregate/src/lib.rs:547-563 | closing the open aggregation moves the frontier by one, and at the last id leaves the dummy id 0 in a domain on hold |
| `AggregatePreservation.AppendEffect` | pallets/aggregate/src/lib.rs:571-601 | a statement is appended; the aggregation is queued exactly when it becomes complete |
| `AggregatePreservation.HoldEffect` | pallets/aggregate/src/lib.rs:604-613 | off the ready state, a domain becomes removable exactly when nothing waits in it |
| `AggregatePreservation.ReserveSafe` | pallets/aggregate/src/lib.rs:460-482 | a failed reservation leaves balances untouched and its compensating release never panics |
| `AggregateSubmissions.AllOrNothing` | pallets/aggregate/src/lib.rs:190-280 | after any run, and without a storage transaction, what becomes of a submission, over the stored fields: refused with one event for the first cause that applies (no account, unknown domain, state, room, the submission rule, funds), or announced once, filed, and put on hold at the cost of exactly its two shares to the submitter alone, with all events of a completed aggregation, a full queue and the last id |
| `AggregateRights.PermittedAgrees` | pallets/aggregate/src/lib.rs:625-639 | who may submit: anyone, the owning account, or an allowlisted one; and when the test has no answer |
| `AggregateRights.RoomAgrees` | pallets/aggregate/src/data.rs:409-412 | there is room exactly if the statement does not complete the open aggregation or the queue can take that |
| `AggregateRights.SharesAgree` | pallets/aggregate/src/lib.rs:464-468 | what a statement pays: its part of estimate plus tip, saturating, and of delivery fee plus tip, wrapping |
| `AggregateSubmissions.ReservedExactly` | pallets/aggregate/src/lib.rs:460-482 | both holds are taken exactly if the ledger agrees and the free balance covers both shares together |
| `AggregatePaths.PathsVerify` | pallets/aggregate/src/lib.rs:796-827 | every path answered in any reachable state is for the asked statement, at the position where it was first announced and with the number announced, is against a receipt that was emitted, and is accepted by the verifier; the error answers occur exactly when they should |
| `AggregatePaths.PathsAvailable` | pallets/aggregate/src/lib.rs:796-835 | after a publication, until the block ends, a path is available for every announced statement |
| `AggregatePaths.ReceiptsSound` | zombienet-tests/js_scripts/0012-aggregate_proofs.js:406-422 | whatever path a verifier accepts against any emitted receipt, its leaf was announced under that receipt, or the path exhibits a hash collision |
| `AggregatePaths.FirstPublishedIs` | pallets/aggregate/src/lib.rs:801-808 | the search of the published list finds an aggregation of that domain and id, and misses none |
| `AggregatePaths.PositionIs` | pallets/aggregate/src/lib.rs:809-817 | the search of the statements finds the first equal one |
| `AggregatePaths.PublishedIsArchived` | pallets/aggregate/src/lib.rs:796-827 | what the search finds in the block is the aggregation whose receipt was emitted |
| `AggregatePaths.BlockKeepsPublished` | pallets/aggregate/src/lib.rs:832-835 | within a block the published list only grows |
| `Merkle.RootIsTreeHash` | pallets/aggregate/src/data.rs:141-145 | the receipt built level by level is the root built top down: the left part takes the largest power of two of the leaves, and a node hashes left root and right root in that order |
| `Merkle.VerifyProof` | zombienet-tests/js_scripts/0012-aggregate_proofs.js:406-422 | the loop of the verifier computes `Accepts`, for any path, index and leaf count |
| `Merkle.HonestProofAccepted` | zombienet-tests/js_scripts/0012-aggregate_proofs.js:406-422 | completeness: the path built for any leaf of any non-empty list is accepted, unpaired nodes on every level included |
| `Merkle.AcceptedLeafWasAggregated` | zombienet-tests/js_scripts/0012-aggregate_proofs.js:406-422 | soundness: an accepted leaf is one of the leaves, or the inputs hashed by verifier and tree collide; for leaves that are not 64 bytes long |
| `Merkle.ClimbReachesRoot` | zombienet-tests/js_scripts/0012-aggregate_proofs.js:406-422 | the verifier stays in step with the tree although its index and width drift away on the right edge |
| `Merkle.ClimbStaysInTree` | zombienet-tests/js_scripts/0012-aggregate_proofs.js:406-422 | without a collision, a climb that ends in the tree has started in the tree |
| `AggregateLifecycle.StagesAdvance` | pallets/aggregate/src/lib.rs:534-613 | over every run a domain goes from ready through hold and removable to removed and never back, and off the ready state it is removable exactly when it has no statement and no allowlisted submitter |
| `AggregateLifecycle.CallMoves` | pallets/aggregate/src/lib.rs:1068-1144 | each call moves each domain along the life cycle or leaves it |
| `AggregateLifecycle.NothingStranded` | pallets/aggregate/src/lib.rs:1104-1144 | a removed domain left nothing behind: every statement ever announced for it was published, no hold and no allowlist entry remains |
| `AggregateLifecycle.BacklogShrinks` | pallets/aggregate/src/lib.rs:604-613 | off the ready state no call increases the backlog; a publication takes one off, a removal of submitters the number that were listed |
| `AggregateLifecycle.PublishEnabled` | pallets/aggregate/src/lib.rs:1362-1382 | any queued or open non-empty aggregation is published, however it is settled, exactly if the dispatch goes through and the caller is anyone under the open rule, an owner of the domain or of its delivery, the manager, or anyone for a complete aggregation under the third rule; otherwise the origin is refused |
| `AggregateRights.PublishAgrees` | pallets/aggregate/src/lib.rs:1362-1382 | the same rights over the stored fields |
| `AggregateAnswers.PublishAnswer` | pallets/aggregate/src/lib.rs:866-942 | after any run: each error exactly when it applies, and otherwise the new record, state, published list and events, the receipt being the root over the statements in order |
| `AggregateAnswers.RegisterAnswer` | pallets/aggregate/src/lib.rs:969-1041 | after any run: succeeds exactly if there is a payee, an id, the deposits and fitting sizes, each error exactly when it applies, and records exactly what was asked for: the named delivery owner or else the caller |
| `AggregateAnswers.HaltAnswer` | pallets/aggregate/src/lib.rs:1068-1087 | after any run: owner or manager only, ready domains only; hold or removable by what waits |
| `AggregateAnswers.UnregisterAnswer` | pallets/aggregate/src/lib.rs:1104-1144 | after any run: owner or manager only, removable domains only; the domain goes and its tickets go back |
| `AggregateAnswers.SetFeeAnswer` | pallets/aggregate/src/lib.rs:1162-1181 | after any run: manager, domain owner or delivery owner only; fee and tip are stored and nothing else changes |
| `AggregateAnswers.FeeTakesEffect` | pallets/aggregate/src/data.rs:246-251 | the next statement taken in reserves its part of exactly the new fee plus tip |
| `AggregateAnswers.AllowlistAnswer` | pallets/aggregate/src/lib.rs:1196-1213 | after any run: each error exactly when it applies; otherwise exactly the named accounts are added and the ticket counts the whole list |
| `AggregateAnswers.RemoveAnswer` | pallets/aggregate/src/lib.rs:1227-1243 | after any run: each error exactly when it applies; otherwise exactly the named accounts go, the ticket counts the rest, and a domain on hold may become removable |
| `AggregateAnswers.NewBlockAnswer` | pallets/aggregate/src/lib.rs:832-835 | the published list is emptied, so that no path is answered; nothing else changes |
| `AggregateLifecycle.DropEnabled` | pallets/aggregate/src/lib.rs:1227-1243 | an allowlisted submitter is removed, at a granted price, exactly by the owner of the domain or the manager |
| `AggregateLifecycle.DrainStep` | pallets/aggregate/src/lib.rs:1068-1144 | for any answer of the environment: the next move of the owner or the manager succeeds if it needs no grant or is granted, and leaves one move less; a refused one leaves no more |
| `AggregateLifecycle.HandlerRemoves` | pallets/aggregate/src/lib.rs:1104-1144 | from any state in the invariant and against any sequence of answers, the owner alone or the manager alone removes the domain once the environment has granted as many times as there are moves left |
| `AggregateLifecycle.EveryDomainRemovable` | pallets/aggregate/src/lib.rs:1068-1144 | no reachable state is a dead end: the owner alone, and the manager alone, gets every domain of every reachable state removed if dispatches and ticket prices are granted backlog plus two times, with any refusals in between and any settlements |
| `Ledger.HoldThenRelease` | pallets/aggregate/src/lib.rs:470-479 | a hold followed by its exact release restores the balances |
| `Ledger.SettlementBounds` | pallets/aggregate/src/lib.rs:1246-1280 | settling conserves the total and takes at most the asked amount off hold |
| `Ledger.SettlementExactly` | pallets/aggregate/src/lib.rs:1246-1280 | every balance after a settlement: a transfer that is not refused goes to the destination, cut short or not; only without one what is released goes back |
| `Ledger.FullSettlement` | pallets/aggregate/src/lib.rs:1246-1280 | when the ledger grants it, settling moves exactly the asked amount from the hold to the payee |
| `AggregateFunds.CallKeepsFunds` | pallets/aggregate/src/lib.rs:460-482 | every call keeps the pending reserves covered by holds, and equal to the holds if settlements go through |
| `AggregateFunds.SubmitFunds` | pallets/aggregate/src/lib.rs:256-278 | accepting a statement puts on hold exactly what the statement records |
| `AggregateFunds.PublishFunds` | pallets/aggregate/src/lib.rs:896-909 | publishing takes off hold no more than what the published statements recorded |
| `AggregateFunds.PayFull` | pallets/aggregate/src/lib.rs:896-909 | the settlement loop, if granted, releases exactly the recorded reserves and pays out exactly the payout |
| `AggregatePayments.HoldsCoverPending` | pallets/aggregate/src/lib.rs:460-482 | after every run the holds cover the reserves of all pending statements, and equal them when every settlement went through |
| `AggregatePayments.PublishConserves` | pallets/aggregate/src/lib.rs:866-942 | publishing never creates or destroys funds, whatever the ledger refuses |
| `AggregatePayments.PublishSettles` | pallets/aggregate/src/lib.rs:896-909 | publishing releases exactly the recorded reserves of exactly the published statements |
| `AggregatePayments.PublishPays` | pallets/aggregate/src/lib.rs:896-909 | after any run: the publisher gets the aggregation reserves and the delivery owner the delivery reserves whose transfer goes through; each submitter gets their own back where it is refused or the manager publishes; nobody else gains |
| `AggregatePayments.PublishPaysGranted` | pallets/aggregate/src/lib.rs:896-909 | the two sums when every transfer goes through |
| `AggregateSafety.RoundingBounds` | pallets/aggregate/src/lib.rs:464-468 | over any run in which the fees do not change while an aggregation is open, that aggregation, whenever published, collected at most each fee, and a complete one less than its size below each |
| `AggregateSafety.CollectedBounds` | pallets/aggregate/src/lib.rs:464-468 | what equal shares add up to |
| `AggregateDeposits.CallKeepsTickets` | pallets/aggregate/src/lib.rs:680-721 | every call keeps the ticket count equal to the number of allowlisted submitters |
| `AggregateDeposits.AddedCount` | pallets/aggregate/src/lib.rs:641-649 | the number of newly inserted entries is the growth of the allowlist, repeated accounts counted once |
| `AggregateDeposits.DroppedCount` | pallets/aggregate/src/lib.rs:651-659 | the number of deleted entries is what the allowlist loses |
| `AggregateDeposits.DropNeverUnderflows` | pallets/aggregate/src/lib.rs:705-721 | the count never goes below zero and is right afterwards |
| `AggregateDeposits.DepositCovers` | pallets/aggregate/src/data.rs:419-445 | the size the registration deposit is taken for is at least the encoded size of the domain, whatever it holds, if the largest domain is addressable |
| `AggregateFootprint.DepositsCoverExactly` | pallets/aggregate/src/lib.rs:998-1008 | for every runtime: in every reachable state every deposit covers the encoding of its domain, if and only if the length of the largest domain can be said in a `usize`; the failing run is built call by call |
| `AggregateFootprint.FillTo` | pallets/aggregate/src/lib.rs:571-601 | a run that brings a domain to any given number of queued aggregations and open statements |
| `AggregateDeposits.DepositAtMaximum` | pallets/aggregate/src/data.rs:419-445 | for the largest parameters it is the maximal encoded length, saturated or not |
| `AggregateDeposits.DepositAtLeast` | pallets/aggregate/src/data.rs:147-160 | what the saturating computation yields: the sum of the three bounds, less what the maximum exceeds the machine size by |
| `AggregateSafety.DepositsOverRuns` | pallets/aggregate/src/lib.rs:969-1041 | in every reachable state: manager domains hold no ticket, account domains hold one for at least their encoded size, and the allowlist ticket exists exactly for allowlist domains of accounts and counts the allowlist |
| `AggregateSafety.UnregisterRepays` | pallets/aggregate/src/lib.rs:1104-1144 | whoever unregisters a domain, each of its tickets is given back, to the account that paid for it |
| `AggregateSafety.RefundsOverRuns` | pallets/aggregate/src/lib.rs:1104-1144 | over every run no ticket is ever given back to anybody else, and the next removal gives back both tickets of the domain and nothing more |
| `AggregateSafety.RemovalNeverUnderflows` | pallets/aggregate/src/lib.rs:1227-1243 | after any run, removing submitters succeeds exactly for allowlist domains |
| `AggregateSafety.PanicsExactly` | pallets/aggregate/src/lib.rs:460-482 | no call in any reachable state panics, except if and only if it is an authorised proof whose fees overflow in a build that checks, or a proof for a ready manager-owned domain with the owner-only rule and room; and at which site |
| `AggregateSafety.OwnerlessDomainPanics` | pallets/aggregate/src/lib.rs:628-634 | a concrete two-call run that reaches the missing owner |
| `AggregateSafety.OverflowingFeePanics` | pallets/aggregate/src/data.rs:246-251 | a concrete two-call run that panics in checked builds and wraps around to a zero fee in others |
| `AggregateSafety.SubmitPanics` | pallets/aggregate/src/lib.rs:190-280 | the same for one submission in any state of the invariant |
| `AggregatePallet.DomainCell.UpdateHoldState` | pallets/aggregate/src/lib.rs:534-543 | in-place update equals the specification |
| `AggregatePallet.DomainCell.HandleHoldState` | pallets/aggregate/src/lib.rs:604-613 | state and emitted event |
| `AggregatePallet.DomainCell.PopNextAggregation` | pallets/aggregate/src/lib.rs:547-563 | the closed aggregation, the next one, the event at exhaustion |
| `AggregatePallet.DomainCell.TakeAggregation` | pallets/aggregate/src/lib.rs:486-492 | queue or open aggregation |
| `AggregatePallet.DomainCell.AppendStatement` | pallets/aggregate/src/lib.rs:571-586 | appended statement and the aggregation to publish |
| `AggregatePallet.DomainCell.AvailableAggregation` | pallets/aggregate/src/lib.rs:589-601 | queue insertion and both events |
| `AggregatePallet.DomainCell.ChangeFootprintCount` | pallets/aggregate/src/lib.rs:680-721 | checked count and ticket update, both directions |
| `AggregatePallet.Pallet.constructor` | pallets/aggregate/src/lib.rs:750-772 | genesis storage satisfies the invariant |
| `AggregatePallet.Pallet.ReserveCurrency` | pallets/aggregate/src/lib.rs:460-482 | both holds or none |
| `AggregatePallet.Pallet.AcceptStatement` | pallets/aggregate/src/lib.rs:269-278 | event, append, queue and hold state in one step |
| `AggregatePallet.Pallet.OnProofVerified` | pallets/aggregate/src/lib.rs:190-280 | every outcome of the state machine, every cause of refusal, every panic; keeps the invariant |
| `AggregatePallet.Pallet.HandleHeldFunds` | pallets/aggregate/src/lib.rs:1246-1280 | transfer, or release as a fallback |
| `AggregatePallet.Pallet.SettleStatements` | pallets/aggregate/src/lib.rs:896-909 | the loop settles every statement once, in order |
| `AggregatePallet.Pallet.PublishFrom` | pallets/aggregate/src/lib.rs:872-939 | take, settle, publish, announce; roll-back when the dispatch fails |
| `AggregatePallet.Pallet.Aggregate` | pallets/aggregate/src/lib.rs:866-942 | same storage, events and error as the state machine; keeps the invariant |
| `AggregatePallet.Pallet.RegisterDomain` | pallets/aggregate/src/lib.rs:969-1041 | same, with both deposits |
| `AggregatePallet.Pallet.HoldDomain` | pallets/aggregate/src/lib.rs:1068-1087 | same |
| `AggregatePallet.Pallet.UnregisterDomain` | pallets/aggregate/src/lib.rs:1104-1144 | same, with the tickets given back |
| `AggregatePallet.Pallet.SetTotalDeliveryFee` | pallets/aggregate/src/lib.rs:1162-1181 | same |
| `AggregatePallet.Pallet.InsertSubmitters` | pallets/aggregate/src/lib.rs:641-648 | the loop inserts exactly the missing entries and counts them |
| `AggregatePallet.Pallet.DeleteSubmitters` | pallets/aggregate/src/lib.rs:651-658 | the loop deletes exactly the present entries and counts them |
| `AggregatePallet.Pallet.AllowlistProofSubmitters` | pallets/aggregate/src/lib.rs:1196-1213 | same storage, events and error as the state machine; keeps the invariant |
| `AggregatePallet.Pallet.RemoveProofSubmitters` | pallets/aggregate/src/lib.rs:1227-1243 | same |
| `AggregatePallet.Pallet.OnInitialize` | pallets/aggregate/src/lib.rs:832-835 | clears the published list only |
| `AggregatePallet.Pallet.GetStatementPath` | pallets/aggregate/src/lib.rs:796-827 | both search loops and the path, equal to the specification |
| `CrlRefinement.StepRefines` | pallets/crl/src/lib.rs:324-531 | every call answers as the machine that keeps each issuer's newest list, the same error included, and the two stay related |
| `CrlRefinement.StorageRefines` | pallets/crl/src/lib.rs:256-287 | over every run: the vector is as a multiset the union of the issuers' newest lists, per issuer in order; the count is its length; versions are those of the newest lists, one per issuer with entries; if no storable issuer shares its hash with another |
| `CrlRefinement.AnswersRefine` | pallets/crl/src/lib.rs:324-531 | after any run every next call is accepted by both machines or refused by both with the same error |
| `CrlRefinement.HoldsAll` | pallets/crl/src/lib.rs:256-287 | a vector that holds every issuer's list holds nothing else |
| `CrlAnswers.RegisterAnswer` | pallets/crl/src/lib.rs:324-368 | after any run: succeeds exactly for the manager, a free name and fitting lengths; each error; no entries yet |
| `CrlAnswers.UnregisterAnswer` | pallets/crl/src/lib.rs:380-401 | after any run: succeeds exactly for the manager and a registered name; record and entries go |
| `CrlAnswers.UpdateAnswer` | pallets/crl/src/lib.rs:431-531 | after any run: every error exactly when it applies, limits as numbers; otherwise the issuer's entries are replaced, those of others stay in order, count and version follow |
| `CrlAnswers.ObstacleFirst` | pallets/crl/src/lib.rs:267-283 | the first entry that cannot be appended decides the error |
| `CrlTheorems.CollisionDiverges` | pallets/crl/src/lib.rs:489-497 | for any two issuers with one hash, one of which can be stored, the refinement fails: the condition is needed |
| `CrlTheorems.AlwaysBookkept` | pallets/crl/src/lib.rs:499-508 | over every run and for any hash: both maps have the same authorities, the count is the vector length, a version exists exactly for hashes of issuers with entries, all limits hold |
| `CrlTheorems.CallBookkeeps` | pallets/crl/src/lib.rs:324-531 | each call keeps that, late failures rolled back |
| `CrlTheorems.ObstacleExactly` | pallets/crl/src/lib.rs:267-283 | appending succeeds exactly when every entry fits and all have room, and when only room is missing that is the error |
| `CrlTheorems.RunGrows` | pallets/crl/src/lib.rs:491-508 | until an authority is unregistered its versions never go back |
| `CrlTheorems.NoReplay` | pallets/crl/src/lib.rs:491-497 | after an accepted list, however many calls later, a list of that issuer that is not newer is refused until the authority is unregistered |
| `CrlConvergence.DeliveriesConverge` | pallets/crl/src/lib.rs:431-531 | any two sequences that deliver the same set of lists on top of any history, without running into a limit, end with the same record and the same revoked certificates |
| `CrlConvergence.DeliverNewest` | pallets/crl/src/lib.rs:489-508 | after any such deliveries each issuer has the newest list among what it had and what was sent |
| `CrlOrder.OrderFreeExactly` | pallets/crl/src/lib.rs:431-531 | after any history, every order of well-formed deliveries is free of refusals for limits if and only if there is room, in what is stored, for all issuers and for the largest list of each of them at once |
| `CrlOrder.RoomyDeliveriesConverge` | pallets/crl/src/lib.rs:431-531 | under that condition any two sequences that deliver the same set of lists end with the same record and the same revoked certificates |
| `CrlOrder.RoomyUnhindered` | pallets/crl/src/lib.rs:267-283 | with that room no delivery is refused for a limit, whatever its order and repetition |
| `CrlOrder.Climb` | pallets/crl/src/lib.rs:267-283 | without it some of the deliveries, one for an issuer, cannot all be accepted |
| `CrlOrder.StoredIs` | pallets/crl/src/lib.rs:256-287 | the issuers' newest lists can be read off the storage |
| `CrlOrder.LimitsMakeOrderMatter` | pallets/crl/src/lib.rs:503-507 | eleven issuers with one-entry lists: of the last two, whichever is delivered first is stored and the other is not |
| `CrlPallet.Pallet.constructor` | pallets/crl/src/lib.rs:163-175 | empty storage |
| `CrlPallet.Pallet.RegisterCa` | pallets/crl/src/lib.rs:324-368 | storage and error of the specification; keeps the bookkeeping |
| `CrlPallet.Pallet.UnregisterCa` | pallets/crl/src/lib.rs:380-401 | same; the cleared entries come back when the authority is unknown |
| `CrlPallet.Pallet.Retain` | pallets/crl/src/lib.rs:261-264 | the filter loop keeps exactly the other issuers, in order |
| `CrlPallet.Pallet.MergeRevoked` | pallets/crl/src/lib.rs:256-287 | the push loop stops at the first entry that does not fit |
| `CrlPallet.Pallet.UpdateCrl` | pallets/crl/src/lib.rs:431-531 | same; the merged entries are rolled back when there are too many issuers |
| `CrlPallet.Pallet.GetCrl` | pallets/crl/src/lib.rs:289-305 | entries exactly for registered authorities: as many as recorded, each of an issuer with a recorded version, and at least one for every recorded version |
| `Eip191.HashMessage` | pallets/token-claim/src/beneficiary.rs:93-100 | the digest is of a buffer laid out as EIP-191 says: prefix, length as a numeral without superfluous zeros, message |
| `Eip191.FramedExactly` | pallets/token-claim/src/beneficiary.rs:93-100 | there is exactly one such buffer for every message |
| `Eip191.PrefixBytes` | pallets/token-claim/src/beneficiary.rs:96-97 | the 26 bytes of the prefix: 0x19, the version byte 0x45 and the rest of the text |
| `Eip191.FrameStart` | pallets/token-claim/src/beneficiary.rs:93-100 | a buffer starts with the prefix and ends with the message |
| `Eip191.FrameGrows` | pallets/token-claim/src/beneficiary.rs:93-100 | frames are longer exactly for longer messages |
| `Eip191.FrameInjective` | pallets/token-claim/src/beneficiary.rs:93-100 | different messages have different frames, although the length field is not delimited |
| `Eip191.PayloadInjective` | pallets/token-claim/src/beneficiary.rs:133-142 | for a fixed claim and separator the frame determines the literal of the destination |
| `Eip191.ClaimBound` | pallets/token-claim/src/beneficiary.rs:134-142 | for a fixed separator and destination the frame determines the claim |
| `Eip191.VerifyExactly` | pallets/token-claim/src/beneficiary.rs:114-145 | a Substrate signature counts exactly over the claim or the claim wrapped once, an Ethereum one exactly if the beneficiary is recovered from the framed claim, separator and destination, no other combination |
| `Eip191.TwiceWrapped` | pallets/token-claim/src/beneficiary.rs:121-123 | a claim wrapped twice is neither |
| `Eip191.DestinationsDiffer` | pallets/token-claim/src/beneficiary.rs:131-144 | two destinations never share a frame, and share a digest exactly if the hash collides on the two frames |
| `Eip191.DestinationBound` | pallets/token-claim/src/beneficiary.rs:114-145 | a signature that recovers to the beneficiary from one digest only is accepted for one destination only, unless the hash collides |
| `ClaimScript.ParseAmount` | scripts/claim/claim_init.js:52-62 | the three string loops compute the specified numeral, for any string |
| `ClaimScript.UnitsExact` | scripts/claim/claim_init.js:52-62 | a decimal amount becomes exactly 10^18 times as many base units if and only if it has at most 18 fractional digits or is zero |
| `ClaimScript.TooManyDigits` | scripts/claim/claim_init.js:55-56 | one token with nineteen fractional digits is read as ten tokens |
| `ClaimScript.SignedUnits` | scripts/claim/claim_init.js:52-62 | a sign in front of a decimal is carried over |
| `ClaimScript.ReadableExactly` | scripts/claim/claim_init.js:52-80 | which amounts can be read at all |
| `ClaimScript.ReadRow` | scripts/claim/claim_init.js:70-95 | what is wrong with a row, case by case, or the one entry it makes: its address, Ethereum exactly if that starts with 0x, and its amount; none for zero |
| `ClaimScript.ReadAirdrop` | scripts/claim/claim_init.js:64-105 | the batches flatten to exactly one entry for every non-zero row, in the order of the rows, each with that row's address, kind and amount; all batches are full but the last, which is not; the first fault wins |
| `ClaimScript.PayingIs` | scripts/claim/claim_init.js:70-80 | the list of those rows is strictly increasing and complete |
| `ClaimScript.GoodRowPays` | scripts/claim/claim_init.js:52-92 | a decimal row of at most 18 fractional digits makes a beneficiary exactly if its amount is not zero, of exactly 10^18 times the amount |
| `ClaimScript.RequiredBalance` | scripts/claim/claim_init.js:265-270 | existential deposit plus the sum over all batches |
| `ClaimScript.TotalIsExact` | scripts/claim/claim_init.js:64-105 | the entries of rows with at most 18 fractional digits are worth exactly 10^18 times the tokens promised |
| `ClaimScript.CampaignBalance` | scripts/claim/claim_init.js:64-270 | from rows to the balance check, for every batch size: exactly 10^18 times the tokens promised plus 0.01 |

## Left out

- Balances, holds, considerations and origins of the FRAME libraries: the ledger is a multiset of free and held units, and what it grants is an argument of each call.
- What the debug assertions of a checked build say about code outside the pallet, such as that giving back a ticket succeeds.
- Weights, fee estimation and post-dispatch refunds: they do not touch storage; the estimate is an argument.
- Event data not named in the properties, and logging.
- Revocation list and certificate parsing, X.509 validation, Keccak, Blake2, ECDSA recovery and the Substrate signature schemes: arguments or arbitrary functions. The parser is taken to return lists with one issuer, as the pallet itself assumes.
- AggregatePallet.DomainCell: a domain record is a value inside the cell; the storage map holds values, as the chain's storage does, so aliasing between two open records is not modelled.
- AggregateSafety.RoundingBounds: stated for fees that do not change while the aggregation is open, since statements of one aggregation accepted under different fees need not add up to either.
- Merkle.AcceptedLeafWasAggregated: membership only. The verifier checks neither the length of the path nor the range of the index, so it does not bind a position.
- CrlConvergence.DeliveriesConverge, CrlOrder.RoomyDeliveriesConverge: lists of one issuer with the same version are taken to be the same list; the pallet has no other way to tell them apart.
- ClaimScript.ParseAmount: blanks around a number, which JavaScript ignores, are an error in the model of `BigInt`.
- The duplicate address test of the claim script: its keys are fresh objects, so it never applies.
- The token claim pallet's campaigns, the verifiers pallet, consensus, the node, the runtimes, migrations and benchmarks.
- The rest of the claim script: files, network, multisig approvals.
