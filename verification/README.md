# Sponsored broadcasts: a model of the gateway's paid-order protocol

The gateway takes a signed transaction, makes sure its owner has the ENERGY it needs (from a paid
external provider, or by delegating the operator's own stake), sends the transaction upstream once,
and settles one unit of the owner's quota for it. Every step of that is a database write that can
fail, or can commit and still be reported as failed; the process can stop between any two of them.
This project states what the gateway promises about money and broadcasts under all of that, and
proves it for every finite run.

## How it is laid out

| files | what they hold |
|---|---|
| `Schema`, `GatewayRepository`, `ProviderRepository` | the tables, and what each repository operation does to them as a value |
| `Store` | the same operations as methods of a class whose fields are the tables, each proved to take the tables where the value-level operation takes them; `Execute` carries out any write of the event machine on it |
| `Gateway` | the event machine: handlers (one program counter per await point of `sponsorAndForward`, `prepare`, `rentExternalEnergy` and `orderEnergy`, with the local flags of the source and the mutex of `prepare`), the confirmation worker, administrators, crashes and restarts. An event is one atomic database write with one of three fates (acknowledged, not applied, applied but unacknowledged), one answer of the outside world, or a crash. `Run` folds any finite sequence of events; `Reachable` is every state so obtained |
| `TxInvariant`, `WriteLemmas`, `HandlerLemmas`, `SenseLemmas`, `StepLemmas` | the invariant of one transaction and of the handler at work on it, and that every write, reading, call, answer and broadcast keeps it |
| `Invariant`, `Quota`, `Usage`, `Budget`, `Claims`, `History` | that every event keeps the invariants of the whole state: transactions and handlers, reserved units, used units and limits, daily budgets, address claims, and the append-only history |
| `Prepare` | what goes on inside `prepare`: one handler at a time, which always knows how its order stands |
| `Conduct`, `Records` | what a handler's place says about what it was told, bought and reserved, and what a transaction's rows say about its history, kept by every event |
| `Safety` | the promises about money and broadcasts |
| `Outcomes`, `Admission` | that what upstream, a provider, the account or a restart answered is what is recorded, how each failure ends, and who gets in, takes the claim, is given a unit and is granted an attempt |
| `Refunds`, `Continuations`, `LostClaim`, `Counterexamples` | exactly when two documented promises fail: what each step of an order does with the unit, what can still happen from a reachable state, when a claim is lost and what that leads to, and the runs themselves |
| `BudgetStatus`, `Leases`, `EnergyPackages`, `ResourceMath`, `Pricing`, `MachineNumbers`, `Framing`, `Totals` | the budget report, the life of a resource lease, package choice, resource arithmetic, exact decimal pricing, rounding to machine numbers, the protobuf scanner and gRPC frame, and finite sums |

A run also records what happened outside the tables: each `rentEnergy` call with its answer, each
broadcast with the last resource reading before it and the reply to it, each reading taken while a delivery was
awaited, each settlement of a unit. These records
steer nothing; they are what the promises are about. "May have been charged" always means that a call was accepted,
was left unclear, or is still out; it never means that an order row is open.

## What is assumed

- One process. Handlers interleave freely, except that one at a time is inside `prepare`; which of those
  waiting for the mutex goes next is left open.
- A repository operation is one atomic step. The source takes an advisory lock or row locks for this.
- The recovery query selects a request only when no handler is at work on it (the source waits until
  the row has been idle for two minutes, `src/repository.ts:917`).
- The configuration is fixed during a run. Per-address limits, provider limits and provider rows may
  change at any time; the global limits may not.
- A transaction id determines its owner and contract type, as the hash of the signed data does.
- Each undelegation is a transaction of its own, receipts never change once they are there, and an
  active lease is scheduled for release only after the handler that delegated it has left `delegate`.

## Where the documentation and the code differ

- `docs/architecture.md:44` says a unit goes back only when every provider has rejected. The code also
  gives it back when `startAttempt` or `markRejected` fails as a write: the order row may then still
  read ORDERING although no provider can have charged. `UnitReturnedWhileOrdering` is such a run, and
  `MayReturnUnitWhileOrdering` finds one from every state in which a handler can get to an attempt.
  `UnitGoesBackIff` says exactly which steps of an order give the unit back, and that this happens if and
  only if every call made was explicitly rejected; `OrderLeftOpenIff` says exactly when the order is then
  still open.
- `docs/architecture.md:41` says that an address never has two transactions in flight. That fails in
  one situation. A handler that is refused the claim discards its request row; if that discard commits
  but is reported as failed, the handler later marks the row of the same transaction as FAILED. If the
  transaction has been submitted again meanwhile, that row belongs to a handler that holds the claim,
  and the clean-up of finished requests then takes the claim away from it. `TwoOrdersAtOnce` is such a
  run, and it ends with two orders that may both have been charged. `OneOrderPerAddress` proves the
  promise for every address whose claim the clean-up never took from a handler still preparing, and
  `OnlyLateWritesStrip` that nothing but such a late write leads there. `LateWriteLosesClaimIff` says of
  each late write exactly when the next clean-up drops the claim (the guard of the clean-up query), and
  `LateWriteBreaksPromiseIff` that, for a handler that can still buy, this is exactly when two orders can
  follow.
- A late write of that kind can also fall on a transaction that has been paid for by then, and mark it FAILED
  although "paid resource preparation cannot be cached as failed" (`src/broadcast-processor.ts:271`).
  `PaidIsLeftForRecovery` holds for every transaction no late handler wrote to.
- `src/grpc/framing.ts:35` turns field numbers into machine numbers, which rounds from 2^53 on. A field
  numbered 2^53 + 1 is then taken for field 2^53. `ExtractionIsExactIff` gives the targets for which
  extraction is exact, all those below 2^53 among them; the program asks for fields 1 and 2 only.

## Model

| member | source | states |
|---|---|---|
| Safety.ChargedUnitIsNeverReleased | src/broadcast-processor.ts:137-147 | in every reachable state of the validated paid configuration, a transaction with a call that may have been charged has had exactly one unit reserved, none given back and at most one consumed; unless consumed, the unit is still held in a state the recovery query selects |
| Safety.UsedUnitHasCause | src/resource-service.ts:390-401 | a unit is counted as used only if a call may have been charged, the order stands as billable, or the broadcast was accepted |
| Safety.UnitsAreConserved | src/repository.ts:668-701 | reservations equal settlements plus what is still held, and a held unit is always where recovery looks |
| Safety.ReservedCountsHeldUnits | src/repository.ts:680-687 | the reserved counter of an address is the number of its requests that hold a unit, so the clamp at zero never takes effect |
| Safety.UsedCountsConsumedUnits | src/repository.ts:756-766 | the used counter plus what resets have cleared is the total of consumed units over all transactions of the address |
| Safety.RecoverySettles | src/workers.ts:32-60 | recovery takes exactly its request out of the unsettled ones, strictly reducing them, and counts the unit as used whenever a call may have been charged |
| Safety.LimitIsKept | src/repository.ts:627-637 | with provider-sourced energy, used plus reserved never exceeds the largest limit in force since the last reset |
| Safety.ResetOnlyWhenIdle | src/repository.ts:329-362 | a reset succeeds if and only if the address is bound and has no held unit, no claim and no open order |
| Safety.EachProviderIsCalledOnce | src/providers/service.ts:122-205 | no provider is called twice for a transaction, and all calls but the last were explicitly rejected |
| Safety.CallsCoverShortfall | src/resource-service.ts:253-260 | without owner burn, every call asks for at least the energy that was missing as last read before ordering |
| Safety.DailyLimitsBoundCharges | src/providers/repository.ts:442-470 | for every UTC day, the calls that may have been charged number at most the global order limit and add up to at most the global energy limit, crash points included |
| Safety.OrdersAgreeWithLedger | src/providers/repository.ts:472-513 | each order state fixes its budget rows: none for PENDING, only released ones for REJECTED, one reserved row of the right provider and amount for ORDERING, one charged row for ACCEPTED, FULFILLED and UNKNOWN, all others released |
| Safety.TransitionIsWhole | src/providers/repository.ts:709-737 | closing an attempt succeeds exactly when the order half applies; the ledger half never fails after it |
| Safety.SentAtMostOnce | src/broadcast-processor.ts:172-197 | a transaction is sent upstream at most once over duplicates, crashes and restarts, and its unit is not released between the attempt and a recorded outcome (which one is recorded: OutcomeIsUpstreams) |
| Safety.NoUnpreparedContractCall | src/broadcast-processor.ts:75-90 | with owner burn disabled no smart-contract call is relayed, and each one sent had a last reading of at least the safe requirement |
| History.NoCallAfterAcceptance | src/providers/service.ts:170-204 | once a call was accepted or left unclear, no continuation of the run makes another call for the transaction |
| History.NoCallAfterInterruption | src/providers/repository.ts:626-656 | a call that may have been charged and that nobody waits for any more, a crash included, is the last one: no continuation makes another call for the transaction or changes an answer |
| History.ConsumedStaysConsumed | src/broadcast-processor.ts:198-210 | a consumed unit stays consumed and is never given back in any continuation |
| History.NeverSentAgain | src/repository.ts:364-402 | after one broadcast no continuation sends the transaction again |
| History.RunGrows | src/providers/service.ts:163-192 | calls, answers, broadcasts and settlements of a run are never undone by what follows |
| Claims.OneOrderPerAddress | src/repository.ts:404-418 | an address whose claim the clean-up never took from a handler still preparing has at most one order in ORDERING, ACCEPTED or UNKNOWN, and exactly that transaction holds the claim |
| Claims.RunClaims | src/repository.ts:420-473 | after every run, and away from stripped addresses, every open order and every handler past its claim still holds the claim, whatever releases, clean-ups, finality and expiry have done |
| Claims.ConcludeFrame | src/repository.ts:1004-1058 | finality and expiry of a transaction leave the claims and requests of all others, and never take the claim of an open order |
| Claims.OnlyLateWritesStrip | src/broadcast-processor.ts:115-122 | a claim is lost only at an address with a transaction that a late handler wrote to while it was being prepared |
| LostClaim.LateWriteLosesClaimIff | src/repository.ts:452-473 | after a late handler's failure write and a clean-up, the claim of a handler preparing the same transaction is still held if and only if the request does not read as finished, or its order is open, or it has an open lease |
| LostClaim.LostClaimAllowsTwoOrders | src/broadcast-processor.ts:111-122 | once the claim of a handler that can still buy is gone, some further run opens two orders of the address, both of which may have been charged, for every state with such a handler, a package on sale and room for two orders in the day's budget |
| LostClaim.LateWriteBreaksPromiseIff | src/broadcast-processor.ts:275-288 | for such a handler, two open orders of the address can follow, without another lost claim, if and only if the late write leaves the request reading as finished and no lease keeps the claim |
| Counterexamples.TwoOrdersAtOnce | src/broadcast-processor.ts:115-122 | a concrete run of the validated paid configuration ends with two open orders for one address, with a possibly charged call each |
| Prepare.OneHandlerInPrepare | src/resource-service.ts:88-112 | at any time at most one handler is inside prepare |
| Prepare.OrderStandsAsKnown | src/providers/service.ts:100-219 | a handler's place in orderEnergy fixes its order: none before beginOrder, unsold while it goes through providers, ORDERING with its provider until an outcome is recorded, and a possibly charged call from the call on |
| Continuations.CanLeave | src/resource-service.ts:92-112 | whoever is inside prepare can leave it, in finitely many steps and without another write being carried out |
| Continuations.Buys | src/providers/service.ts:122-170 | a handler on its way to an attempt can get to its call whenever a package is on sale and the budgets have room, and no other transaction is touched on the way |
| Refunds.UnitGoesBackIff | src/broadcast-processor.ts:198-256 | a step of orderEnergy sends the unit back exactly when it is one of the listed ways to give the order up; when the order ends, the unit goes back if and only if every call was explicitly rejected, and is consumed if and only if one may have been charged |
| Refunds.OrderLeftOpenIff | src/providers/service.ts:136-187 | a unit that goes back leaves its order open exactly after a markRejected that was not carried out or a startAttempt that was although it threw |
| Counterexamples.MayReturnUnitWhileOrdering | src/providers/service.ts:136-145 | from every state in which a handler can get to an attempt, some run gives the unit back with the order still open and no call that may be charged |
| Counterexamples.UnitReturnedWhileOrdering | src/broadcast-processor.ts:254-256 | a concrete run gives the unit back while the order reads ORDERING |
| Outcomes.OutcomeIsUpstreams | src/broadcast-processor.ts:172-191 | a handler about to record an outcome was given exactly that decision; carried out, the request reads UPSTREAM_ACCEPTED if and only if upstream accepted, the unit counts as used if and only if it accepted or the order is billable and is given back otherwise, and the claim is kept if and only if it accepted or an open order or lease keeps it |
| Outcomes.AnswerIsRecorded | src/providers/service.ts:163-204 | carried out, a yes makes the order ACCEPTED and charges its row, an explicit no makes it REJECTED and releases the row, and anything else makes it UNKNOWN and charges the row |
| Outcomes.OrderIsDeserved | src/resource-service.ts:432-472 | in every reachable state an ACCEPTED or FULFILLED order has a yes of its provider to the last call, and a FULFILLED one, without owner burn, a reading after it that reached the requirement |
| Outcomes.DeliveryIsJudged | src/resource-service.ts:438-476 | a delivery poll ends the wait as delivered exactly when it reaches the safe requirement, and the deadline ends it as failed |
| Outcomes.DeliveryIsRecorded | src/resource-service.ts:457-493 | carried out, a delivery makes the accepted order FULFILLED and goes on to the last check; a timeout makes it UNKNOWN, which blocks its address, and ends without a broadcast |
| Outcomes.RestartLeavesUnknown | src/providers/repository.ts:626-656 | a start makes exactly the ORDERING orders UNKNOWN, of the same provider and amount, charges their reserved rows, and changes nothing else; what was open before is open after |
| Outcomes.RestartLeavesNothingOpen | src/providers/repository.ts:626-656 | after a start no order reads ORDERING and no budget row is reserved |
| Outcomes.PaidIsLeftForRecovery | src/broadcast-processor.ts:262-274 | a transaction with a possibly charged call and no outcome is uncached and in a state the recovery query selects, unless a late handler wrote to it |
| Outcomes.NoPaidFailure | src/broadcast-processor.ts:254-296 | no handler gives back the unit, drops the claim or caches a failure of a transaction with a possibly charged call |
| Outcomes.PaidFailureEndsReady | src/broadcast-processor.ts:198-274 | the catch block of such a transaction consumes the unit and then writes RESOURCE_READY, whatever becomes of either write |
| Outcomes.UnitIsReturned | src/broadcast-processor.ts:254-256 | any other failure gives the unit back first, and goes on to the claim if it has one |
| Outcomes.ClaimIsGivenUp | src/broadcast-processor.ts:257-262 | then it gives up the claim, unless an open order or a lease keeps it |
| Outcomes.FailureIsCached | src/broadcast-processor.ts:275-290 | and last it caches the failure, with no claim left |
| Outcomes.StatesAreEarned | src/repository.ts:768-786 | a request reads UPSTREAM_ACCEPTED, SOLIDIFIED or EXPIRED only after a recorded acceptance, UPSTREAM_REJECTED only after a recorded rejection |
| Outcomes.RequestShowsProgress | src/broadcast-processor.ts:104-170 | under a live handler the request state is fixed by how far it has got, with nothing cached |
| Outcomes.RequirementIsSafe | src/resource-service.ts:58-86 | the requirement a handler works with is the least integer not below estimate * bps / 10000, and its order is for the estimate and a positive shortfall within it |
| Outcomes.OrderIsForShortfall | src/resource-service.ts:219-260 | nothing is ordered when the account has enough, and otherwise an order is for exactly what is missing |
| Outcomes.LastReadingDecides | src/resource-service.ts:529-569 | the reading before the broadcast lets a transaction pass exactly when it reaches the requirement; otherwise a paid one has its unit consumed and an unpaid one gets it back |
| Outcomes.LifetimeStopsUnpaid | src/broadcast-processor.ts:149-166 | a transaction too close to expiry is stopped and its unit goes back, unless it was paid for |
| Outcomes.InsufficientIsForwarded | src/broadcast-processor.ts:211-222 | under the forward policy a transaction without pool resources is sent unprepared with its unit in hand, if its energy is not guarded |
| Outcomes.UnsoldOrderIsRejected | src/providers/repository.ts:561-581 | an order nobody could be given to ends as REJECTED |
| Outcomes.RecoveryIsRecorded | src/workers.ts:32-60 | recovery records of a listed request what its handler would have, and an error ends the iteration |
| Outcomes.ConclusionIsRecorded | src/workers.ts:61-72 | only accepted and settled transactions are concluded, as what was seen, and their claim goes unless an open order or lease keeps it |
| Outcomes.SweepDropsFinished | src/repository.ts:452-473 | the clean-up drops exactly the claims of finished requests without an open order or lease |
| Outcomes.StaleIsUnsettled | src/repository.ts:902-919 | recovery selects the requests that are neither finished nor accepted, and failed ones that hold a unit |
| Admission.OnlyAdmittedEnter | src/broadcast-processor.ts:38-95 | a request row is only ever inserted for a well-formed, permitted, sponsored call of an address that is bound, enabled and not expired where binding is asked for |
| Admission.AdmittedEnters | src/repository.ts:364-402 | and it is, reading RECEIVED without a unit, when the gateway is up and the transaction is new |
| Admission.PassedThroughIff | src/broadcast-processor.ts:75-91 | exactly what is unsponsored, or not permitted where policy lets it pass, is passed through, never a guarded call that should have been prepared |
| Admission.ClaimIsGrantedIff | src/repository.ts:404-418 | the claim of an address is taken exactly when nobody holds it and no order of the address is open; otherwise the request goes on to be discarded |
| Admission.RefusedIsForgotten | src/repository.ts:439-450 | carried out, the discard of a refused request removes its row |
| Admission.UnitsAreForUsable | src/repository.ts:623-637 | in every step of every run a unit is reserved only for an address that is enabled, not expired and within its limit, a finite one in provider mode |
| Admission.UnitIsGivenIff | src/repository.ts:610-658 | and a handler at its reservation is given the unit exactly then |
| Admission.UnitRefusalEnds | src/broadcast-processor.ts:130-135 | refused a unit, a handler gives up its claim and caches REJECTED |
| Admission.AttemptsAreAllowed | src/providers/repository.ts:413-488 | in every step a budget row is opened only with a provider enabled at that moment, not tried before, for an unsold order, within all caps and budgets |
| Admission.OrderIsOpened | src/providers/repository.ts:365-387 | a new order goes to the owner, is for the estimate, and is PENDING with no provider |
| Admission.ProvidersAreOfferedInOrder | src/providers/service.ts:113-131 | enabled providers are tried in the order of their priorities, each for the package of its own adapter |
| Admission.FirstOfferIsTried | src/providers/service.ts:122-137 | the first provider with a package is the next one tried, for that package |
| Admission.RejectionTriesNext | src/providers/service.ts:182-188 | after an explicit rejection the handler goes on with the providers that are left |
| Admission.RefusedAttemptTriesNext | src/providers/service.ts:147-153 | an attempt that is not granted is skipped, and changes nothing |
| Admission.UnreadableKeyTriesNext | src/providers/service.ts:138-146 | a provider whose key does not decrypt is rejected without a call, and the next one is tried |
| Admission.BindingSettings | src/repository.ts:287-319 | setting a binding changes what was given and keeps the rest and the counters; a new one starts at zero |
| Admission.ResetSettings | src/repository.ts:329-362 | a reset that is allowed clears the used counter and sets the given limit only |
| Conduct.WriteConducts | src/broadcast-processor.ts:104-296 | a handler's write leaves its rows and its next place in agreement with what it was told, whether acknowledged, lost or thrown |
| Conduct.SenseConducts | src/resource-service.ts:185-493 | so does every reading, answer and broadcast |
| Records.RunRecords | src/broadcast-processor.ts:93-297 | after every run the rows of each transaction agree with its history, and each live handler's place with what it was told, holds and has planned |
| Invariant.RunInv | src/broadcast-processor.ts:93-297 | transactions, handlers and workers keep their invariants along every run |
| Quota.RunQuota | src/repository.ts:610-658 | reserved counters and peak limits are kept along every run |
| Usage.RunUsage | src/repository.ts:731-766 | the used counters are kept in step with the history along every run |
| Budget.RunBudget | src/providers/repository.ts:626-656 | the daily limits hold of the ledger along every run, recovery of interrupted orders included |
| WriteLemmas.WriteKeepsTx | src/providers/repository.ts:680-763 | any write its issuer may make keeps the transaction invariant |
| WriteLemmas.ChargedIsBillable | src/repository.ts:744-756 | an order whose provider may have charged is one that settles as used |
| SenseLemmas.SenseOk | src/resource-service.ts:438-493 | readings, quotes, calls, answers and the broadcast keep the invariants |
| SenseLemmas.MadeCallKeepsTx | src/providers/service.ts:135-170 | a call is made only under its own reserved budget row, to a provider not called before, for an amount that covers the shortfall |
| SenseLemmas.ForwardKeepsTx | src/resource-service.ts:529-569 | a broadcast goes out only on a sufficient reading and only once |
| BudgetStatus.LinesAddUp | src/providers/repository.ts:159-170 | the per-provider lines of the report add up to the usage of the whole ledger |
| BudgetStatus.ReportForetellsAdmission | src/providers/repository.ts:171-182 | in every reachable state an attempt passes the global and provider checks exactly when the report shows at least one order and the amount remaining on both lines, within the per-order caps |
| BudgetStatus.UsedIsInUse | src/providers/repository.ts:784-813 | the used figures are the rows the admission check counts |
| BudgetStatus.EachRowCounts | src/providers/repository.ts:784-813 | every row of the day counts once, in the figures of its state, and an empty ledger counts nothing |
| Leases.NoOverlappingUndelegation | src/resource-service.ts:115-163 | an undelegation is handed to the node only if every other one was never handed over, was seen to fail, or stayed unobserved past three minutes |
| Leases.HandedNeverFails | src/resource-service.ts:630-663 | a lease whose delegation was handed to the node is never marked FAILED |
| Leases.ReleasedIsUndelegated | src/workers.ts:80-106 | a lease is marked RELEASED only if the undelegation it names succeeded on the chain |
| Leases.OnlyDelegatedIsUndone | src/resource-service.ts:117-130 | an undelegation is built only after the delegation was seen to succeed, if the row holds one |
| Leases.AbandonedIsOverdue | src/resource-service.ts:119-129 | a lease is given up as not delegated only if its delegation failed or stayed unseen for ten minutes |
| Leases.ActiveIsDelegated | src/resource-service.ts:642-655 | a lease is ACTIVE only if its delegation succeeded on the chain |
| Leases.ReconciliationDecides | src/workers.ts:80-94 | carried out, reconciliation makes a lease RELEASED exactly when its undelegation succeeded, ready for another try when it failed or stayed unobserved past three minutes, and otherwise leaves it |
| EnergyPackages.ResolveEnergyAmount | src/providers/service.ts:236-246 | a resolved amount reaches the minimum that was asked for; it is the adapter's own package whenever that one does, and an upgrade only where the adapter has one to offer |
| EnergyPackages.QuoteMinimumEnergyAmount | src/providers/service.ts:32-49 | the quote is the least compatible package over the listed providers within their caps, or none if there is none |
| EnergyPackages.QuoteIsUnique | src/providers/service.ts:39-48 | the meaning of a quote fixes it, and it covers its minimum |
| EnergyPackages.KuaizuOrdersLeastPackage | src/providers/kuaizu.ts:85-98 | Kuaizu is asked for the least package on sale that reaches the minimum, stable under asking again |
| ResourceMath.DivideRoundUp | src/resource-math.ts:95-97 | the quotient is the least integer whose product reaches the numerator |
| ResourceMath.AvailableIsWhatFits | src/resource-math.ts:20-28 | an amount is available exactly when it fits under a limit together with what is used; bandwidth limits are not added up |
| ResourceMath.StakeIsLeast | src/resource-math.ts:60-74 | the stake is the least one at or above the minimum whose delegation covers the deficit |
| ResourceMath.DelegationReachesSafeEstimate | src/resource-service.ts:165-183 | available plus delegated reaches the safe requirement, itself the least amount not below the scaled estimate |
| ResourceMath.PlanIsWorstCase | src/resource-math.ts:30-54 | the planned bandwidth charge is the worst case over the pool state the node does not report, and attained |
| Pricing.CostIsExact | src/providers/service.ts:278-285 | a cost is printed exactly for positive well-formed prices, and is worth price * energy / 10^6 to the last digit, without superfluous zeros |
| Pricing.FormatIsExact | src/providers/service.ts:287-293 | a printed decimal is canonical and worth value / 10^scale |
| Pricing.FormatInvertsReading | src/providers/service.ts:287-293 | printing what a canonical decimal is worth gives that decimal back |
| Pricing.ReadInvertsWritten | src/providers/service.ts:279-281 | a price is read exactly when it is one to twenty digits and possibly a point and one to eighteen more, and as those digits |
| Framing.ReadVarint | src/grpc/framing.ts:60-73 | the loop reads the varint at an offset, or none if there is no varint of at most ten bytes |
| Framing.VarintKeepsSeventyBits | src/grpc/framing.ts:60-73 | all seventy bits of a ten-byte varint are kept |
| Framing.SkipWireValue | src/grpc/framing.ts:75-86 | the offset moves past exactly the value of the wire type; any other wire type, the length-delimited one included, is an error |
| MachineNumbers.StandsForOneIff | src/grpc/framing.ts:35 | the machine numbers only one integer rounds to are exactly those below 2^53 and the odd multiples of two below 2^54 |
| Framing.ExtractLengthDelimitedField | src/grpc/framing.ts:29-58 | the loop returns the only payload whose field number reads as the target in the only reading of the message, or nothing |
| Framing.ParseIsReading | src/grpc/framing.ts:32-55 | a message has at most one reading as well-formed fields, and parsing finds it |
| Framing.ExtractsExactly | src/grpc/framing.ts:41-57 | a payload is returned if and only if the bytes are a concatenation of well-formed fields with exactly that one payload under a number that reads as the target |
| Framing.ExtractInvertsEncode | src/grpc/framing.ts:29-58 | extraction undoes the varint-based encoding of any list of fields, for every target no other number rounds to |
| Framing.RoundingMisleads | src/grpc/framing.ts:35-50 | for every other target a message with a single field of another number has its payload returned |
| Framing.ExtractionIsExactIff | src/grpc/framing.ts:29-58 | so extraction undoes encoding for all messages if and only if no other number rounds to the target |
| Framing.EncodeUnaryGrpcFrame | src/grpc/framing.ts:21-27 | the filled buffer is the frame of the payload; a payload too long for the length field is an error |
| Framing.DecodeInvertsEncode | src/grpc/framing.ts:6-19 | a body decodes exactly when it is the encoding of a frame, and to that frame |
| Store.Usage | src/providers/repository.ts:442-461 | the loop computes the day's orders and energy in use |
| Store.Store.Execute | src/repository.ts:364-819 | carried out on the mutable tables, any write of the machine has the effect and reply it has there, and a write its issuer may make keeps the invariant of its transaction |
| Store.Store.ReleaseTerminalAddressClaims | src/repository.ts:452-473 | drops the claims of finished requests, and counts them |
| Store.Store.ReserveQuota | src/repository.ts:610-658 | reserves a unit exactly for a bound, enabled, unexpired address within its limit, a finite one where that is required |
| Store.Store.RecordBroadcastOutcome | src/repository.ts:731-819 | settles the unit by the outcome and the order, records the answer, and drops the claim of a rejected broadcast |
| Store.Store.UpsertBinding | src/repository.ts:287-319 | creates a binding or changes what was given |
| Store.Store.StartAttempt | src/providers/repository.ts:389-513 | reserves a budget row and enters ORDERING, or changes nothing |
| Store.Store.TransitionAttempt | src/providers/repository.ts:709-737 | moves order and budget row together, or neither |
| Store.Store.RecoverInterruptedOrders | src/providers/repository.ts:626-656 | makes exactly the ORDERING orders UNKNOWN, of the same provider and amount, charges their rows, and counts them |

## Left out

- Transport: HTTP/2 proxying, admin routes, command line, web page, logging, migrations and service files hold no invariant of their own.
- Observe and passthrough modes: they forward without touching any table.
- Signature recovery, hashing, encryption and address codecs: transaction ids and addresses are abstract here.
- protobufjs decoding and canonical re-encoding: only the hand-written scanner is modelled; whether an arriving body is well formed, and whether policy permits it, are inputs of an event.
- Node and provider requests: their answers are inputs of events; fee, balance, permission, TAPOS and lifetime checks appear only as failures that may happen.
- SQL text and locking: each repository operation is one step.
- Paid energy together with owner burn: configuration refuses it, and the machine then takes any delivery reading as sufficient.
- Leases in the event machine: the machine knows only whether a transaction has an open lease; their life is modelled apart, and there on values, so updating the row in place is not captured.
- Lease liveness: a lease left in DELEGATING or RELEASING by a crash is not picked up by any worker, and nothing is claimed about it.
- Audit columns, receipt summaries, error texts and the account snapshot cache: they only display.
- Duplicate results of `orderEnergy` and claims refused by a constraint: they are modelled, and never come up in a reachable state (`OrderStandsAsKnown`, `ClaimIsGrantedIff`).
- Cached answers: that an answer was cached is modelled, its bytes are not, and nothing is claimed about it staying the same.
- Provider credentials: whether a stored key decrypts is an input.
- The limit of 256 events an order keeps, and the enabling switch of a binding as an operation apart: changing a binding covers the second.
- Safety.NoUnpreparedContractCall: is about sponsor mode, the mode that prepares energy.
- Leases.NoOverlappingUndelegation: the 30-second delay before a retry is not modelled, so releases may start at any time; the claim is the stronger for it.
- Framing.ExtractLengthDelimitedField: error messages are not told apart; any of them is the absence of a result.
