# HalfApp marketplace: a verified model

This project models the backend of the HalfApp ride marketplace and proves what it promises over all
runs. `dafny verify dfyconfig.toml` checks everything.

**The marketplace** is one state machine. A ride is created in the pool; in sequential mode the dispatch
cascade offers it to one driver at a time, nearest first, logging every offer and every driver passed
over; an offer that is declined or lapses moves on to the next driver until the attempt cap ends the
ride; a driver accepts, may hand the ride back, arrives, starts and completes it; the rider may cancel.
`Lifecycle` is the status table, `OfferLog` the offer log of one ride, `Marketplace` every handler as a
function on values, `MarketplaceService` the same handlers as a class whose methods write the tables
step by step and are proved equal to those functions. `MarketplaceInvariants` and `MarketplaceSteps`
prove the invariant for every request by anybody; `MarketplaceProperties` reads off what holds in every
reachable state and `MarketplaceHistory` what no later step takes back. `OfferOutcomes` says who is asked
next, until when and which offers are left alone, and `RequestOutcomes` which requests are granted, how the
others are refused and what each leaves, both on the columns of the tables alone. `ClaimRace` splits the claim into
its read and its conditional update and lets any number of claimants interleave; `EligibilityRace` does the
same for requests on different rides: the write of the driver's status row, the check of his eligibility and
the update are separate steps.

**Money** is in integer cents. `Pricing` computes fares and the commission split, `RidePricing` the stored
row that is quoted, finalized and locked, `Settlement` the settlement entries and the charge row.

**Ledger** has the two hash chains; **RefreshTokens**, **Idempotency**, **RateLimit** and **EventStreams** are
the four protocols beside the marketplace; **Dossier** is the event-sourced trip machine with its
double-entry ledger, which is off by default.

## How to read the model

- A ride carries its own offer-log rows and claim-event rows, because every query on those tables filters
  by ride. Presence, freshness of positions, distances, the clock and the profile guards of a claim are
  parameters of each request (`Env`, `now`); nothing is assumed about them but that the clock does not go
  back. The dispatch mode, the attempt cap (at least one), the offer timeout and whether payments are on are fixed
  in a run.
- Hash functions are parameters. Where a theorem needs them injective it says so; generated tokens are
  fresh.
- Kilometres, miles and times of day in the limiter are real numbers, so the conversion factor 0.621371
  is exact and rounding is rounding half to even of an exact product.

## Where the code differs from what it says, or may surprise

- Conservation of a fare needs the cancellation fee to equal the tolls reimbursed to the driver
  (`CustomerPaysEveryShareIff`): a cancellation fee is charged to the customer and credited to nobody. Both
  finalize paths pass zero for both, so locked rows do balance.
- `refresh_tokens.py` says that presenting a rotated token revokes the user's tokens. Expiry is tested
  first, so a rotated token presented after its own expiry revokes nothing (`ReuseRevokesEverythingIff`,
  `ExpiredReuseGoesUnnoticed`).
- The legacy ledger reads its last row from the database while the session does not flush by itself; it is
  the mirrored claim event that flushes. A record whose event carries an idempotency key already in use
  stores no event and flushes nothing, and the next record then chains to the same predecessor
  (`UsedKeyForks`). With the event types the table admits the entries are a chain unless such a record is
  followed by another before a flush (`ClaimEntriesChainIff`). No handler records with a key, so their entries
  always are one (`ClaimEntriesAlwaysChain`).
- A quoted fare that is kept at completion is split anew at the commission rate then in force, so a changed
  rate changes a quoted payout (`RateChangeMovesTheSplit`, `ChangedRateChangesAQuotedPayout`).
- That a driver cannot get two rides by accepting both at once does not come from the conditional update,
  which guards the ride's row alone, but from a write: an accept whose driver is present updates his status
  row before it reads his eligibility, and keeps that row until its commit, so his next accept waits there
  and then finds him on a ride (`NoDriverEverHasTwoRides`). `WithoutTheLockTwoRides` shows what would happen
  otherwise.
- An offer just started for a driver other than the one accepting is kept if the request carried an
  idempotency key, because the wrapper commits in its failure path, and lost otherwise.
- The description of the rider's cancel names only early statuses; the table also lets a ride be cancelled
  after the driver has arrived and while it is in progress. The model follows the table.
- In the dossier spine a reused idempotency key is answered as a success, but its events and its ledger
  entries are dropped while the driver's status changes all the same. `CompletionKeepsMatchingIff`,
  `DemandKeepsMatchingIff` and `DriverIsPaidIff` are the exact conditions; `ReusedKeyLosesAShare` and
  `ReusedKeyStrandsADriver` are runs.
- The completion request accepts a platform share of zero, which the ledger entries refuse with a server
  error (`BuiltIff`).
- A rate limit below one fails on the minimum of an empty list instead of denying
  (`FailsIffTheLimitIsNotPositive`).

## Model

| member | source | states |
|---|---|---|
| Lifecycle.ValidTransitionIsSomeAction | backend/services/lifecycle.py:125-155 | the transition check and the step by action describe the same relation, for every pair of statuses and role |
| Lifecycle.ActionIsUnique | backend/services/lifecycle.py:55-64 | the action behind a transition is determined by its two ends |
| Lifecycle.WalksAreShort | backend/services/lifecycle.py:55-64 | no walk by the table idles, goes back or has more than four steps; `offered` is never reached; terminal statuses are left by none |
| Lifecycle.ReleaseUndoesAccept | backend/services/lifecycle.py:158-163 | release is possible exactly from where a driver's accept leads, goes back to requested and is outside the table |
| Lifecycle.NextActionsAreTheDriversMoves | backend/services/lifecycle.py:166-175 | the actions offered are exactly the driver's legal ones on a ride already held |
| Lifecycle.RolesKeepToTheirMoves | backend/services/lifecycle.py:55-64 | who may take which action from which status, and which error the others get |
| Pricing.RoundHalfEven | backend/services/pricing_service.py:119 | the rounded amount is within half a cent and even on a tie |
| Pricing.FareTracksTheTariff | backend/services/pricing_service.py:107-134 | the fare in cents against the tariff over the reals: within half a cent under the demand multiplier, and less than one more cent below for the floor |
| Pricing.PartsTrackTheTariff | backend/services/pricing_service.py:114-134 | base, distance, time and wait are each their own part of the tariff, and the fare is at least the minimum |
| Pricing.CustomerPaysEveryShareIff | backend/services/pricing_service.py:137-215 | customer total equals driver plus platform plus pass-through if and only if the cancellation fee equals the reimbursed tolls |
| Pricing.CancellationFeeIsUnallocated | backend/services/pricing_service.py:160-182 | the input on which conservation fails: a cancellation fee nobody receives |
| Pricing.SplitBounds | backend/services/pricing_service.py:169-170 | both sides of the split are non-negative and rounding favours the driver by less than a cent |
| Pricing.FareMonotone | backend/services/pricing_service.py:107-134 | distance, duration and wait never lower the fare, through rounding, floor and minimum |
| Pricing.SplitMonotone | backend/services/pricing_service.py:169-170 | a bigger fare lowers neither the commission nor the payout |
| Pricing.LongerTripNeverPaysLess | backend/services/pricing_service.py:218-251 | driver pay, platform revenue and customer total never fall when a trip grows |
| Pricing.CommissionsAgainstTheTotal | backend/services/pricing_service.py:169 | over any n fares the summed commissions are at most the commission on the sum and miss it by at most n-1 cents |
| RidePricing.QuoteIsBalanced | backend/services/ride_pricing.py:59-85 | a quoted row is balanced: all shares non-negative and adding up to the customer total |
| RidePricing.FinalizedIsBalanced | backend/services/ride_pricing.py:88-174 | on both finalize paths, with any fees and tax, the row stays balanced |
| RidePricing.QuoteFillsTheColumns | backend/services/ride_pricing.py:26-85 | a quote names its policy and carries the parts of its fare and the policy's fees, each in its own column, and no lock |
| RidePricing.FinalizingFillsTheColumns | backend/services/ride_pricing.py:108-170 | a kept fare keeps the parts and names of its quote, a new one has the trip's and the policy's; the lock is set if and only if asked for |
| RidePricing.RateChangeMovesTheSplit | backend/services/ride_pricing.py:108-143 | for a quote by one policy and a completion by another the fare stands, the payout never rises and the commission never falls with the rate, and both are as quoted at the same rate |
| RidePricing.ChangedRateChangesAQuotedPayout | backend/services/ride_pricing.py:108-119 | 1000 cents quoted at 20 percent and completed at 30 pay the driver 700, not 800 |
| RidePricing.RidePricingRow.ApplyBreakdown | backend/services/ride_pricing.py:26-56 | every column written from a breakdown |
| RidePricing.RidePricingRow.AddTax | backend/services/ride_pricing.py:159-163 | tax raises pass-through and both customer totals |
| RidePricing.PricingTable.Quote | backend/services/ride_pricing.py:59-85 | stores the quoted row or refuses a locked one; no other ride's row changes |
| RidePricing.PricingTable.Finalize | backend/services/ride_pricing.py:88-174 | stores the finalized row or refuses a locked one; no other ride's row changes |
| Settlement.BuildEntrySpecs | backend/services/ride_settlement.py:135-158 | the five fixed entries, then the optional ones that are positive, in order |
| Settlement.EntryTypesAreDistinct | backend/services/ride_settlement.py:135-158 | no entry type occurs twice |
| Settlement.PayableTotalOfSpecs | backend/services/ride_settlement.py:135-158 | the payables add up to driver, commission, service fee, tip and liabilities |
| Settlement.EntriesCarryTheRow | backend/services/ride_settlement.py:114-158 | each kind of entry books its own column of a balanced row and is due to its own party |
| Settlement.GeneratingAnswers | backend/services/ride_settlement.py:161-184 | entries already there are returned whatever the ride's status; else only a completed ride with a locked price gets them |
| Settlement.ChargingAnswers | backend/services/payment_execution.py:55-89 | a charge needs a locked price, is made once and is of the customer's total |
| Settlement.BalancedRowSettles | backend/services/ride_settlement.py:114-158 | for a balanced row the customer charge equals all payables, the revenue entry commission plus service fee |
| Settlement.ChargeEqualsPayablesIff | backend/services/ride_settlement.py:114-132 | without the cap on the rate the charge equals the payables if and only if fare times rate stays below (fare + 1 cent) times 10000 |
| Settlement.DoubleCommissionDoesNotSettle | backend/services/ride_settlement.py:114-132 | 100 cents at 20000 basis points is an input where it does not |
| Settlement.SettlementTable.Generate | backend/services/ride_settlement.py:161-234 | returns stored entries as they are, else appends the built ones; refuses a ride not completed or not locked; leaves other rides alone |
| OfferLog.Nearest | backend/services/ride_dispatch_cascade.py:55-65 | the candidate chosen is at least as near as every other, ties broken by id, unknown distances last |
| OfferLog.EligibleAmong | backend/services/ride_dispatch_cascade.py:68-106 | exactly the active drivers not ruled out by an earlier offer and not passed over |
| OfferLog.PassedOverForAReason | backend/services/ride_dispatch_cascade.py:86-105 | exactly the untried drivers who are not available, busy or not present are passed over, with the first reason that applies |
| OfferLog.CloseOfOffers | backend/services/ride_dispatch_cascade.py:176-196 | closing the latest open row of the log closes it among the offers |
| OfferLog.CloseChangesTheLastOpenRow | backend/services/ride_dispatch_cascade.py:184-196 | closing changes the driver's last open row, in result and response time, and no other row of the log |
| OfferLog.CloseWithoutAnOpenRow | backend/services/ride_dispatch_cascade.py:184-196 | a log with no open row of the driver stays as it is |
| OfferLog.ScanKeepsOffers | backend/services/ride_dispatch_cascade.py:42-52 | logging the drivers passed over changes neither the offers nor who is eligible |
| MarketplaceInvariants.OfferNextKeeps | backend/services/ride_dispatch_cascade.py:134-173 | a new offer is numbered next, is the only open one and repeats only a driver who had accepted |
| MarketplaceInvariants.AdvanceKeeps | backend/services/ride_dispatch_cascade.py:176-214 | after a failed offer the log stays in order, whether the ride goes on or ends |
| MarketplaceInvariants.OpenOfferIsTheTarget | backend/services/ride_dispatch_cascade.py:269-287 | outside cancelled rides a driver with an open offer is the ride's target |
| OfferOutcomes.NextOfferGoesToTheNearest | backend/services/ride_dispatch_cascade.py:55-156 | the next offer goes to the nearest driver who may be asked, ties to the lower id and unknown distances last, until the timeout; to nobody only if nobody may be asked |
| OfferOutcomes.FirstOfferGoesToTheNearest | backend/services/ride_dispatch_cascade.py:159-173 | so it is when dispatch of a waiting ride starts |
| OfferOutcomes.OtherRidesAreNotOffered | backend/services/ride_dispatch_cascade.py:161-168 | in the open-board mode, out of the pool or under another offer, starting dispatch changes nothing |
| OfferOutcomes.CreatedRideIsOffered | backend/routes/rider_rides.py:87-150 | a new ride is the customer's, quoted, free of claims, and offered at once in sequential mode; the other rides stay |
| OfferOutcomes.DeclinedOfferGoesOn | backend/services/ride_dispatch_cascade.py:176-214 | after a declined offer the row says so, and the ride goes to the nearest driver left or is cancelled at the cap |
| OfferOutcomes.LapsedOfferGoesOn | backend/services/ride_dispatch_cascade.py:235-255 | so after an offer whose deadline has passed when the timeouts are processed, which the row says |
| OfferOutcomes.ExpiredOfferGoesOn | backend/services/ride_dispatch_cascade.py:295-304 | so when an offer is expired by hand, whatever its deadline |
| OfferOutcomes.OthersOutliveTheTimeouts | backend/services/ride_dispatch_cascade.py:238-248 | an offer whose deadline has not passed, a ride without one and a ride out of the pool come out of the timeouts unchanged |
| OfferOutcomes.RefreshOffersWaitingRides | backend/services/ride_dispatch_cascade.py:217-232 | a refresh keeps live offers, offers rides that wait without one to the nearest driver and moves lapsed ones on |
| RequestOutcomes.AcceptIsGrantedIff | backend/routes/drivers.py:1354-1489 | an accept is granted exactly when the ride is requested and free, the driver is approved, ready and on no ride, and the ride is for him; not-found and forbidden exactly when they should be |
| RequestOutcomes.GrantedAccept | backend/routes/drivers.py:1489-1652 | the ride becomes the driver's now, its offer is closed as taken, attempt and win are recorded, price and other rides stay |
| RequestOutcomes.RefusedAccept | backend/routes/drivers.py:1381-1487 | a refused accept records attempt and loss on a taken ride, keeps an offer just started if keyed, and otherwise changes nothing |
| RequestOutcomes.HandingBackIsGrantedIff | backend/routes/drivers.py:1696-1749 | a ride is handed back exactly by the approved driver who has accepted it; it returns to the pool with its offers, price and claims plus a release |
| RequestOutcomes.DecliningIsGrantedIff | backend/routes/drivers.py:1785-1806 | an offer is declined exactly by its target or a driver with an open row |
| RequestOutcomes.ArrivingIsGrantedIff | backend/routes/drivers.py:1922-1952 | arriving is granted exactly to the driver of an accepted ride who may act, and sets status and time alone |
| RequestOutcomes.StartingIsGrantedIff | backend/routes/drivers.py:2001-2031 | so is starting, from arrived |
| RequestOutcomes.CompletingIsGrantedIff | backend/routes/drivers.py:2081-2122 | so is completing, from in progress; the price is locked at that time and offers, claims and earlier times stay |
| RequestOutcomes.CompletedRideIsBilledAsAsked | backend/routes/drivers.py:2124-2156 | each amount the driver sent is billed under its own name, missing ones by the policy; tip goes to the driver; every entry and the charge carry the billed amounts |
| RequestOutcomes.CancellingIsGrantedIff | backend/routes/rider_rides.py:176-222 | a cancel is granted exactly to the ride's own customer before its end, forbidden exactly to others, and leaves price, offer and driver in place |
| RequestOutcomes.PaymentIsGrantedIff | backend/routes/payments_stripe.py:28-44 | a payment is prepared exactly for the driver of a ride with a locked price, when payments are on |
| RequestOutcomes.ApprovalIsSetIff | backend/services/driver_approval.py:104-121 | an approval other than pending is set for a known driver, and only his changes |
| RequestOutcomes.RideIsVisibleIff | backend/services/ride_dispatch_cascade.py:109-114 | a ride is visible in the pool to its target, or to everybody without one |
| RequestOutcomes.ListingRefreshesForClaimants | backend/routes/drivers.py:1126-1132 | a listing refreshes the offers exactly for a driver who may claim |
| MarketplaceSteps.CreateKeeps | backend/routes/rider_rides.py:87-165 | creating a ride keeps the invariant of the whole table |
| MarketplaceSteps.AcceptKeeps | backend/routes/drivers.py:1332-1666 | accepting keeps the invariant of the whole table, in every outcome |
| MarketplaceSteps.DeclineKeeps | backend/routes/drivers.py:1690-1761 | handing a ride back keeps the invariant of the whole table |
| MarketplaceSteps.DeclineOfferKeeps | backend/routes/drivers.py:1785-1819 | declining an offer, and the cascade it sets off, keeps the invariant of the whole table |
| MarketplaceSteps.ArriveKeeps | backend/routes/drivers.py:1922-1978 | arriving keeps the invariant of the whole table |
| MarketplaceSteps.StartKeeps | backend/routes/drivers.py:2001-2057 | starting keeps the invariant of the whole table |
| MarketplaceSteps.CompleteKeeps | backend/routes/drivers.py:2081-2206 | completing keeps the invariant of the whole table: pricing locked, entries generated and the charge made together |
| MarketplaceSteps.CancelKeeps | backend/routes/rider_rides.py:169-235 | the rider's cancel keeps the invariant of the whole table, from every status it is allowed in |
| MarketplaceSteps.TimeoutsKeep | backend/services/ride_dispatch_cascade.py:235-255 | expiring every lapsed offer keeps the invariant of the whole table and the set of busy drivers |
| MarketplaceSteps.RefreshKeeps | backend/services/ride_dispatch_cascade.py:217-232 | refreshing all open offers keeps the invariant of the whole table and the set of busy drivers |
| MarketplaceSteps.PaymentKeeps | backend/routes/payments_stripe.py:23-47 | asking for the payment of a ride keeps the invariant of the whole table |
| MarketplaceSteps.RunKeepsInv | backend/routes/drivers.py:1332-2206 | every run of requests, any number of rides and drivers, keeps the invariant |
| MarketplaceProperties.TargetIsTheOpenOffer | backend/services/ride_dispatch_cascade.py:134-287 | a ride not cancelled is offered to d exactly when its log holds one open row, d's, with the highest attempt; an assigned ride has neither |
| MarketplaceProperties.AttemptsAreNumberedAndCapped | backend/services/ride_dispatch_cascade.py:68-145 | offers are numbered 1..n with n the attempt count, a driver is asked twice only after accepting, n is at most the cap plus the releases |
| MarketplaceProperties.RefusalEndsTheRideAtTheCap | backend/services/ride_dispatch_cascade.py:199-214 | a declined offer cancels the ride if and only if the cap is reached, and never comes back to the same driver |
| MarketplaceProperties.LapseEndsTheRideAtTheCap | backend/services/ride_dispatch_cascade.py:199-255 | the same for an offer found lapsed when the timeouts of the whole table are processed |
| MarketplaceProperties.RefreshLeavesNoRideWaiting | backend/services/ride_dispatch_cascade.py:217-232 | after a refresh every ride in the pool has an unexpired offer or no eligible driver left |
| MarketplaceProperties.ListedRideCanBeAccepted | backend/routes/drivers.py:1109-1136 | a ride that the listing shows to a driver is granted when he accepts it at the same reading of clock and presence |
| MarketplaceProperties.TransfersAlternate | backend/routes/drivers.py:1604-1620 | wins and releases alternate, starting with a win, each release by the last winner |
| MarketplaceProperties.ClaimsTellTheHolder | backend/routes/drivers.py:1728-1748 | replaying the claim rows yields the ride's driver; wins exceed releases by one while it is held or completed, else by none |
| MarketplaceProperties.OneRideAtATime | backend/services/claim_eligibility.py:160-164 | with requests one after another no driver ever holds two active rides |
| MarketplaceProperties.TimesTellTheStatus | backend/routes/drivers.py:1943-1952 | which timestamps are set determines the status, they are in order with cancellation last, a ride in the pool has no driver, `offered` is never reached |
| MarketplaceProperties.CompletedIsLockedIsSettled | backend/services/ride_settlement.py:171-184 | completed iff locked iff settled; regenerating returns the same entries; exactly one charge, of the locked customer total |
| MarketplaceHistory.StepContinues | backend/services/lifecycle.py:120-122 | every step keeps each ride's identity, its claim rows as a prefix and its ending |
| MarketplaceHistory.EndedRidesStayEnded | backend/services/lifecycle.py:120-122 | over every run no ride disappears and an ended one keeps its status, driver, times, price, settlement and charge |
| MarketplaceHistory.RemainingFailuresAreBounded | backend/services/ride_dispatch_cascade.py:199-214 | an unreleased ride in the pool after n attempts can fail at most cap minus n more times, its open offer apart, in every continuation |
| MarketplaceHistory.UnapprovedDriverGainsNothing | backend/services/driver_approval.py:123-135 | no request by anybody gives a driver who is not approved a ride or an offer |
| MarketplaceHistory.SuspendedDriverFinishesHisRide | backend/services/driver_approval.py:165-189 | a suspended driver can arrive, start and complete the ride he holds but cannot hand it back |
| MarketplaceService.Service.EligibleDispatchDrivers | backend/services/ride_dispatch_cascade.py:68-106 | the loop over the drivers returns the candidates and logs those passed over |
| MarketplaceService.Service.OfferToDriver | backend/services/ride_dispatch_cascade.py:134-156 | target, expiry, attempt count and log row of a new offer; nothing else changes |
| MarketplaceService.Service.StartDispatchForRide | backend/services/ride_dispatch_cascade.py:159-173 | offers a waiting ride to the nearest driver who may be asked, or leaves it |
| MarketplaceService.Service.ClosePendingLog | backend/services/ride_dispatch_cascade.py:176-196 | the driver's last open row takes result and time, every other row stays; without one the log stays |
| MarketplaceService.Service.AdvanceAfterFailedAttempt | backend/services/ride_dispatch_cascade.py:199-214 | next offer, or the end of the ride at the cap |
| MarketplaceService.Service.ExpireCurrentAttempt | backend/services/ride_dispatch_cascade.py:295-304 | the open offer times out and the cascade moves on |
| MarketplaceService.Service.ProcessDispatchTimeouts | backend/services/ride_dispatch_cascade.py:235-255 | the loop expires exactly the lapsed offers of the whole table; an offer before its deadline stays as it is |
| MarketplaceService.Service.RefreshOpenDispatchOffers | backend/services/ride_dispatch_cascade.py:217-232 | both loops, over every ride |
| MarketplaceService.Service.CreateRide | backend/routes/rider_rides.py:87-165 | a quoted ride in the pool, offered at once in sequential mode |
| MarketplaceService.Service.Accept | backend/routes/drivers.py:1332-1666 | every branch of accepting, with the new table and outcome of each |
| MarketplaceService.Service.Decline | backend/routes/drivers.py:1690-1761 | every branch of handing back; a release puts the ride in the pool with its attempts and log as they were |
| MarketplaceService.Service.DeclineDispatch | backend/routes/drivers.py:1785-1819 | every branch of declining an offer |
| MarketplaceService.Service.CheckProgress | backend/routes/drivers.py:1922-1950 | the guards of a progress step and which refusal each gives |
| MarketplaceService.Service.Arrive | backend/routes/drivers.py:1922-1978 | status and arrival time of the ride its driver holds, from accepted, or the refusal and no change |
| MarketplaceService.Service.Start | backend/routes/drivers.py:2001-2057 | status and start time of the ride its driver holds, from arrived, or the refusal and no change |
| MarketplaceService.Service.Complete | backend/routes/drivers.py:2081-2206 | completion, locked pricing, settlement and charge together, or the refusal |
| MarketplaceService.Service.Cancel | backend/routes/rider_rides.py:169-235 | granted exactly to the ride's own customer before its end; the holder is released and nobody holds the ride after it; target, expiry and log stay |
| MarketplaceService.Service.AvailableRides | backend/routes/drivers.py:1109-1136 | after a refresh exactly the rides visible to an eligible driver that he has not hidden, none to others |
| MarketplaceService.Service.PaymentIntent | backend/routes/payments_stripe.py:23-47 | refused when payments are off; else the charge row of a ride whose pricing is locked, and one that is there already stays |
| MarketplaceService.Service.SetDriverApproval | backend/services/driver_approval.py:96-120 | the new approval of a known driver; pending is refused |
| ClaimRace.RideTable.UpdateWhereUnclaimed | backend/services/dispatch.py:91-103 | the conditional update changes the row exactly when it is unclaimed |
| ClaimRace.RideTable.ClaimRide | backend/services/dispatch.py:68-117 | an uninterrupted claim succeeds exactly on an unclaimed ride and names the right refusal otherwise |
| ClaimRace.ClaimsGrantedMatchReleases | backend/services/dispatch.py:68-117 | in any interleaving of any claimants the successful claims equal the releases, plus one while the ride is assigned |
| ClaimRace.LosersChangeNothing | backend/services/dispatch.py:104-117 | a loser leaves the row alone, a winner finds it unclaimed and gets it, and answers are final |
| ClaimRace.StepKeepsHolder | backend/services/dispatch.py:91-107 | whoever holds the ride has won it |
| ClaimRace.FirstClaimWins | backend/services/dispatch.py:68-117 | once every claimant on an open ride is answered, exactly one has won |
| EligibilityRace.OnlyGrantsAssign | backend/services/dispatch.py:91-107 | a driver comes to a ride only by a granted update on it, while it is open |
| EligibilityRace.RunHoldsOnce | backend/services/driver_status_service.py:156-199 | in any interleaving at most one request of a driver is between the write of his status row and its answer |
| EligibilityRace.NoDriverEverHasTwoRides | backend/routes/drivers.py:1340-1489 | in any interleaving of writes, checks, refusals, updates, releases, progress and cancellations, of any number of requests and drivers, no driver ever has two rides |
| EligibilityRace.TwoRidesIffOvertaken | backend/routes/drivers.py:1418-1489 | what that rests on: with or without the lock, no driver has two rides if and only if no request of his is granted while he has a ride granted to another of his requests after this one's check |
| EligibilityRace.WithoutTheLockTwoRides | backend/routes/drivers.py:1340-1350 | the same moves of two requests of one driver give him one ride with the write before the check, and would give him two if it did not hold the row |
| Ledger.LastHashFixesTheHistory | backend/services/ledger.py:47-108 | two well-formed chains with the same last hash are the same history |
| Ledger.DifferentHistoriesDifferentHashes | backend/services/ledger.py:76-108 | a change anywhere in a chain changes its last hash |
| Ledger.EventsAreAlwaysAChain | backend/services/ledger.py:123-188 | after every run the marketplace events are a chain in which each key occurs once |
| Ledger.EarlierIsAPrefix | backend/services/ledger.py:123-264 | every earlier state of both ledgers is a prefix of every later one |
| Ledger.EntriesChainIff | backend/services/ledger.py:191-264 | the legacy entries are a chain if and only if no entry was recorded over an unflushed one |
| Ledger.ClaimEntriesAlwaysChain | backend/services/ledger.py:205-264 | entries mirrored as new claim events are always a chain |
| Ledger.ClaimEntriesChainIff | backend/services/ledger.py:139-264 | with the event types the table admits the entries are a chain if and only if no record with a used key is followed by another record before anything flushes it |
| Ledger.UsedKeyForks | backend/services/ledger.py:139-146 | a run of three records, each of which the table would store, whose second and third chain to the first |
| Ledger.ClaimsAreMirrored | backend/services/ledger.py:205-264 | a claim entry is mirrored by one event of its own type in the dispatch family, or by none if the key is used |
| Ledger.OtherEntriesWait | backend/services/ledger.py:205-264 | an entry of another type has no mirror and waits for the next flush |
| Ledger.MarketplaceLedger.AppendMarketplaceEvent | backend/services/ledger.py:123-188 | appends and flushes one event, or returns the one with the same key |
| Ledger.MarketplaceLedger.RecordLedgerEntry | backend/services/ledger.py:191-264 | adds a legacy entry chained to the last flushed one, and its mirror event |
| RefreshTokens.TokenStore.MintRefreshToken | backend/services/refresh_tokens.py:48-67 | one live row is added |
| RefreshTokens.TokenStore.RevokeAllRefreshTokens | backend/services/refresh_tokens.py:70-79 | exactly the user's live rows are revoked; rows of other users and revoked ones stay |
| RefreshTokens.TokenStore.RotateRefreshToken | backend/services/refresh_tokens.py:82-128 | every branch: unknown, expired, reused, revoked, rotated |
| RefreshTokens.RevokingIsForOneUser | backend/services/refresh_tokens.py:70-79 | each live token of the user gets that time and reason; every other row, and every revoked one, stays as it is |
| RefreshTokens.MintedTokenIsLive | backend/services/refresh_tokens.py:48-67 | a minted token is live, its user's and expires after the lifetime; no other row changes |
| RefreshTokens.RotationIsGrantedIff | backend/services/refresh_tokens.py:95-128 | a rotation is granted exactly for an unexpired live token and gives its user a live successor; each refusal has its reason and its effect |
| RefreshTokens.OthersLeaveTheUserAlone | backend/services/refresh_tokens.py:48-128 | over every run none of whose requests is about a user, every token of his stays as it is |
| RefreshTokens.TokensAlwaysFormChains | backend/services/refresh_tokens.py:82-128 | in every run a replaced token is revoked, its successor is a younger token of the same user and nobody else's successor |
| RefreshTokens.ChainsAreDisjointLines | backend/services/refresh_tokens.py:82-128 | chains neither merge nor turn back on themselves |
| RefreshTokens.OnlyTheTailIsLive | backend/services/refresh_tokens.py:82-128 | at most the last token of a chain is not revoked |
| RefreshTokens.RevokedForGood | backend/services/refresh_tokens.py:70-128 | a revoked row never becomes live again |
| RefreshTokens.RotatesAtMostOnce | backend/services/refresh_tokens.py:82-128 | over every run a token rotates once if it has a successor and never otherwise |
| RefreshTokens.ReuseRevokesEverythingIff | backend/services/refresh_tokens.py:95-110 | presenting a rotated token leaves its user no live token if and only if it has not expired or none was left |
| RefreshTokens.ExpiredReuseGoesUnnoticed | backend/services/refresh_tokens.py:100-110 | a run in which reuse after expiry leaves the successor live |
| Idempotency.ReplayTable.BeginOrReplay | backend/services/driver_idempotency.py:20-77 | no key, proceed with a row inserted, replay, or busy |
| Idempotency.ReplayTable.CommitResult | backend/services/driver_idempotency.py:80-85 | the row holds the response |
| Idempotency.ReplayTable.AbandonInProgress | backend/services/driver_idempotency.py:94-98 | the row is gone |
| Idempotency.ReplayTable.ExecuteIdempotentWrite | backend/services/driver_idempotency.py:117-155 | the handler runs exactly when its key is new, and the row afterwards says how it ended |
| Idempotency.RunKeepsInv | backend/services/driver_idempotency.py:20-98 | in any interleaving a handler in flight owns the row of its key |
| Idempotency.LookupThenInsert | backend/services/driver_idempotency.py:35-77 | a request reaches its handler exactly without a key or with one nobody holds; otherwise it is answered from the row, with 409 while the handler is at work |
| Idempotency.FinishSettlesTheKey | backend/services/driver_idempotency.py:138-155 | the end of a handler answers its own request; success is recorded under its key and failure deletes the row |
| Idempotency.OtherKeysStay | backend/services/driver_idempotency.py:35-98 | requests with different keys do not touch each other's rows |
| Idempotency.HandlerSucceedsAtMostOnce | backend/alembic/versions/0026_driver_idempotency_replays.py:36-39 | of all requests with one key the handler succeeds for at most one, and every successful answer is that one's result |
| Idempotency.AnswersAreStable | backend/services/driver_idempotency.py:35-77 | a recorded answer is replayed for good |
| Idempotency.FailureFreesTheKey | backend/services/driver_idempotency.py:94-98 | after a failed handler the next request with the key runs it again |
| RateLimit.RateLimiter.CheckRateLimit | backend/services/rate_limit.py:39-52 | verdict, retry time and the new bucket of one check |
| RateLimit.AllowsIffTheWindowHasRoom | backend/services/rate_limit.py:34-52 | in every run of all clients the pruned buckets answer as the full history would: allowed iff fewer than `limit` earlier allowed hits lie in the last window; no bucket exceeds the limit |
| RateLimit.HistoryIsWhatWasAllowed | backend/services/rate_limit.py:39-52 | the history meant is the hits the limiter itself let through |
| RateLimit.NoWindowHoldsMore | backend/services/rate_limit.py:39-52 | no half-open window of that length, wherever it starts, holds more than `limit` allowed hits |
| RateLimit.RetryAfterIsEnough | backend/services/rate_limit.py:44-48 | a denied caller who waits `retry_after` without other hits is allowed; one who comes more than a second sooner is denied |
| RateLimit.FailsIffTheLimitIsNotPositive | backend/services/rate_limit.py:44-46 | the check fails if and only if the limit is below one |
| EventStreams.EventBus.Subscribe | backend/services/event_bus.py:24-27 | an empty queue joins the topic |
| EventStreams.EventBus.Unsubscribe | backend/services/event_bus.py:28-30 | the queue leaves its topic |
| EventStreams.EventBus.Receive | backend/routes/drivers.py:1162-1167 | the client takes the head of its queue, if there is one |
| EventStreams.EventBus.Publish | backend/services/event_bus.py:32-41 | every subscribed queue with room takes the payload, exactly the full ones are dropped |
| EventStreams.EventBus.OfferAll | backend/services/event_bus.py:34-39 | the first loop and its list of full queues |
| EventStreams.EventBus.DiscardAll | backend/services/event_bus.py:40-41 | the second loop |
| EventStreams.SubscribersMissNothing | backend/services/event_bus.py:24-41 | in every run what a subscribed client has received followed by what waits for it is everything published on its topic since it joined; any other has a prefix; no queue exceeds 100 |
| EventStreams.DroppedIffFull | backend/services/event_bus.py:36-41 | a client stops being subscribed only by leaving or when an event finds its queue full |
| EventStreams.DroppedClientKeepsAPrefix | backend/services/event_bus.py:36-41 | a dropped client keeps, in every continuation, exactly what was published before the event that dropped it |
| Dossier.Spine.AppendTripEvent | backend/services/dossier_dispatch.py:39-88 | an event with a used key is dropped, any other appended |
| Dossier.Spine.UpsertActiveDriver | backend/services/dossier_dispatch.py:120-244 | a new driver is available, a known one keeps his status |
| Dossier.Spine.MatchDriverForRequest | backend/services/dossier_dispatch.py:281-355 | every branch of matching |
| Dossier.Spine.CompleteTrip | backend/services/dossier_dispatch.py:426-484 | the completing event and the freed driver, the event alone when no driver is recorded, or the invalid transition |
| Dossier.Spine.ExecuteLedgerTransaction | backend/services/dossier_ledger.py:116-167 | balanced entries are posted under a new reference, in a loop; a used one posts nothing |
| Dossier.Spine.SettleTrip | backend/routes/dossier_marketplace.py:117-179 | every branch of completing with payment, what is refused rolled back whole |
| Dossier.CompletionIsGrantedIff | backend/routes/dossier_marketplace.py:117-179 | which completions are answered as completed, with which status each of the others is refused and that it changes nothing |
| Dossier.DemandIsAnsweredIff | backend/services/dossier_dispatch.py:281-355 | a request gets a driver exactly when its trip is new or matching and a ranked driver is available; only that driver changes |
| Dossier.HeartbeatKeepsStatus | backend/services/dossier_dispatch.py:120-244 | a heartbeat makes a new driver available and leaves a known one's status and trip alone |
| Dossier.ChosenIsNearest | backend/services/dossier_dispatch.py:358-423 | the driver chosen is the first available one in order of distance, and there is none only if none is |
| Dossier.DriversMatchTrips | backend/services/dossier_dispatch.py:281-484 | with fresh keys, in every run, drivers dispatched and trips with a driver en route match one to one and every trip's events follow on from each other |
| Dossier.CompletionKeepsMatchingIff | backend/services/dossier_dispatch.py:447-475 | a completion keeps that matching if and only if its key has completed no trip before |
| Dossier.DemandKeepsMatchingIff | backend/services/dossier_dispatch.py:321-349 | a request answered with a driver keeps it if and only if its key has found none before |
| Dossier.CompletedTripsAreClosed | backend/services/dossier_dispatch.py:91-103 | a completed trip takes no further event, whatever keys are used |
| Dossier.BuiltIff | backend/services/dossier_ledger.py:67-113 | entries can be built iff the shares add up to the fare and the platform's is positive; a zero share is the other failure |
| Dossier.BuiltEntriesPost | backend/services/dossier_ledger.py:57-113 | built entries balance at the fare and post to each account what is due there |
| Dossier.BooksBalance | backend/services/dossier_ledger.py:116-167 | in every run total debits equal total credits, over the ledger and in each transaction |
| Dossier.AccountsHoldWhatIsOwed | backend/routes/dossier_marketplace.py:117-173 | with fresh keys each account, and so each driver's wallet, holds the sum of what the trips answered as completed owe it |
| Dossier.DriverIsPaidIff | backend/services/dossier_ledger.py:127-132 | a completion pays its driver if and only if its key is no earlier reference |
| Dossier.UsedKeyOnlyFreesTheDriver | backend/services/dossier_dispatch.py:51-62 | a key used for another completion changes nothing but the driver's status |
| Dossier.UsedKeyOnlyTakesTheDriver | backend/services/dossier_dispatch.py:51-62 | a key used for another request adds no event but dispatches the driver |
| Dossier.ReusedKeyStrandsADriver | backend/services/dossier_dispatch.py:321-349 | such a run: the second driver is dispatched to a trip without an event |
| Dossier.ReusedKeyLosesAShare | backend/routes/dossier_marketplace.py:117-173 | such a run: the second trip still waits, its driver is free, one share of two is paid |

## Left out

- Interleavings inside one marketplace handler: handlers are atomic steps, except for the claim in `ClaimRace`, the status write and eligibility check before it in `EligibilityRace` and the keyed writes in `Idempotency`.
- The lock that PostgreSQL takes on the ride's row before a claim: `ClaimRace` and `EligibilityRace` hold without it.
- EligibilityRace.NoDriverEverHasTwoRides: database deadlocks and lock timeouts, which end a request as a refusal does; that a transaction's write holds its row until it ends is taken from the database, PostgreSQL by row and SQLite as a whole.
- MarketplaceService.Service.Accept: the rollback of a lost claim also removes the idempotency row of that request, which the two modules do not show together.
- Crashes and unexpected exceptions in the middle of a handler, after which the idempotency wrapper commits what was written.
- Idempotency.ReplayTable.BeginOrReplay: keys are taken as they are, not trimmed or cut at 128 characters; in an interleaved run a row is tied to the request that inserted it.
- The visibility metadata, correlation ids, checksums, route snapshots and proof receipts written beside ledger events, offers and settlement entries.
- Stripe, payouts, transfers, webhooks, disputes and refunds, and what becomes of a completion whose charge row cannot be stored.
- MarketplaceService.Service.AvailableRides: the order of the rides shown; which rides the driver has hidden is a parameter.
- The simulated-ride endpoint, which creates a ride as the rider's endpoint does, and a driver hiding a ride, which writes no ride.
- The presence, profile, position-freshness and distance computations: each request brings their verdicts.
- EventStreams.EventBus.Publish: the synchronous fallback that skips full queues without dropping the subscriber.
- RateLimit.RateLimiter.CheckRateLimit: the lock around it, and the address taken from request headers.
- Dossier.Spine.MatchDriverForRequest: positions and the geographic query, represented by the ranked list it yields; concurrent requests.
- Length limits on identifiers and keys in request schemas.
- Floating-point error in miles and distances: they are real numbers here.
- City scoring, heat maps, routing, traffic feeds, notifications, profiles, administration, authentication and the apps: no property of rides or money depends on them.
