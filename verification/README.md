# The commodity ledger of Whimo, verified

This project models the commodity ledger of the Whimo backend and proves what it is for: that
goods are accounted for, and that every accepted transaction can be traced to the producers
behind it at the level it claims.

The ledger is two tables, transactions and balances. Users enter what they harvested (producer
transactions), propose sales to each other (downstream transactions), accept or reject them, and
convert some commodities into others by recipes. Accepting a sale the seller cannot cover creates
an automatic producer transaction for the shortfall. Every accepted transaction stores a level on
a four-level scale, computed locally from the seller's purchases. Scheduled jobs expire pending
sales and assign seasons. Searches over the provenance graph (from a sale to what its seller
bought, from a conversion output to the inputs of the same group) feed the traceability counts,
the requests for missing geodata and the dashboards.

## How it is modelled

- `Ledgers.Apply` takes one event, one service call or job, to the next ledger. `Ledgers.IsRun`
  is a run of events from the empty ledger. Each service call is one atomic step and new keys are
  unused; interleavings inside a call are an assumption, not a result.
- `TransactionsService.LedgerService` is the service itself, with the two tables as fields and
  the loops of the source. Each method is proved to take exactly the step of `Apply`, and to
  return the error the source returns. The acceptance record (`acceptedAt`, `clock`) is ghost: no
  step reads it.
- Stored volumes are whole hundredths (`int`), requested quantities and recipe quantities are
  `real`. How storing rounds is a parameter; where a result needs it to round to a nearest
  hundredth, it says so, and ties may go either way.
- A query is a filter over the table when it runs. Sets stand for querysets and for lists whose
  order does not matter, so results hold for any order.
- Time, new keys, the outcome of file uploads and of the recipient lookup are parameters.

The files build on each other: `Domain`, `Mappers`, `Seasons`, `Ledgers` (data and steps),
`ChainGraph`, `ChainSearch` (the graph and the searches), `Conversions`, `TransactionsService`,
`Notifications`, `Pagination` (imperative code), `Columns`, `GeodataRequests` (each operation
column by column), `Lifecycle`, `Provenance`, `Decisions`,
`SupplyChain`, `FiniteSums`, `Conservation`, `Exactness`, `Supply`, `FirstChains`, `Tracing`
(results), `Counterexamples`.

## Main results

1. *The local rule has a global meaning* (`Tracing.TracedThroughoutIff`,
   `Tracing.RunsTraceEverything`). The level of an accepted transaction, a minimum over the purchases
   of one seller, is the minimum over all producer transactions in its ancestry, all of which are in
   its first chain (`SupplyChain.OriginsAreInFirstChain`).
2. *The searches compute the graph closure* (`ChainSearch.GetChainTransactions`,
   `SupplyChain.ReachableChainIsLeastClosedSet`) on any table, cyclic ones included, and chains
   only grow over a run (`SupplyChain.DecisionsAndChainsPersist`).
3. *No accepted chain dead-ends* (`FirstChains.NoDeadEndThroughoutIff`), and it ends in a producer
   with exactly the level stored (`FirstChains.WitnessedThroughoutIff`).
4. *The books balance* (`Conservation.DriftIsSlipsLessLosses`,
   `Exactness.LedgerEquationThroughoutIff`, `Supply.SupplyIsConservedIff`).
5. *The lifecycle is sound* (`Lifecycle.RunIsConsistent`, `Decisions.WhoDecides`,
   `Decisions.AcceptedSalesHadTwoParties`).
6. *The side engines refine simple specifications*: batched seasons, geodata requests, pages.

## When the results hold

Some requests that the services let through break results 1, 3 and 4. Each of these has its exact
condition over whole runs: the property holds in every state if and only if every event passes a
check on the state before it.

- *Levels.* Every level is the minimum over its ancestry exactly when every accepted sale is made by
  a seller who bought the commodity before or lacks volume, and every conversion by a user who
  bought one of its inputs before (`Tracing.TracedThroughoutIff`).
- *First chains.* None is empty exactly when every seller bought anything before or lacks volume,
  and every conversion with legs has an input and a user who bought anything before; the commodity
  does not matter, because the search ignores it (`FirstChains.NoDeadEndThroughoutIff`). Each holds
  a producer of exactly the level stored exactly when the condition on levels holds, or the stock
  drawn on leads to an untraceable producer (`FirstChains.WitnessedThroughoutIff`).
- For both it is enough that requests are `Provenance.Sound`: positive stored volumes in sales, no
  negative production, no negative recipe input (`Tracing.SoundRunsHaveSources`). Request volumes
  have no lower bound in `whimo/transactions/schemas/requests.py:61`, and
  `Counterexamples.SaleOfNothingHasNoOrigin` and `Counterexamples.OutputsComeFromNothing` are
  accepted transactions without any producer.
- *Balances.* They are never negative exactly when no event overdraws (`Exactness.NeverNegativeIff`).
  Negative production and sales of negative volumes can (`Counterexamples.NegativeProductionOverdraws`,
  `Counterexamples.NegativeSaleDrainsBuyer`).
- *Books.* A balance and a row are rounded separately. In any run and for any rounding, a balance is
  off its rows by exactly what these roundings slip, less the credits that conversions lose
  (`Conservation.DriftIsSlipsLessLosses`). Only a quantity halfway between two hundredths can slip
  (`Conservation.OnlyTiesSlip`), and under every symmetric rounding one does
  (`Counterexamples.TieDrifts`); recipes have six decimals. A credit is lost when a conversion
  consumes and produces the same commodity: the source declares an error for such recipes
  (`whimo/transactions/schemas/errors.py:82-83`) but raises it nowhere, and the model follows the
  code. The two balance objects of such a commodity enter one bulk update, whose first entry, the
  debit, wins (`Counterexamples.OverlappingRecipeLosesOutput`). Without ties the ledger equation
  holds throughout a run exactly when no visible credit is lost
  (`Exactness.LedgerEquationWithoutTiesIff`).

## Model

| member | source | states |
|---|---|---|
| Domain.Lowest | whimo/db/enums/transactions.py:30-46 | the minimum under the custom order: a member, and nothing is below it |
| Domain.LowestIsUnique | whimo/db/enums/transactions.py:36-46 | a member that nothing is below is the minimum, so equal levels never compete |
| Domain.ScaleIsOrdered | whimo/db/enums/transactions.py:36-46 | the four levels in their order, any two comparable in exactly one way |
| Mappers.MoreEvidenceNeverLowers | whimo/transactions/services.py:444-451 | adding a location or a farmer to a request never lowers the level of what it produces, adding a location always raises it, and a measured location outranks a stated one |
| ChainGraph.ChainIsLeastClosedSet | whimo/db/storages/transactions.py:164-199 | what paths from the root reach is the least set with the root that is closed under the edges |
| ChainGraph.ChainFromClosure | whimo/db/storages/transactions.py:164-199 | a closed set of reachable rows that holds the root is the chain, the step from loop invariant to result |
| ChainGraph.ChainIsAccepted | whimo/db/storages/transactions.py:177-199 | apart from its root a chain holds accepted rows only, given accepted input legs |
| ChainGraph.ChainIsTransitive | whimo/db/storages/transactions.py:164-199 | the chain of a chain member lies inside the chain |
| ChainGraph.AnalyticsChainIsPartOfStorageChain | whimo/analytics/services.py:236-257 | the commodity-restricted chain is a subset of the storage chain of the same root |
| ChainGraph.StorageChainOnColumns | whimo/db/storages/transactions.py:164-199 | spelled out on columns: the chain holds the root, the accepted purchases of every seller in it and the inputs of every conversion with an output in it |
| ChainGraph.StorageChainIsLeastOnColumns | whimo/db/storages/transactions.py:164-199 | and it lies inside every set with these properties |
| ChainGraph.AnalyticsChainOnColumns | whimo/analytics/services.py:236-257 | spelled out on columns: rows of the one commodity only, with the accepted purchases of every seller among them |
| ChainGraph.AnalyticsChainIsLeastOnColumns | whimo/analytics/services.py:236-257 | and it lies inside every set with this property |
| ChainSearch.QueueConversionInputs | whimo/db/storages/transactions.py:183-197 | the inner loop collects and queues every unvisited input leg behind the round's conversion outputs, and nothing unreachable |
| ChainSearch.RoundKeepsState | whimo/db/storages/transactions.py:172-197 | one round of either search keeps the search invariant |
| ChainSearch.GetChainTransactions | whimo/db/storages/transactions.py:164-199 | terminates on every table, cyclic ones included, and returns exactly the chain |
| ChainSearch.GetAllChainTransactionsForUser | whimo/analytics/services.py:236-257 | terminates and returns exactly the chain of the commodity-restricted graph without conversion edges |
| ChainSearch.GetFirstChainTransactions | whimo/db/storages/transactions.py:121-125 | returns the sellerless chain members that are not conversion legs |
| ChainSearch.GetUserPlotsCount | whimo/analytics/services.py:216-233 | counts the distinct coordinate pairs, both present, over the chains of every row the user bought, sold or created |
| ChainSearch.GetTraceabilityCounts | whimo/db/storages/transactions.py:109-118 | each level's count is the number of chain members whose traceability is that level, positive exactly when some member stores it |
| SupplyChain.CountsAddUp | whimo/db/storages/transactions.py:109-118 | the counts sum to the size of the chain, less one when the root is not accepted |
| SupplyChain.ReachableChainIsLeastClosedSet | whimo/db/storages/transactions.py:164-199 | on reachable states the chain is the least set with the root closed under both edge kinds, with no condition on status |
| SupplyChain.ChainsAreMonotone | whimo/db/storages/transactions.py:164-199 | a chain in a later state contains the chain of the same root in an earlier one |
| SupplyChain.DecisionsAndChainsPersist | whimo/transactions/services.py:374-441 | over any run a decided row keeps status, level, parties and group, and every chain contains its past |
| SupplyChain.OriginIsNotBelow | whimo/db/storages/transactions.py:128-161 | along a supply line no origin stores a level below its end |
| SupplyChain.LowestLine | whimo/db/storages/transactions.py:128-161 | some supply line reaches a producer with exactly the level of the transaction |
| SupplyChain.LocalMinimumIsGlobalMinimum | whimo/db/storages/transactions.py:128-161 | the stored local minimum is the minimum over all producers in the ancestry, of which there is one |
| SupplyChain.AutomaticOriginMeansIncomplete | whimo/transactions/mappers.py:132-160 | whatever has an automatic producer transaction in its ancestry is stored as incomplete |
| SupplyChain.OriginsAreInFirstChain | whimo/db/storages/transactions.py:121-125 | every producer in the ancestry of an accepted transaction is in its first chain |
| SupplyChain.FirstChainHasWitness | whimo/db/storages/transactions.py:121-161 | where every level is a local minimum, each first chain holds a producer with exactly the level stored; `FirstChains.WitnessedThroughoutIff` says exactly when it does |
| Tracing.TracedIffGrounded | whimo/db/storages/transactions.py:128-161 | every level is the minimum over its ancestry if and only if every level is the minimum over its parents |
| Tracing.TracedThroughoutIff | whimo/db/storages/transactions.py:128-161 | every level is the minimum over its ancestry throughout a run exactly when every accepted sale and conversion of it has a source |
| Tracing.SoundRunsHaveSources | whimo/transactions/schemas/requests.py:61 | positive stored sales and no negative production or recipe input are enough for that |
| Tracing.RunsTraceEverything | whimo/db/storages/transactions.py:121-161 | where every accepted sale and conversion has a source, every accepted transaction is traced and has its witness, in every state of the run |
| FirstChains.BehindAcceptedSale | whimo/db/storages/transactions.py:164-199 | the first chain of a sale just accepted is what is behind its seller's stock, and holds the automatic producer transaction if there is one |
| FirstChains.BehindLeg | whimo/db/storages/transactions.py:183-197 | the first chain of a new conversion leg is what is behind the user's stock, or empty without inputs |
| FirstChains.StepHasNoDeadEndIff | whimo/db/storages/transactions.py:121-125 | a step keeps every first chain from being empty exactly when what it accepts draws on some stock |
| FirstChains.StepIsWitnessedIff | whimo/db/storages/transactions.py:121-161 | a step keeps exact-level witnesses exactly when it has a source or an untraceable producer behind the stock |
| FirstChains.NoDeadEndThroughoutIff | whimo/db/storages/transactions.py:121-125 | no accepted first chain is empty throughout a run exactly when every accepted sale has a seller who bought anything or lacks volume, and every conversion with legs an input and a user who bought anything |
| FirstChains.WitnessedThroughoutIff | whimo/db/storages/transactions.py:121-161 | every accepted transaction has a producer of exactly its level in its first chain throughout a run, in both directions |
| Lifecycle.StepKeepsConsistent | whimo/transactions/services.py:85-441 | every step keeps expiry exactly while pending, a level exactly when accepted, and the parties and group of each kind; terminal rows and identities never change |
| Lifecycle.RunIsConsistent | whimo/transactions/mappers.py:69-195 | these shapes hold in every reachable state |
| Lifecycle.AcceptSettles | whimo/transactions/services.py:393-416 | accepting is funding the shortfall and then deciding the sale at the level computed afterwards |
| Lifecycle.ConversionCase | whimo/transactions/services.py:290-361 | a conversion that changes anything passed every check, moves positive quantities only and could be paid |
| Lifecycle.AcceptedByTheOtherParty | whimo/db/storages/transactions.py:42-57 | whoever passes the guard of accept is the party that did not create the sale, and both parties are set |
| Lifecycle.ExpiryClosesExactlyDuePendingRows | whimo/contrib/tasks/transactions.py:16-27 | filtering on time alone closes exactly the due pending rows and leaves none due |
| Decisions.WhoDecides | whimo/db/storages/transactions.py:42-57 | over every kind of event, nothing but the guarded accept, reject and expiry decides a pending sale, and they always do: accepting never fails for want of a level |
| Columns.AcceptanceOnColumns | whimo/db/storages/transactions.py:42-57 | accepting goes through exactly for a pending sale, up to its deadline, by the party that did not create it, spelled out on columns |
| Columns.RejectionOnColumns | whimo/transactions/services.py:427-433 | rejecting goes through exactly for a pending sale, up to its deadline, by either party, the creator included; it clears the deadline and changes nothing else |
| Columns.ExpiryOnColumns | whimo/contrib/tasks/transactions.py:16-27 | the job closes exactly the rows whose deadline has come and leaves every other row as it is |
| Decisions.OpenOrDue | whimo/contrib/tasks/transactions.py:19 | up to its deadline the other party can accept a pending sale, from the deadline on the job expires it, at the deadline both can |
| Decisions.AcceptedSalesHadTwoParties | whimo/transactions/services.py:374-416 | for every accepted sale of a run, the step at which the other party passed the guard and the sale became accepted; seller and buyer are set and differ, and the sale is unchanged since |
| Decisions.AcceptStoresALevel | whimo/db/storages/transactions.py:128-139 | on reachable states the minimum in accept is never taken over nothing |
| Decisions.AcceptMovesBalances | whimo/transactions/services.py:380-408 | the seller keeps the excess over the volume or zero, the buyer gains the volume, all other balances stay |
| Columns.ProductionOnColumns | whimo/transactions/services.py:85-99 | every column of a row entered by hand, its level by location and farmer, and nothing else changed |
| Columns.ProposalOnColumns | whimo/transactions/services.py:115-144 | when a proposal is stored, and every column of it |
| Columns.SaleLevelOnColumns | whimo/db/storages/transactions.py:128-139 | the lowest level of the seller's accepted purchases of the commodity, incomplete if there are none |
| Columns.GeodataOnColumns | whimo/transactions/services.py:171-183 | either party and nobody else sets the location, to the one sent, once the upload worked |
| Decisions.AcceptCreatesOnlyShortfall | whimo/transactions/services.py:393-416 | an automatic producer transaction exists exactly when volume is lacking, for exactly the lack, with no location, coordinates or season, and the sale is then incomplete |
| Decisions.OnlyTheRecipientCanAccept | whimo/transactions/services.py:114-161 | a new sale can be accepted by its recipient until it expires, and by nobody else |
| Decisions.DealMovesGoods | whimo/transactions/services.py:453-459 | proposing and accepting moves the volume from the selling to the buying side, whoever proposed |
| Decisions.BalancesStayNonNegativeIff | whimo/transactions/services.py:96-99 | the exact condition under which a step keeps all balances non-negative, in terms of the requested volume and the balance before |
| Decisions.ProductionWithinBalance | whimo/transactions/services.py:96-99 | production does not overdraw if a negative volume stays within the balance, and, up to half a hundredth, only then |
| Provenance.PurchasesHaveLevels | whimo/db/storages/transactions.py:129-137 | dropping null levels never empties a non-empty list of purchases |
| Provenance.AcceptIsGroundedIff | whimo/transactions/services.py:393-416 | an accepted sale stores the minimum over its parents exactly when the seller had bought the commodity or lacked volume, and is incomplete otherwise |
| Provenance.ConversionIsGroundedIff | whimo/db/storages/transactions.py:142-161 | a conversion leg stores the minimum over its parents exactly when the user had bought some input, and is incomplete otherwise |
| Provenance.ParentsPersist | whimo/transactions/services.py:374-441 | no later step changes the parents of an accepted row or their levels |
| Provenance.StepKeepsCovered | whimo/transactions/services.py:393-408 | sound steps keep balances non-negative and positive stock backed by an accepted purchase |
| Provenance.StepKeepsSourced | whimo/transactions/services.py:374-416 | sound steps keep stock covered, sales positive and every level a local minimum |
| Provenance.RunIsSourced | whimo/transactions/services.py:374-416 | all of this in every state of a sound run, non-negative balances included |
| Conservation.OnlyTiesSlip | whimo/db/models/transactions.py:85-89 | rounding a changed balance and rounding the change disagree by at most one hundredth, and only on ties |
| Conservation.ProducedMovesDeviation | whimo/transactions/services.py:96-99 | production moves the balance off its rows by exactly its slip, for any rounding |
| Conservation.AcceptKeepsDeviation | whimo/transactions/services.py:393-408 | accepting adds no drift at all, whatever the volumes |
| Conservation.ConvertedMovesDeviation | whimo/transactions/services.py:333-361 | a conversion moves a balance off its rows by exactly the slip of what it moves less the credit it loses, for any rounding |
| Conservation.OverlapLosesCredit | whimo/transactions/services.py:350-354 | a commodity on both sides of a conversion loses its whole stored credit, unless the debit is a tie |
| Conservation.StepKeepsLedgerEquationIff | whimo/transactions/services.py:598-673 | for any rounding, a step keeps the ledger equation exactly when on every account it slips just the credit it loses |
| Conservation.TieFreeIsExactIff | whimo/transactions/services.py:350-354 | without ties, that is exactly when no commodity of a conversion is on both sides with an output that rounds to non-zero |
| Conservation.StepMovesDeviation | whimo/transactions/services.py:84-441 | what every event adds to the gap between a balance and its rows, exactly and for any rounding |
| Conservation.DriftIsSlipsLessLosses | whimo/db/models/balances.py:9 | over any run and for any rounding, a balance is off its rows by exactly its slips less its lost credits |
| Conservation.DriftBound | whimo/db/models/conversions.py:84-88 | over any run, overlapping conversions included, a balance plus its lost credits is off its rows by at most one hundredth per tie, and ties are at most the hand-entered producer transactions and conversion legs |
| Exactness.LedgerEquationThroughoutIff | whimo/transactions/services.py:333-408 | every balance is the sum of what its accepted rows book throughout a run exactly when on every account every event slips just the credit it loses, for any rounding and any quantities |
| Exactness.LedgerEquationWithoutTiesIff | whimo/transactions/services.py:333-408 | without ties, exactly when no conversion consumes and visibly produces the same commodity |
| Exactness.NeverNegativeIff | whimo/transactions/services.py:96-99 | no balance is negative throughout a run exactly when none of its events overdraws, with no assumption on requests |
| Exactness.StepStaysGroundedIff | whimo/transactions/services.py:374-416 | a step keeps every level the minimum over its parents exactly when the accepted sale or the conversion has a source |
| Exactness.GroundedThroughoutIff | whimo/db/storages/transactions.py:128-161 | the same throughout a run, in both directions |
| Supply.ExchangeSums | whimo/transactions/mappers.py:69-195 | summed over all accounts, booked volumes are producer volumes plus signed conversion volumes, sales cancel |
| Supply.SurplusIsTotalDeviation | whimo/transactions/services.py:393-408 | total holdings less supply is what all accounts of the commodity together deviate |
| Supply.StepMovesSurplus | whimo/transactions/services.py:393-408 | what every event adds to that difference, exactly and for any rounding |
| Supply.LedgerEquationConservesSupply | whimo/transactions/services.py:393-408 | where the ledger equation holds, all holdings of a commodity equal its supply |
| Supply.SupplyIsConservedIff | whimo/transactions/services.py:393-408 | the supply of a commodity is conserved throughout a run exactly when no event slips or loses a credit of that commodity, for any rounding and any quantities |
| Supply.SupplyIsConserved | whimo/transactions/services.py:393-408 | without ties and lost credits, holdings are what was produced and converted |
| Supply.TradeSuppliesOnlyShortfall | whimo/transactions/mappers.py:132-160 | accepting a trade changes total supply by the automatic shortfall only |
| Conversions.MinimumOfMinima | whimo/db/storages/transactions.py:150-161 | the minimum of per-commodity minima is the minimum over all purchases of the inputs |
| Conversions.GetConversionTraceability | whimo/db/storages/transactions.py:142-161 | grouping, minima and their minimum compute that level, incomplete without purchases |
| Conversions.CheckBalances | whimo/transactions/services.py:611-614 | the first loop passes exactly when every input has a balance row of at least the quantity |
| Conversions.ProcessConversionInputs | whimo/transactions/services.py:598-634 | one debit and one signed leg for every input |
| Conversions.ProcessConversionOutputs | whimo/transactions/services.py:637-673 | one credit and one leg for every output, on existing rows or as new rows |
| Conversions.BulkUpdateIsConvertedBalances | whimo/transactions/services.py:350-357 | the bulk update and bulk create together write the specified balances, debits winning over credits |
| Conversions.CheckConversion | whimo/transactions/services.py:291-324 | the checks in their order: recipe, overrides, all-zero inputs, balances |
| Columns.RecipeRefusals | whimo/transactions/services.py:291-307 | recipe not found exactly without a recipe, invalid override exactly when one names a commodity outside it |
| Columns.QuantityRefusals | whimo/transactions/services.py:312-317 | otherwise, at least one input required exactly when all are zero, and insufficient balance exactly when some positive input has no balance row or exceeds it |
| Columns.PlanOnColumns | whimo/transactions/services.py:309-324 | what is consumed and produced: the positive quantities, overridden ones first |
| Columns.ConversionLevelOnColumns | whimo/db/storages/transactions.py:142-161 | the lowest level the user bought any input at, incomplete if none was bought |
| Columns.ConversionRowsOnColumns | whimo/transactions/mappers.py:163-195 | every column of every leg, one leg per quantity, and no older row changed |
| Columns.ConversionBalancesOnColumns | whimo/transactions/services.py:598-673 | inputs debited, other outputs credited, all other balances untouched |
| Columns.WholeBalanceConverts | whimo/transactions/services.py:611-621 | a conversion of a whole balance goes through and leaves zero |
| Conversions.OverridesReplaceQuantities | whimo/transactions/services.py:309-324 | overriding quantities is the same as a recipe that has these quantities, refusals included |
| Conversions.PrepareConversion | whimo/transactions/services.py:326-361 | level, balances and rows of the whole database transaction |
| TransactionsService.LedgerService.CreateProducer | whimo/transactions/services.py:85-111 | takes the producer step; a later upload or recipient failure is reported on a ledger that has moved |
| TransactionsService.LedgerService.CreateDownstream | whimo/transactions/services.py:115-161 | stores a pending sale, or changes nothing: not found for a missing commodity or recipient, conflict for oneself |
| TransactionsService.LedgerService.Accept | whimo/transactions/services.py:374-416 | takes the accept step, not found exactly when the row is no open sale of the user's that somebody else created, unchanged on failure |
| TransactionsService.LedgerService.Settle | whimo/transactions/services.py:380-416 | the database transaction of accept, rolled back when the minimum fails |
| TransactionsService.LedgerService.MoveVolume | whimo/transactions/services.py:381-408 | the read, fund and write sequence on the two balances equals the specified transfer |
| TransactionsService.LedgerService.Reject | whimo/transactions/services.py:427-439 | rejects an open sale for either party, the creator included, and is otherwise not found and unchanged |
| TransactionsService.LedgerService.CreateConversion | whimo/transactions/services.py:290-361 | takes the conversion step; a refused one changes nothing and returns the first failed check |
| TransactionsService.LedgerService.UpdateGeodata | whimo/transactions/services.py:171-183 | sets the location for a party once the upload succeeded, and changes nothing otherwise |
| TransactionsService.LedgerService.ExpireTransactions | whimo/contrib/tasks/transactions.py:16-27 | saving due rows one by one equals the expiry step |
| TransactionsService.LedgerService.DistributeOverSeasons | whimo/contrib/tasks/season_distribution.py:18-34 | every season-null row is treated exactly once in key order, whatever the batch size |
| TransactionsService.LedgerService.DistributeBatches | whimo/contrib/tasks/season_distribution.py:18-34 | the keyset-batched loop terminates although unmatched rows stay null, and equals the row-by-row assignment |
| TransactionsService.LedgerService.AssignBatch | whimo/contrib/tasks/season_distribution.py:29-34 | the inner loop gives every row of the batch its own match |
| Seasons.FetchBatch | whimo/contrib/tasks/season_distribution.py:22 | the slice is the ascending list of the smallest keys after the cursor |
| Seasons.FirstMatch | whimo/contrib/tasks/season_distribution.py:37-49 | a season of the commodity around the date, both end days included: dated starts before open ones, earliest start, then smallest id; none exactly when there is none |
| Seasons.SeasonsOnColumns | whimo/contrib/tasks/season_distribution.py:18-49 | the same for every row of the table on its creation time; rows with a season keep it, and no other column changes |
| Seasons.SeasonIgnoresRowOrder | whimo/contrib/tasks/season_distribution.py:37-49 | the season found does not depend on the order of the season table |
| Seasons.AssignSeasonsIsIdempotent | whimo/contrib/tasks/season_distribution.py:18-34 | running the job twice is running it once |
| Seasons.IncreasingIsUnique | whimo/contrib/tasks/season_distribution.py:19 | keys in ascending order are determined by which keys they are |
| Notifications.AtMostOneForever | whimo/notifications/services/notifications.py:51-75 | over any history at most one unread geodata request exists per receiver and transaction |
| Notifications.OpenRequestsOnColumns | whimo/notifications/services/notifications.py:58-63 | what is counted as open: unread geodata requests of that receiver for that transaction |
| Notifications.EverybodyIsAskedOnce | whimo/transactions/services.py:209-227 | after a request every first-chain transaction without a location has a buyer and exactly one open request to that buyer |
| Notifications.EveryOriginIsAskedOnce | whimo/transactions/services.py:209-227 | after a request every producer in the ancestry that lacks a location has exactly one open request to its buyer |
| GeodataRequests.ShortfallIsAsked | whimo/transactions/services.py:209-227 | after an accept with a shortfall, a request on the sale leaves exactly one open request for the automatic row, to the seller |
| GeodataRequests.ProductionIsAskedIff | whimo/transactions/services.py:209-227 | a row entered by hand is a target exactly when its request had no location, and its plot is the request's coordinates |
| Notifications.RepeatAddsNothing | whimo/transactions/services.py:209-227 | an immediate repeat, by anyone, adds nothing |
| Notifications.GeodataSettlesRequests | whimo/transactions/services.py:171-227 | updating geodata takes exactly that transaction off the targets of every later request, whatever its root |
| Notifications.AnsweringKeepsRequests | whimo/notifications/services/notifications.py:78-97 | telling askers about new geodata opens and closes no request |
| Notifications.AskedOnColumns | whimo/notifications/services/notifications.py:79-87 | who is answered: every request for that transaction with a known author, open or read, once |
| Notifications.AnswersOnColumns | whimo/notifications/services/notifications.py:89-95 | each author gets one unread notification per request, from the user |
| Notifications.NotificationsService.FindOpenRequest | whimo/notifications/services/notifications.py:58-64 | finds an open request exactly when there is one |
| Notifications.NotificationsService.CreateFromTransaction | whimo/notifications/services/notifications.py:51-75 | stores the notification, unless an unread geodata request of that receiver for that transaction exists, and then returns one |
| Notifications.NotificationsService.CreateGeodataUpdated | whimo/notifications/services/notifications.py:78-97 | one notification for every past request with a known author, read or not |
| Notifications.NotificationsService.UpdateStatus | whimo/notifications/services/notifications.py:100-111 | only the receiver can mark an unread notification as read |
| Notifications.NotificationsService.RequestMissingGeodata | whimo/transactions/services.py:209-227 | after it every target has exactly one open request where there was at most one, and only targets without one got a new one |
| Pagination.PagesPartitionTheList | whimo/common/utils.py:17-53 | for any requested size, following next_page visits total_pages pages that concatenate to the list, and previous_page reverses the walk |
| Pagination.ForwardYieldsRest | whimo/common/utils.py:26-51 | from any page on, the walk yields exactly the rest of the list |
| Pagination.BackwardReversesForward | whimo/common/utils.py:44-51 | the two page links are inverse |
| Pagination.AnyPageIsOnTheWalk | whimo/common/utils.py:22-35 | any requested page, zero, negative or past the end, is a page of that walk |
| Pagination.EffectiveSize | whimo/common/utils.py:24-28 | sizes from 1 to 100 are used as they are, zero gives 20, negative ones 1 and larger ones 100 |
| Pagination.PageReport | whimo/common/utils.py:44-51 | what is reported: the list length, the size used, the number of pages on the walk, the page brought into range, and its neighbours |
| Pagination.PagesAreFull | whimo/common/utils.py:37-41 | every page but the last is full, and the last is empty for an empty list only |
| Counterexamples.SaleOfNothingHasNoOrigin | whimo/transactions/schemas/requests.py:61 | a zero-volume sale by a seller without purchases is accepted with an empty first chain |
| Counterexamples.PlansNoInputIff | whimo/transactions/services.py:316-324 | exactly the requests without a positive but with a non-zero input pass the all-zero guard and lose every input |
| Counterexamples.NegativeRecipeIsOne | whimo/transactions/services.py:316-324 | consuming minus one of a commodity is such a request, with fresh keys on the empty ledger |
| Counterexamples.OutputsComeFromNothing | whimo/transactions/services.py:316-324 | the outputs of such a request have an empty first chain and nothing is debited for them |
| Counterexamples.OverlapLosesOutput | whimo/transactions/services.py:350-354 | for all amounts, turning part of a harvest into the same commodity leaves the balance short of the rows by what was got |
| Counterexamples.OverlappingRecipeLosesOutput | whimo/transactions/services.py:350-354 | ten units, four turned into three of the same commodity: six remain where the rows book nine |
| Counterexamples.TieDrifts | whimo/db/models/conversions.py:84-88 | under every symmetric rounding, converting half a hundredth of a hundredth into something else leaves the balance a hundredth off its rows |
| Counterexamples.TieDriftsInARun | whimo/db/models/conversions.py:84-88 | a concrete run in which it does |
| Counterexamples.NegativeProductionOverdraws | whimo/transactions/services.py:96-99 | producing minus one on the empty ledger leaves a balance of minus one |
| Counterexamples.NegativeSaleDrainsBuyer | whimo/transactions/services.py:393-408 | a sale of a negative volume takes the goods from a buyer who has none |

## Left out

- Interleaving inside one call: creating a producer transaction takes no row lock and accept reads its row before its database transaction; the model takes each call as one step.
- Queryset laziness and SQL: a query is a filter on the table at the moment of the call.
- Duplicate balance rows: nothing in the schema forbids two rows for one user and commodity; the model keys balances by both.
- Column overflow: volumes over ten digits and the 28-digit decimal context are not modelled; stored volumes are unbounded integers.
- Floating-point division in the page count: total pages are an exact ceiling, which differs only for lists beyond 2^53 items.
- Provenance.RunIsSourced: assumes sound requests (positive stored sales, non-negative production and recipe inputs), because without them it is false; the exact conditions are those of `Exactness`, `FirstChains` and `Tracing`.
- Supply.SupplyIsConserved: assumes no ties and no lost credits; `Supply.SupplyIsConservedIff` is the exact condition.
- TransactionsService.LedgerService.DistributeOverSeasons: a negative batch size, which the source's slice refuses with an exception, is not modelled.
- Seasons.FirstMatch: the day of a creation time is its UTC day, and season ids are numbers in place of UUIDs.
- Invalid stored season ranges, season history and the updated-at columns: bookkeeping that no modelled step reads.
- Notifications sent by creating, accepting, rejecting and expiring: each is a plain insert already covered by the histories of `Notifications.Act`; push, e-mail and SMS delivery are input and output.
- Resending a notification and the level shown for a pending sale: single reads and inserts.
- Files, zip bundles, GeoJSON merging and CSV export: input and output around the modelled searches.
- The position columns of a transaction (not those of the farm): stored and never read by the modelled code.
- Recipient lookup and registration, authentication, profiles, gadgets, views, search filters, orderings and dashboards' single queries: they would add only easy members.
