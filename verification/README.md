# Commissions, sponsorship and provisioning: a verified model

This project models the part of the CRM backend whose logic is decided by its own code: the
commission ledger and its payout batches, the sponsor graph under it, the CoinGate paid claim
that feeds it, and the worker that provisions clients on the EasierProp platform and carries out
service commands there.

Each stateful component appears twice. A specification on values says what one call does to the
tables (`Ledger.Step`, `NetworkService.Step`, `Provisioning.Process`, the plans in
`ServiceControl`), and invariants and theorems over whole runs are proved about it. A class with
the source's fields and loops (`NetworkTables`, `PlanTable`, `QualificationTable`,
`CommissionEngine`, `CommissionService`, `CoinGateHandler`, `CommandWorker`, `ProvisionWorker`) is
proved to make exactly those steps.

- **Sponsor graph** (`SponsorGraph`, `NetworkService`, `DownlineTree`): links as a map from user to
  sponsor; the anti-cycle walk, the three places that write a link, and the downline view built
  in the heap.
- **Commission engine** (`Commissions`, `CommissionPlans`, `Qualification`, `Compression`,
  `CommissionEngine`): plans, month-frozen snapshots, the upline walk of at most 50 sponsors, and
  dynamic compression.
- **Ledger** (`CarryOver`, `Ledger`, `LedgerInvariant`, `LedgerTheorems`, `NegativeTotals`,
  `PayoutCsv`, `CsvText`, `PayoutService`): rows and batches under refunds, batch creation, export
  and mark-paid. The batch status that the source writes `"PAID"` is called `SETTLED`, since rows have a PAID of
  their own. Batch creation takes the set of rows that some earlier read found eligible, so two
  creations may interleave between read and attach.
- **CoinGate claim** (`CoinGateClaim`, `CoinGateWebhook`): one order under any interleaving of
  notifications, engine calls, reversals and other ledger calls, and the handler itself.
- **Service commands** (`ServiceWorld`, `ServiceControl`, `ServiceRecovery`, `ServiceCommands`):
  one user's records and the user's accounts on the platform, changed one write at a time. An interruption cuts a call short after any
  number of writes; a remote call that takes effect and still reports failure is a cut after it.
- **Provisioning** (`Provisioning`, `ProvisioningTermination`, `ProvisioningRecovery`,
  `ProvisioningInvariant`, `HedgeSync`, `HedgeAccounts`, `ServiceOutcomes`, `AccountIdentity`,
  `ServiceHistories`, `ProvisioningWorker`): the four stages, retries, admin actions, the hedge setup
  they keep and the accounts it trades on, what every call has done once it is through, whose account
  a stored id is, and histories in which a promise breaks.

Money is whole cents, rates are exact percentages, ids are positions in their table in order of
creation, and the current time is a parameter. Stored credentials are opaque.

## Where the code and its comments disagree

Each of these comes with its exact condition and with inputs, or a whole history, that meet it.

- A refund is documented to reverse an order's commissions for good. It does so exactly when the
  engine call of the paid claim is already over (`CoinGateClaim.RefundFinalIff`). A refund that
  overtakes that call, or the payment itself, is lost (`CoinGateClaim.RefundBeforeEngineIsLost`,
  `CoinGateClaim.RefundBeforePaymentIsLost`).
- Activation and commissions of a paid order are commented as happening once. They happen at most
  once: a handler that dies after its claim takes them with it, since no repeated notification can
  win the claim again (`CoinGateClaim.CommissionsStillComeIff`, `CoinGateClaim.DeadWinnerEarnsNothing`).
- The failure write of a provisioning step is commented as never clobbering an admin's reset. Its
  guard cannot see a retry that arrives during a first attempt (`ProvisioningRecovery.RetrySurvivesIff`,
  `ProvisioningRecovery.ReprovisionSurvivesIff`; `ServiceHistories.ResetsCanBeOverwritten`).
- Provisioning steps are commented as idempotent. They are, except that an interruption between
  issuing a key and storing it loses the key, and one between creating the hedge and completing the
  record leaves one archived hedge more (`ProvisioningRecovery.InterruptedRunsRecoverIff`;
  `ServiceHistories.KeysCanBeLost`).
- Executors are commented as safe to re-run. Deletion without an account listing is so exactly
  when hedge and provision agree on the accounts (`ServiceRecovery.UnlistedDeletionRecoversIff`),
  which every history keeps unless a command stops between its two writes
  (`HedgeSync.HistoriesKeepSyncIff`); that can happen (`ServiceHistories.SyncCanBreak`).
- Deletion is commented as removing every account under the key. Without the listing it does so
  exactly when the pair it falls back on is all there is
  (`ServiceRecovery.UnlistedDeletionLeavesNoneIff`); an added broker's account stays
  (`ServiceHistories.AccountsCanOutliveDeletion`).
- A replacement is commented as removing the replaced broker's account. If that broker was never
  registered it removes the hedge's instead, whose broker stays selectable, so that commands which
  all run to their end can leave the hedge on an account that is gone
  (`HedgeAccounts.WholeCommandKeepsAnchorIff`; `ServiceHistories.HedgesCanDangle`).
- Registration is commented as never aliasing prop and broker accounts, since it matches on login and
  server. It never does unless a client edits the login or the server of a row whose account is
  registered: the row keeps its id, and the next row under the old login is given the same account
  (`AccountIdentity.HistoriesKeepFaithfulIff`; `ServiceHistories.RenamesCanAlias`).
- An error between a transition and its audit event ends a worker run without counting an attempt,
  so the exact bound on runs is four times the attempt limit, and 4(MAX - 1) + 1 only without such
  errors (`ProvisioningTermination.BoundIsExact`).
- The export is commented as never summing currencies together. Its lines do not, but carry-over is
  settled against an agent's earnings in all currencies, so a line of a new batch is negative exactly
  when more is settled in its currency than attached in it (`LedgerTheorems.FreshLine`;
  `NegativeTotals.LinesTurnNegative`).
- Nothing stops a refund of commissions that a batch has netted against carry-over, so a paid batch
  can store a negative total (`PayoutService.PaidTotalNegativeIff`; `NegativeTotals.TotalsTurnNegative`).

## Model

| member | source | states |
|---|---|---|
| `NetworkService.AssertNoSponsorCycle` | src/utils/network.utils.ts:53-75 | the walk ends on every graph, loops included, and accepts a link if and only if it puts the user on no cycle; a user's own sponsorship is told apart |
| `SponsorGraph.ReachingClosesCycle` | src/utils/network.utils.ts:63-66 | meeting the user on the way up from the proposed sponsor means the link would close a cycle |
| `SponsorGraph.ClosedSetIsSafe` | src/utils/network.utils.ts:67-68 | stopping at an already visited sponsor is safe: a closed set that misses the user certifies the link |
| `SponsorGraph.NoNewCycle` | src/utils/network.utils.ts:47-52 | an accepted link puts nobody new on a cycle, whatever loops the graph already had |
| `NetworkService.NetworkTables.ProcessReferralOnRegistration` | src/modules/network/network.service.ts:281-345 | registration makes one step of the network: the new code replaces the user's earlier one, then the code's owner becomes the sponsor, or the user is organic, or a refusal leaves no link; nobody else changes |
| `NetworkService.NetworkTables.AssignUplineTo` | src/modules/network/admin.network.service.ts:363-395 | unknown users are refused before the check, the check before the write; an accepted call makes the upline the orphan's sponsor, and changes nobody else |
| `NetworkService.NetworkTables.ChangeUplineTo` | src/modules/network/admin.network.service.ts:476-513 | the same for a change of sponsor, which leaves the registration source alone |
| `NetworkService.LinkIsWritten` | src/modules/network/admin.network.service.ts:363-513 | an assignment or a change is accepted exactly if both users exist and the link closes no cycle; accepted, it makes the proposed sponsor that user's, and whatever the verdict no other user and no code changes |
| `NetworkService.RegistrationWrites` | src/modules/network/network.service.ts:281-345 | after a registration the new code is the user's only one and other users keep theirs; the user is sponsored by the owner of the code given, or is organic when nobody else has it |
| `NetworkService.WriteLinkKeepsCyclesOut` | src/modules/network/admin.network.service.ts:385-395 | whoever is on a cycle after a checked write was on one before it |
| `NetworkService.StepAddsNoCycle` | src/modules/network/network.service.ts:297-309 | the same for every service call |
| `NetworkService.RunAddsNoCycle` | src/modules/network/admin.network.service.ts:502-513 | over any run of registrations and upline changes no user joins a cycle, and a forest stays a forest |
| `NetworkService.RefusedLinkWouldClose` | src/utils/network.utils.ts:58-66 | no harmless link is refused: the refused one would have closed a cycle through the user |
| `DownlineTree.ReferralsOf` | src/modules/network/network.service.ts:70-79 | one level of the recursive query: exactly the users sponsored by the level before, each once |
| `DownlineTree.ExpandDownline` | src/modules/network/network.service.ts:55-82 | the expansion ends for every root on no cycle, with exactly the descendants at their distances |
| `DownlineTree.LoopNeverEnds` | src/modules/network/network.service.ts:56-80 | for a root on a cycle no level is ever empty, so the query would not end |
| `DownlineTree.CreateNodes` | src/modules/network/network.service.ts:97-106 | one new node per row, with the row's id and level and no children |
| `DownlineTree.LinkNodes` | src/modules/network/network.service.ts:108-120 | the second pass puts every node under its own sponsor, once |
| `DownlineTree.GetMyTree` | src/modules/network/network.service.ts:37-123 | an unknown user is refused; otherwise the heap tree holds a user at level l if and only if the root is the user's l-th sponsor, and nobody twice |
| `DownlineTree.DownlineTreeIsExact` | src/modules/network/network.service.ts:55-122 | any tree that holds under each node exactly its referrals is complete, sound and without repeats |
| `DownlineTree.TreeIsComplete` | src/modules/network/network.service.ts:108-120 | membership in the tree at a level is being that many links below the top |
| `DownlineTree.TreeHasNoRepeats` | src/modules/network/network.service.ts:94-106 | off a cycle no user is shown twice |
| `Commissions.RoundMoney` | src/modules/commission/commission.service.ts:723 | half-up to the cent: the error is above -1/2 and at most 1/2 cent |
| `Commissions.RoundMoneyKeepsCents` | src/modules/commission/commission.service.ts:528-567 | sums and differences of whole cents are left alone, so the running sums are plain sums |
| `CommissionPlans.ValidateLevels` | src/modules/commission/commission.service.ts:344-354 | no problem if and only if the plan is acceptable, and otherwise the problem found first |
| `CommissionPlans.HasDuplicates` | src/modules/commission/commission.service.ts:345-346 | comparing the set of levels with their count detects exactly the repeated levels |
| `CommissionPlans.GoodIsKept` | src/modules/commission/commission.service.ts:347-370 | a level is accepted if and only if it can be stored unchanged: its number, its rate, and its threshold, whole and zero if omitted |
| `CommissionPlans.SortLevels` | src/modules/commission/commission.service.ts:372 | the levels as read back: the stored levels and no others, in strictly ascending order |
| `CommissionPlans.PlanTable.UpsertPlan` | src/modules/commission/commission.service.ts:336-375 | accepts exactly the acceptable plans and stores each level as given; an active one deactivates all others; a refusal changes nothing |
| `CommissionPlans.ActivePlanIsUnique` | src/modules/commission/commission.service.ts:38-42 | "the first active plan" is the active plan, since there is one at most |
| `Qualification.QualificationTable.GetOrCreateSnapshot` | src/modules/commission/qualification.service.ts:41-70 | a snapshot is written once: the existing row, else the live count or a concurrent insert's row; an error, with nothing written, exactly when the insert fails and no row is there; no row is ever rewritten |
| `Qualification.QualificationTable.SnapshotAllSponsors` | src/modules/commission/qualification.service.ts:76-93 | freezes every sponsor, counts the rows it made, and makes none the second time |
| `Qualification.FlagsFollowThePlan` | src/modules/commission/commission.service.ts:61-65 | a snapshot's two flags compare the live count with the plan's own thresholds of levels 2 and 3, or with 3 and 5 where the plan has no such level |
| `Compression.WalkUpline` | src/modules/commission/commission.service.ts:44-58 | the chain follows sponsor links, has no repeats, excludes the payer, stops at 50 and is the only such maximal chain |
| `Compression.UplineIsUnique` | src/modules/commission/commission.service.ts:44-58 | the description of the chain leaves no freedom |
| `Compression.UplineOnForest` | src/modules/commission/commission.service.ts:44-58 | without cycles the chain is exactly the first 50 ancestors |
| `Compression.FirstQualified` | src/modules/commission/commission.service.ts:90-102 | the first qualified sponsor from an index upwards, or none if there is none |
| `Compression.LevelPaysFirstQualified` | src/modules/commission/commission.service.ts:82-119 | a level pays the first qualified sponsor at or above its own and nobody otherwise; the audit fields record exactly whether the natural one was skipped |
| `Compression.RowRecordsPayment` | src/modules/commission/commission.service.ts:82-119 | a level makes a row exactly if it pays somebody, and the row is the payment's and the level's own data with the share rounded to the cent |
| `Compression.RowsAreTheLevelsRows` | src/modules/commission/commission.service.ts:81-120 | the rows of a payment are those of its levels, all of them and no others |
| `Compression.RowsHaveDistinctLevels` | src/modules/commission/commission.service.ts:82-120 | one row per level at most, in ascending order |
| `Compression.CompressionMonotone` | src/modules/commission/commission.service.ts:82-103 | qualifying more sponsors never drops a paid level nor moves its beneficiary further from the payer |
| `Compression.DistributionMonotone` | src/modules/commission/commission.service.ts:81-120 | ... and never lowers the total distributed |
| `Compression.DistributionBound` | src/modules/commission/commission.service.ts:105 | each row lies between 0 and the payment, and the total is within half a cent a row, ten cents in all, of the exact share |
| `Compression.FrozenMonth` | src/modules/commission/qualification.service.ts:46-62 | a later payment in the same period over the same upline and plan pays the same sponsor at every level, however subscriptions moved |
| `CommissionEngine.SamePayeesAllMonth` | src/modules/commission/commission.service.ts:61-119 | frozen month at the level of the rows: a later payment of the client in the period credits the same sponsors at every level, compressed in the same way |
| `CommissionEngine.CountDecides` | src/modules/commission/commission.service.ts:69-79 | who qualifies: by the live count against the level's own threshold where no snapshot is there yet, else by the row's flag at levels 2 and 3 and by its count at the others |
| `CommissionEngine.PaymentEarnsIff` | src/modules/commission/commission.service.ts:31-122 | a payment makes rows if and only if it has a reference, a positive amount and no rows yet, and some level of the active plan pays somebody |
| `CommissionEngine.RowsCreditTheSponsors` | src/modules/commission/commission.service.ts:81-120 | each level's row credits the sponsor the level pays, with the payment's data, and a level that pays nobody has none |
| `CommissionEngine.FreshMonthPays` | src/modules/commission/commission.service.ts:61-119 | in a fresh month a level pays exactly the first sponsor from the natural one upwards with as many active directs as the level asks for |
| `CommissionEngine.CommissionEngine.QualifiesFor` | src/modules/commission/commission.service.ts:67-79 | the cached check agrees with the snapshot table as it stood when the call began, and freezes what it consults |
| `CommissionEngine.CommissionEngine.FindBeneficiary` | src/modules/commission/commission.service.ts:83-103 | the compression loop finds the specified beneficiary |
| `CommissionEngine.CommissionEngine.DistributeLevels` | src/modules/commission/commission.service.ts:81-120 | the loop over the plan makes exactly the specified rows, leaves every consulted snapshot frozen and freezes no other |
| `CommissionEngine.CommissionEngine.ProcessPayment` | src/modules/commission/commission.service.ts:31-122 | nothing for a payment without reference, amount, plan or upline, or with rows already; otherwise the specified rows |
| `CommissionEngine.EngineInsertsExactly` | src/modules/commission/commission.service.ts:124-125 | no duplicate is skipped: all rows computed are inserted |
| `CommissionEngine.NoneSkipped` | prisma/schema.prisma:448-451 | with no row of the payment present, rows of distinct levels never meet the unique key |
| `CommissionEngine.PaymentDistributesOnce` | src/modules/commission/commission.service.ts:34-36 | a payment that has rows is never distributed again, whatever changed since |
| `CarryOver.GreedyIsSafeAndMaximal` | src/modules/commission/commission.service.ts:547-558 | greedy settlement never overdraws an agent, and every reversal it leaves is larger than what the agent has left |
| `CarryOver.GreedySettlesIff` | src/modules/commission/commission.service.ts:547-558 | a reversal is settled if and only if the agent's earnings still cover it after the older ones of the agent that are settled: there is no other choice |
| `CarryOver.GreedyPicksFromOrder` | src/modules/commission/commission.service.ts:550-554 | only listed reversals are settled, each once |
| `Ledger.InsertAddsNewKeys` | src/modules/commission/commission.service.ts:124-125 | skipping duplicates adds exactly the first offered row of each payment and level that the table lacks, in the order offered |
| `LedgerInvariant.StepKeepsInv` | src/modules/commission/commission.service.ts:172-705 | every call keeps: batch totals equal the sums of their rows, unique keys, and what each row's status says about its batches |
| `LedgerInvariant.ReachableInv` | src/modules/commission/commission.service.ts:172-705 | every reachable state satisfies that invariant |
| `LedgerInvariant.CreateKeepsInv` | src/modules/commission/commission.service.ts:513-572 | batch creation keeps it, for any stale list of eligible rows |
| `LedgerInvariant.RefundKeepsInv` | src/modules/commission/commission.service.ts:172-187 | a refund keeps it, before or after payment |
| `LedgerInvariant.PayKeepsTotals` | src/modules/commission/commission.service.ts:676-705 | detach-and-recompute at mark-paid leaves every batch's total equal to its rows |
| `LedgerTheorems.CashIsConserved` | src/modules/commission/commission.service.ts:172-705 | after any run, cash sent to an agent equals the agent's PAID rows plus reversed-after-payout rows not yet recovered by a paid batch, in total and per currency |
| `LedgerTheorems.BalancesReconcile` | src/modules/commission/commission.service.ts:247-282 | the balances shown reconcile with the cash: paid, plus negative carry-over, plus carry-over in a batch on its way |
| `LedgerTheorems.PaidBatchesAreTheCash` | src/modules/commission/commission.service.ts:699-702 | the stored totals of paid batches add up to all cash ever sent |
| `LedgerTheorems.OneBatchEver` | src/modules/commission/commission.service.ts:519-564 | a row is attached to one batch at most in its life and deducted in at most one, created later; REVERSED is final and PAID implies a paid batch |
| `LedgerTheorems.RunEvolves` | src/modules/commission/commission.service.ts:177-187 | how any row and any batch may differ between two states of a run |
| `LedgerTheorems.RefundIsFinal` | src/modules/commission/commission.service.ts:167-187 | once all rows of a payment are reversed they stay so in every run that accrues nothing more for it |
| `LedgerTheorems.SettlementIsSafeAndMaximal` | src/modules/commission/commission.service.ts:525-567 | in a batch no agent is charged more than the batch brings, and every reversal left is larger than the agent's remainder |
| `LedgerTheorems.CreationWrites` | src/modules/commission/commission.service.ts:501-575 | a batch creation is refused exactly if no offered row is earned and free; otherwise it adds one open batch over the given period, attaches those rows, deducts the settled ones and changes nothing else |
| `LedgerTheorems.SettlesOldestFirst` | src/modules/commission/commission.service.ts:534-558 | the candidates are the unsettled reversals of the agents paid, oldest first, and each is deducted exactly if what the batch brings its agent covers it after the older ones |
| `LedgerTheorems.FreshLine` | src/modules/commission/commission.service.ts:526-643 | what a new batch will pay an agent in a currency is what it brings in it less what it settles in it, so the line is negative exactly when it settles more |
| `LedgerTheorems.FreshAgentIsCovered` | src/modules/commission/commission.service.ts:547-567 | over all currencies together no agent of a new batch owes money |
| `LedgerTheorems.OneCurrencyIsCovered` | src/modules/commission/commission.service.ts:621-643 | and no line is negative if the agent's attached rows and unsettled reversals are all in one currency |
| `LedgerTheorems.PaidTotalDropsReversals` | src/modules/commission/commission.service.ts:689-697 | the recomputed total is the stored one less exactly the rows reversed since creation |
| `PayoutService.CreationTotalNonNegative` | src/modules/commission/commission.service.ts:566-572 | no batch is created with a negative total |
| `PayoutService.PaidTotalNegativeIff` | src/modules/commission/commission.service.ts:694-702 | mark-paid stores a negative total exactly when more than the stored total was reversed in between |
| `NegativeTotals.TotalsTurnNegative` | src/modules/commission/commission.service.ts:547-702 | a history from empty tables that ends in a paid batch with a total of any negative amount |
| `NegativeTotals.LinesTurnNegative` | src/modules/commission/commission.service.ts:547-643 | a history from empty tables to a new batch of total 0 whose export pays an agent any negative sum in EUR |
| `NegativeTotals.SecondBatch` | src/modules/commission/commission.service.ts:513-572 | its turning point: a reversal settled against one new commission of the same amount, for a total of 0 |
| `PayoutService.CommissionService.ProcessPaymentCommissions` | src/modules/commission/commission.service.ts:31-165 | the call appends the engine's rows, reports their number, and does nothing for a payment seen before |
| `PayoutService.CommissionService.ReverseCommissionsForPayment` | src/modules/commission/commission.service.ts:172-199 | one ledger step; every row of the payment that is not reversed yet becomes REVERSED, flagged if it was paid, no other row changes, and the count is that of the rows changed |
| `PayoutService.CommissionService.FindEligible` | src/modules/commission/commission.service.ts:503-510 | the loop finds exactly the unattached earned rows of the period, and an attach with no call in between changes exactly the rows found |
| `PayoutService.CommissionService.GroupByAgent` | src/modules/commission/commission.service.ts:525-532 | each agent with attached rows once, with the sum of those rows |
| `PayoutService.CommissionService.FindCarryOvers` | src/modules/commission/commission.service.ts:537-545 | exactly the unsettled reversals of these agents, oldest first |
| `PayoutService.CommissionService.SettleGreedily` | src/modules/commission/commission.service.ts:547-558 | the loop settles the greedy choice and adds up its amounts |
| `PayoutService.CommissionService.CreateFromEligible` | src/modules/commission/commission.service.ts:513-575 | over any stale read: fails and changes nothing exactly when no row can be attached any more, otherwise one ledger step that adds one open batch over the period and attaches exactly the offered rows that are still free |
| `PayoutService.CommissionService.CreatePayoutBatch` | src/modules/commission/commission.service.ts:501-575 | fails exactly when the period has no unpaid commission; otherwise the new batch has exactly the earned rows of the period that are in no batch |
| `PayoutService.CommissionService.ExportPayoutBatchCsv` | src/modules/commission/commission.service.ts:611-664 | the text reads back as the header and one record per agent and currency; only an open batch changes state |
| `PayoutService.CommissionService.MarkPayoutBatchPaid` | src/modules/commission/commission.service.ts:671-705 | unknown and already paid batches are refused; otherwise one ledger step, what becomes of each row and of the batch, the exact number of detached rows, and whether the total changed |
| `PayoutService.CommissionService.DetachReversed` | src/modules/commission/commission.service.ts:679-682 | exactly the reversals that were never paid out leave the batch |
| `PayoutService.CommissionService.PayAttached` | src/modules/commission/commission.service.ts:684-695 | the earned rows of the batch become PAID, and the two sums are those of what was paid and deducted |
| `PayoutService.CommissionService.GetAgentBalances` | src/modules/commission/commission.service.ts:247-290 | the balances as sums over the agent's rows, how they relate, and the credit of every month in which the agent has rows |
| `PayoutService.RowsShownOnce` | src/modules/commission/commission.service.ts:247-283 | accrued and paid together count every row of the agent that is not reversed, once |
| `PayoutService.MonthsAddUp` | src/modules/commission/commission.service.ts:262-280 | the monthly credits add up to the all-time figure |
| `PayoutCsv.GroupKeepsSum` | src/modules/commission/commission.service.ts:622-643 | grouping loses and invents nothing |
| `PayoutCsv.GroupLines` | src/modules/commission/commission.service.ts:622-643 | one line per agent and currency, holding exactly its rows |
| `PayoutCsv.KeyIsInjective` | src/modules/commission/commission.service.ts:624 | the composed key determines agent and currency |
| `PayoutCsv.ExportAgreesWithPayment` | src/modules/commission/commission.service.ts:621-701 | the exported lines add up to exactly the total mark-paid would store next |
| `PayoutCsv.LineAgreesWithPayment` | src/modules/commission/commission.service.ts:636-696 | line by line: the amount exported for an agent and currency is the cash mark-paid books for them |
| `PayoutCsv.EntriesDescribeRows` | src/modules/commission/commission.service.ts:616-643 | every line is about a row of the batch, with that agent's name, mail address and payout reference and that row's currency, and every row of the batch has its line |
| `PayoutCsv.RecordsTellThePayment` | src/modules/commission/commission.service.ts:621-663 | the text reads back as the header and one record per agent and currency: name, mail address, reference, currency, and as total the cash that mark-paid books |
| `PayoutCsv.BuildEntries` | src/modules/commission/commission.service.ts:636-643 | the two loops build the specified lines (`PayoutCsv.EntriesDescribeRows` says what they hold) |
| `CsvText.CsvRoundTrip` | src/modules/commission/commission.service.ts:645-663 | an RFC 4180 (section 2) reader returns exactly the header and the lines, for arbitrary text in every field |
| `CsvText.RecordsAreTheLines` | src/modules/commission/commission.service.ts:646-656 | every record holds the neutralised fields of its line, and no text field starts a formula |
| `CsvText.EscapeQuotesNeutralised` | src/modules/commission/commission.service.ts:646-650 | doubling quotes first hides no formula character |
| `CsvText.TotalReadsBack` | src/modules/commission/commission.service.ts:655 | the printed total reads back to the cent, negative ones included |
| `CoinGateClaim.AtMostOnce` | src/webhooks/coingate.webhook.ts:44-59 | under every interleaving at most one notification wins the claim, at most one engine call inserts rows, and a paid status is final |
| `CoinGateClaim.PaidNeverChanges` | src/webhooks/coingate.webhook.ts:46-53 | no later notification downgrades a paid order |
| `CoinGateClaim.RefundFinalIff` | src/webhooks/coingate.webhook.ts:71-109 | after a reversal no row of the order is ever EARNED or PAID again if and only if the claim's engine call had already run, or died with its handler |
| `CoinGateClaim.LateEngineRevives` | src/webhooks/coingate.webhook.ts:95-109 | otherwise some continuation earns a commission after the refund |
| `CoinGateClaim.RefundBeforeEngineIsLost` | src/webhooks/coingate.webhook.ts:71-109 | from a fresh order: paid, refunded, reversed, and then the engine call leaves a live commission |
| `CoinGateClaim.RefundBeforePaymentIsLost` | src/webhooks/coingate.webhook.ts:44-109 | so does a refund notification that is handled whole before the paid one |
| `CoinGateClaim.CommissionsStillComeIff` | src/webhooks/coingate.webhook.ts:44-105 | an order without commissions can still earn some if and only if it is not paid yet or its winner's engine call is still to come |
| `CoinGateClaim.DeadWinnerEarnsNothing` | src/webhooks/coingate.webhook.ts:54-105 | a winner that dies before its engine call leaves a paid order that earns nobody anything, however often the notification is repeated |
| `CoinGateClaim.PaidThenRefunded` | src/webhooks/coingate.webhook.ts:71-109 | handlers one after another: a refund after the payment is final |
| `CoinGateClaim.HandleEffects` | src/webhooks/coingate.webhook.ts:44-109 | what one handler call does to the order's status and to the ledger |
| `CoinGateWebhook.CoinGateHandler.HandleCoinGateIpn` | src/webhooks/coingate.webhook.ts:15-112 | 400, 404 and 401 exactly in their cases and without effect; otherwise the claim with its dated history entry and CoinGate id, the activation with its period, and the ledger step |
| `CoinGateWebhook.NotificationEffects` | src/webhooks/coingate.webhook.ts:44-109 | the claim is won by `paid` or `confirmed` on an order that is neither yet, and credits the sponsors for this order, its amount and its currency; `refunded` reverses; anything else moves the status only |
| `CoinGateWebhook.ActivationExtends` | src/webhooks/coingate.webhook.ts:72-93 | a paid period of 365 or 30 days begins when the active one ends, or at once |
| `CoinGateWebhook.RenewalsAddUp` | src/webhooks/coingate.webhook.ts:75-93 | however early each is made, renewals in time add up to the days paid for |
| `ServiceWorld.EnsureIsIdempotent` | src/modules/provisioning/service-control.service.ts:478-493 | registering finds itself again and never makes two accounts with one login and server |
| `ServiceWorld.Store.FindMatch` | src/modules/provisioning/service-control.service.ts:485-490 | the first listed account with this login on this server |
| `ServiceWorld.Store.EnsureEpAccount` | src/modules/provisioning/provisioning.service.ts:240-256 | lists, then registers only what is missing; 409 at the cap |
| `ServiceRecovery.RotationRecovers` | src/modules/provisioning/service-control.service.ts:314-349 | a rotation cut short anywhere, run again, ends where an uninterrupted one does, with nothing registered twice |
| `ServiceRecovery.ReplaceRecovers` | src/modules/provisioning/service-control.service.ts:367-405 | the same for a broker replacement, although its re-run reads other records |
| `ServiceRecovery.AddRecovers` | src/modules/provisioning/service-control.service.ts:423-437 | the same for a broker addition |
| `ServiceRecovery.SetHedgeRecovers` | src/modules/provisioning/service-control.service.ts:448-467 | the same for a hedge-broker selection |
| `ServiceRecovery.InterruptionsLeaveNoTrace` | src/modules/provisioning/service-control.service.ts:59-69 | any number of interruptions, anywhere, then one whole run: the state of a single uninterrupted run, and still no account twice |
| `ServiceRecovery.ListedDeletionRecovers` | src/modules/provisioning/service-control.service.ts:260-293 | after any number of interrupted attempts, each with or without the listing, a deletion that lists the accounts ends where one uninterrupted run does, and no account is left |
| `ServiceRecovery.UnlistedDeletionRecoversIff` | src/modules/provisioning/service-control.service.ts:266-293 | without it, re-running after any number of interruptions ends in the same place if and only if the provision names no account the hedge does not, save those already gone |
| `ServiceRecovery.UnlistedDeletionLeavesNoneIff` | src/modules/provisioning/service-control.service.ts:263-286 | a deletion without the listing leaves no account if and only if every registered one is in the pair it falls back on |
| `ServiceRecovery.InterruptedDeletionLeavesNoneIff` | src/modules/provisioning/service-control.service.ts:263-286 | the same after any number of interruptions where the fallback lists agree |
| `ServiceRecovery.AddedBrokerOutlivesDeletion` | src/modules/provisioning/service-control.service.ts:263-302 | the account of a broker added besides the hedged one outlives such a deletion, and no row names it any more |
| `ServiceCommands.CompletedIsOneRun` | src/modules/provisioning/service-control.service.ts:92-132 | a sync command that ends COMPLETED has done exactly one uninterrupted run, however many attempts threw or died |
| `ServiceCommands.CompletedDeletionIsOneRun` | src/modules/provisioning/service-control.service.ts:260-293 | a DELETE that ends COMPLETED on an attempt that could list the accounts has done exactly one uninterrupted deletion, whatever the attempts before it could list |
| `ServiceCommands.FailuresAreCounted` | src/modules/provisioning/service-control.service.ts:134-172 | every failure is counted and there are at most MAX of them; attempts that die with the worker are not counted |
| `ServiceCommands.FinalRowsStay` | src/modules/provisioning/service-control.service.ts:92-94 | a COMPLETED or FAILED command is never touched again |
| `ServiceCommands.RequeuedAndFinished` | src/modules/provisioning/service-control.service.ts:59-69 | a command left RUNNING becomes due at once when it is requeued, and its next attempt can finish it |
| `ServiceCommands.CanStillCompleteIff` | src/modules/provisioning/service-control.service.ts:58-172 | whatever attempts threw or died before, a sync command can still complete, as one uninterrupted run, if and only if it is not FAILED |
| `ServiceCommands.CommandWorker.ExecutePropRotation` | src/modules/provisioning/service-control.service.ts:314-364 | the executor makes its plan's writes in order, up to the interruption (a whole run: `ServiceOutcomes.RotationOutcome`) |
| `ServiceCommands.CommandWorker.ExecuteBrokerReplace` | src/modules/provisioning/service-control.service.ts:367-420 | the same; the account removed is the replaced broker's or else the hedge's (a whole run: `ServiceOutcomes.ReplacementOutcome`) |
| `ServiceCommands.CommandWorker.ExecuteBrokerAdd` | src/modules/provisioning/service-control.service.ts:423-445 | the same (a whole run: `ServiceOutcomes.AdditionOutcome`) |
| `ServiceCommands.CommandWorker.ExecuteSetHedgeBroker` | src/modules/provisioning/service-control.service.ts:448-475 | the same; archived and unregistered brokers are refused (a whole run: `ServiceOutcomes.SelectionOutcome`) |
| `ServiceCommands.CommandWorker.ExecuteDelete` | src/modules/provisioning/service-control.service.ts:260-308 | the same, over the listing or its fallback (a whole run: `ServiceOutcomes.DeletionOutcome`) |
| `ServiceCommands.CommandWorker.ExecuteStart` | src/modules/provisioning/service-control.service.ts:191-209 | the live hedge becomes active; without one the command is refused (a whole run: `ServiceOutcomes.StatusOutcome`) |
| `ServiceCommands.CommandWorker.ExecuteStop` | src/modules/provisioning/service-control.service.ts:212-252 | a client entitled again is left alone; otherwise the live hedge is paused (a whole run: `ServiceOutcomes.StatusOutcome`) |
| `ServiceCommands.CommandWorker.ProcessServiceCommand` | src/modules/provisioning/service-control.service.ts:92-132 | one attempt on world and row: COMPLETED exactly if every write was made, RUNNING exactly after a crash, and otherwise one failure more |
| `ServiceCommands.CommandWorker.HandleCommandFailure` | src/modules/provisioning/service-control.service.ts:134-172 | FAILED on a conflict or the last attempt, otherwise PENDING and due after 1 min, 5 min, 15 min, 1 h or 6 h |
| `ServiceOutcomes.RegistrationRefusedIff` | src/modules/provisioning/service-control.service.ts:478-493 | registering fails exactly if no account with the row's login and server is listed and the cap is reached |
| `ServiceOutcomes.RotationOutcome` | src/modules/provisioning/service-control.service.ts:314-349 | after a rotation the new row is registered under its own login and server, the account the provision named is gone, provision and live hedge name the new row and its account, and nothing else has changed |
| `ServiceOutcomes.ReplacementOutcome` | src/modules/provisioning/service-control.service.ts:367-405 | the same for a replacement; the account gone is the replaced row's, or else the one the live hedge was on |
| `ServiceOutcomes.AdditionOutcome` | src/modules/provisioning/service-control.service.ts:423-437 | after an addition the row is registered under its own login and server and holds the id; nothing else has changed |
| `ServiceOutcomes.SelectionOutcome` | src/modules/provisioning/service-control.service.ts:448-467 | after a selection live hedge and provision point at the broker's account |
| `ServiceOutcomes.StatusOutcome` | src/modules/provisioning/service-control.service.ts:191-243 | starting makes the live hedge active, stopping pauses it unless the client is entitled again |
| `ServiceOutcomes.DeletionOutcome` | src/modules/provisioning/service-control.service.ts:260-293 | a deletion removes every account, or exactly the pair it falls back on; no row names one any more, the live hedge is archived, the record decommissioned |
| `ServiceOutcomes.CommandRefusedIff` | src/modules/provisioning/service-control.service.ts:178-458 | when each command is refused, and when with a conflict |
| `AccountIdentity.HistoriesKeepFaithfulIff` | src/modules/provisioning/service-control.service.ts:482-492 | over any history, cut short anywhere, every stored id that is registered carries the login and server of the row that stores it, and the live hedge trades on the accounts of the rows it names, if and only if no edit renames a row whose account is registered |
| `AccountIdentity.EditKeepsFaithfulIff` | src/modules/broker/broker.service.ts:175-206 | the exact edits that break it |
| `AccountIdentity.SharedAccountSharedName` | src/modules/provisioning/service-control.service.ts:483-484 | while it holds, prop and broker rows never alias: rows that store one registered account have one login and one server |
| `AccountIdentity.WholeCommandSharesNothing` | src/modules/provisioning/service-control.service.ts:314-475 | so after a rotation, a replacement, an addition or any other whole command rows that differ in login or server share no registered account |
| `AccountIdentity.HedgeTradesTwoAccounts` | src/modules/provisioning/service-control.service.ts:483-484 | and a hedge over rows that differ never trades one account against itself |
| `AccountIdentity.RenamedRowIsAliased` | src/modules/prop/prop.service.ts:124-161 | renaming a registered row and adding one under its old login gives both rows one account |
| `Provisioning.StageCut` | src/modules/provisioning/provisioning.service.ts:127-212 | a stage cut short has either not moved the record or made all its work and its transition |
| `ProvisioningTermination.ProvisioningTerminates` | src/modules/provisioning/provisioning.service.ts:89-121 | without an admin 4 MAX runs reach a terminal status, 4(MAX - 1) + 1 if no error falls between a transition and its report; the scheduled delay is at most four stages' backoff, 4 x 4860 s for MAX 5 |
| `ProvisioningTermination.DyingRunsAreFree` | src/modules/provisioning/provisioning.service.ts:275-330 | the bounds hold with any number of crashed runs in between |
| `ProvisioningTermination.RunDecreases` | src/modules/provisioning/provisioning.service.ts:275-330 | each run pays for itself in stages and attempts left, and for the delay it schedules |
| `ProvisioningTermination.BoundIsExact` | src/modules/provisioning/provisioning.service.ts:479-491 | both bounds are exact for any new record that could complete: some 4 MAX - 1 failing runs leave it unfinished, and so do some 4(MAX - 1) without late errors; no longer lists do |
| `ProvisioningTermination.SlowestSchedule` | src/modules/provisioning/provisioning.service.ts:275-330 | from any record the errors can be timed to use up every attempt and one late error per stage |
| `ProvisioningTermination.SlowestPunctualSchedule` | src/modules/provisioning/provisioning.service.ts:275-330 | the slowest schedule in which no error falls between a transition and its report |
| `ProvisioningTermination.DelayForFive` | src/modules/provisioning/provisioning.service.ts:11-12 | the four delays of one stage add up to 4860 s when MAX is 5 |
| `ProvisioningRecovery.RunRecoversIff` | src/modules/provisioning/provisioning.service.ts:123-212 | a run interrupted after any write, retried if it failed, and run again completes in the same state if and only if no key was lost, and with the same archived hedges if and only if the hedge was not made twice either |
| `ProvisioningRecovery.InterruptedRunsRecoverIff` | src/modules/provisioning/provisioning.service.ts:85-121 | after any number of interruptions the record completes in the same state if and only if none lost a key, and with the same archived hedges if and only if moreover none made the hedge twice |
| `ProvisioningRecovery.InterruptedRunsLeave` | src/modules/provisioning/provisioning.service.ts:85-143 | and it always completes: with exactly one issued key more for every key lost, and exactly one archived hedge more for every hedge made twice |
| `ProvisioningRecovery.FailureThenRetry` | src/modules/provisioning/provisioning.service.ts:337-357 | failing and then retrying restores the record the step started from, status and ids |
| `ProvisioningRecovery.RetrySurvivesIff` | src/modules/provisioning/provisioning.service.ts:312-323 | a retry during a failing step survives its failure write if and only if the step had failed before |
| `ProvisioningRecovery.ReprovisionSurvivesIff` | src/modules/provisioning/provisioning.service.ts:283-294 | a reprovision survives it if and only if the attempt count or the status tells the rows apart |
| `ProvisioningRecovery.EnoughWrites` | src/modules/provisioning/provisioning.service.ts:89-121 | a run that is never interrupted is the recursion over the stages |
| `ProvisioningInvariant.EventsKeepInv` | src/modules/provisioning/provisioning.service.ts:127-400 | over any history of worker, command, trigger and admin calls, cut short anywhere: a stored key stays, a status implies its ids, and at most one hedge is alive, only for a provisioned user |
| `ProvisioningInvariant.EveryHistoryKeepsInv` | src/modules/provisioning/provisioning.service.ts:25-53 | the same from a user without any record |
| `ProvisioningInvariant.RunKeepsInv` | src/modules/provisioning/provisioning.service.ts:89-121 | one worker run keeps it, wherever it stops |
| `ProvisioningInvariant.CommandIsAllowed` | src/modules/provisioning/service-control.service.ts:191-475 | no command revives an archived hedge or decommissions a user with a live one |
| `ProvisioningInvariant.NothingIsRegisteredTwice` | src/modules/provisioning/service-control.service.ts:482-492 | over any history, cut short anywhere, no login is registered twice on a server |
| `ProvisioningInvariant.RunKeepsUnique` | src/modules/provisioning/provisioning.service.ts:236-256 | one worker run keeps that, wherever it stops |
| `ProvisioningInvariant.CommandKeepsUnique` | src/modules/provisioning/service-control.service.ts:322-491 | so does one command |
| `HedgeSync.InterruptionBreaksSyncIff` | src/modules/provisioning/service-control.service.ts:340-349 | hedge and provision come apart exactly when a rotation, replacement or selection stops between its two writes and points at a new account |
| `HedgeSync.CutKeepsSyncIff` | src/modules/provisioning/service-control.service.ts:191-475 | every one of the seven commands, cut short anywhere, keeps them together if and only if it is not that case |
| `HedgeSync.WholeCommandsKeepSync` | src/modules/provisioning/service-control.service.ts:399-467 | so every command that finishes keeps them together |
| `HedgeSync.HistoriesKeepSyncIff` | src/modules/provisioning/provisioning.service.ts:186-212 | over any history of worker, command, trigger and admin calls, each cut short anywhere, the live hedge points where the provision does after every event if and only if no event is that case |
| `HedgeSync.SyncIsRestored` | src/modules/provisioning/service-control.service.ts:59-69 | running the interrupted command again brings them back together |
| `HedgeSync.TendedHistoriesEndInSync` | src/modules/provisioning/service-control.service.ts:59-69 | a history in which each such command is repeated until it finishes ends with them together |
| `HedgeSync.InSyncFallbackAgrees` | src/modules/provisioning/service-control.service.ts:269-274 | while they are together the two fallback lists of a deletion name the same accounts |
| `HedgeSync.ApartRotationBreaksFallback` | src/modules/provisioning/service-control.service.ts:328-349 | a rotation that takes them apart leaves a registered account that only the provision names |
| `HedgeSync.DeletionRecoversAfterSync` | src/modules/provisioning/service-control.service.ts:260-293 | after any history without that case a deletion recovers from every interruption even without the listing |
| `HedgeAccounts.CommandKeepsAnchorIff` | src/modules/provisioning/service-control.service.ts:191-475 | every command, cut short anywhere, leaves the live hedge on two registered accounts unless it stops between removing the hedge's account and moving or archiving the hedge, removes the account on its other side, or selects one that is gone |
| `HedgeAccounts.WholeCommandKeepsAnchorIff` | src/modules/provisioning/service-control.service.ts:314-475 | a command that runs to its end fails to do so only in the last two cases |
| `HedgeAccounts.AnchorIsRestored` | src/modules/provisioning/service-control.service.ts:59-69 | so running an interrupted command again restores what the interruption took |
| `HedgeAccounts.RunAnchorsIff` | src/modules/provisioning/provisioning.service.ts:89-212 | a worker run makes a hedge over an account that is gone exactly when it creates the hedge from ids that are not registered |
| `HedgeAccounts.OnlyStaleRecordsLose` | src/modules/provisioning/provisioning.service.ts:145-184 | which only a record that was stale when the run took it up can hold: a run that registers both accounts itself never does |
| `HedgeAccounts.ReprovisionKeepsAnchorIff` | src/modules/provisioning/provisioning.service.ts:366-382 | a reprovision takes an account from under the hedge exactly when it stops before archiving it |
| `HedgeAccounts.HistoriesKeepAnchorIff` | src/modules/provisioning/provisioning.service.ts:186-212 | over any history of worker, command, trigger and admin calls, each cut short anywhere, the live hedge trades on registered accounts after every event if and only if no event is one of those cases |
| `HedgeAccounts.MisfiredReplacement` | src/modules/provisioning/service-control.service.ts:383-392 | replacing a broker that was never registered removes the hedge's own account, and selecting its broker again then moves hedge and provision to an account that is gone |
| `ServiceHistories.SyncCanBreak` | src/modules/provisioning/service-control.service.ts:340-349 | a history from an empty start, with one interrupted rotation, to a state in which hedge and provision disagree and a deletion without the listing does not recover |
| `ServiceHistories.KeysCanBeLost` | src/modules/provisioning/provisioning.service.ts:127-143 | a history in which a run dies between issuing the key and storing it, and completes in another state |
| `ServiceHistories.ResetsCanBeOverwritten` | src/modules/provisioning/provisioning.service.ts:275-330 | a new record on which both admin resets are overwritten by the failure write of its first attempt |
| `ServiceHistories.HedgesCanDangle` | src/modules/provisioning/service-control.service.ts:383-467 | such a history from an empty start, in which no call is interrupted |
| `ServiceHistories.AccountsCanOutliveDeletion` | src/modules/provisioning/service-control.service.ts:263-302 | a history from an empty start to a decommissioned client with an account still registered |
| `ServiceHistories.RenamesCanAlias` | src/modules/broker/broker.service.ts:175-206 | a history from an empty start, in which no call is interrupted, to two broker rows of different logins that share one registered account |
| `ProvisioningWorker.ProvisionWorker.StepCreateKey` | src/modules/provisioning/provisioning.service.ts:127-143 | a stored key is kept, otherwise one is issued and stored |
| `ProvisioningWorker.ProvisionWorker.StepCreatePropAccount` | src/modules/provisioning/provisioning.service.ts:145-165 | registers the newest active prop account and stores its id, up to the interruption |
| `ProvisioningWorker.ProvisionWorker.StepCreateBrokerAccount` | src/modules/provisioning/provisioning.service.ts:167-184 | registers the hedge broker, else the newest active one |
| `ProvisioningWorker.ProvisionWorker.StepFinalize` | src/modules/provisioning/provisioning.service.ts:186-212 | archives stale hedges and creates the one that carries the provision's ids |
| `ServiceOutcomes.KeyStageOutcome` | src/modules/provisioning/provisioning.service.ts:127-143 | the first stage keeps a stored key, or issues one and stores it |
| `ServiceOutcomes.PropStageOutcome` | src/modules/provisioning/provisioning.service.ts:145-165 | the second registers the newest active prop row under its own login and server; row and record hold the id |
| `ServiceOutcomes.BrokerStageOutcome` | src/modules/provisioning/provisioning.service.ts:167-184 | the third does so for the live hedge's broker unless it is archived, or else for the newest active broker |
| `ServiceOutcomes.FinalStageOutcome` | src/modules/provisioning/provisioning.service.ts:186-212 | the last archives every hedge and makes one over the rows that carry the record's ids |
| `ServiceOutcomes.StageRefusedIff` | src/modules/provisioning/provisioning.service.ts:133-194 | when each stage is refused, and when with a conflict |
| `ServiceOutcomes.NewRecordTrades` | src/modules/provisioning/provisioning.service.ts:89-212 | a run over a new record that completes leaves one hedge alive, active, over accounts registered under the logins and servers of the newest active prop row and the newest active broker row |
| `ServiceOutcomes.ReprovisionOutcome` | src/modules/provisioning/provisioning.service.ts:362-396 | a reprovision removes exactly the record's accounts that could be reached, archives every hedge, and starts the record again behind its key, due now |
| `ProvisioningWorker.ProvisionWorker.HandleStepFailure` | src/modules/provisioning/provisioning.service.ts:275-330 | the guarded failure write, and the delay: 1 min, 5 min, 15 min, 1 h, 6 h |
| `ProvisioningWorker.ProvisionWorker.ProcessProvision` | src/modules/provisioning/provisioning.service.ts:89-121 | one run makes exactly the specified stages, up to the interruption |
| `ProvisioningWorker.ProvisionWorker.MaybeTrigger` | src/modules/provisioning/provisioning.service.ts:44-52 | a record is created for an eligible user, once |
| `ProvisioningWorker.ProvisionWorker.RetryProvision` | src/modules/provisioning/provisioning.service.ts:337-359 | resumes a failed record at the step that failed |
| `ProvisioningWorker.ProvisionWorker.Reprovision` | src/modules/provisioning/provisioning.service.ts:362-400 | best-effort cleanup, hedges archived, ids cleared, key kept |

## Left out

- Ledger: the service calls are atomic except batch creation, whose read may be stale; interleavings inside a refund, inside mark-paid, of two carry-over settlements, and between a sponsor check and its write are not modelled.
- CommissionEngine.CommissionEngine.ProcessPayment: a snapshot is taken from a live count given as a function; the count query itself and concurrent inserts during one call are not modelled (`GetOrCreateSnapshot` has the latter on its own).
- Commissions.RoundMoney: exact arithmetic on cents, not the floating point of the source.
- The choice among rows of equal creation time in a carry-over listing is left open by the source and by the specification.
- `getQualificationState`, reports, leaderboards and statistics are not modelled: they only read, promise nothing beyond the query they make, and nothing modelled depends on what they return.
- NetworkService.NetworkTables.ProcessReferralOnRegistration: referral codes are drawn unused; `referredByCode`, network events and milestones are not modelled.
- DownlineTree.GetMyTree: for a user on a sponsor cycle the query does not end (`LoopNeverEnds`), so the view asks for a user on none.
- DownlineTree.ExpandDownline: the recursive query as an expansion level by level; names, mail addresses and status of the rows are not modelled.
- CoinGateWebhook.CoinGateHandler.HandleCoinGateIpn: the token comparison is equality; the plan is known by its interval; the subscription activation is recorded with its period, not carried out, since its code is not part of this model.
- PayoutService.CommissionService.GetAgentBalances: the order in which the months are listed is not modelled.
- ServiceCommands.CommandWorker.ExecuteStart: the calls that enable and connect the two accounts on the platform are not modelled; they change nothing else here.
- ServiceCommands.CommandWorker.ExecuteStop: the same for the calls that disconnect and disable them.
- ServiceControl: the queue's choice of due commands, its per-user skip and the collapsing of duplicates are not modelled, and nothing is claimed about the order of commands.
- ServiceCommands: a stuck command is requeued only when its run is over; a lease that expires under a living run is not modelled.
- ServiceWorld.Store.EnsureEpAccount: the client's own retries of a POST are not modelled, so two registrations from one call are not excluded.
- AccountIdentity: a row that a client deletes is kept as an inactive one without an account; the screens refuse to delete any other.
- Provisioning: when several CRM accounts carry one remote id the first created is taken, where the source leaves the choice open.
- ProvisioningWorker.ProvisionWorker.StepCreateKey: the lookup of the user before a key is issued is not modelled; a record has its user.
- Provisioning: worker runs, commands and admin calls for one user follow one another, except for an admin reset during a failing step (`RetrySurvivesIff`).
- Which due records a worker tick picks, and when, is not modelled: only numbers of runs and scheduled delays are bounded.
- Notifications, mails and audit events have no content; that they can fail after a transition is modelled.
