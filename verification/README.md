# Formal model of the TsionMarket backend

This project models the parts of the TsionMarket backend whose correctness depends on more than one function at a
time, and proves what they keep: the arcade's rounds, escrow and ledger; payments through OnSwitch and the signed
transfers that fund them; the bytes a native transfer is signed over and the canonical JSON that requests are
fingerprinted by; refresh-token families; chess matches with clocks; and the candles the chart is drawn from.

Server state lives in database tables, and every `withTransaction` body is one step that either commits wholly or
changes nothing. Each subject is therefore modelled twice, once as functions on tables and once as the code is written:

| subject | steps as functions on tables | the code's own form, proved equal | what each step comes to | what every run keeps |
|---|---|---|---|---|
| tick rule, money | `LastMan`, `Decimals` | `LastMan.ResolveTick` | `LastMan`, `DecimalNumerals` | `LastMan`, `Decimals` |
| arcade | `ArcadeTables` | `ArcadeRepository` | `ArcadeOutcomes`, `ArcadeSeats` | `ArcadeMoney`, `ArcadeReplay`, `ArcadeRuns`, `ArcadeRefusals` |
| payments | `PaymentStatuses`, `PaymentTables`, `PaymentWork` | `PaymentRepository`, `PaymentServices`, `PaymentServer` | `PaymentAnswers`, `PaymentOutcomes` | `PaymentInvariants`, `PaymentSteps`, `PaymentJourneys`, `PaymentRuns`, `PaymentPolling` |
| signed transfers | `Transactions` | `TransactionRepository` | `TransactionOutcomes` | `Transactions` |
| signing bytes, canonical JSON | `Intertrain`, `CanonicalJson` | `Intertrain` | `Intertrain`, `CanonicalJsonReader` | `Intertrain`, `CanonicalJsonProofs` |
| sessions | `AuthSessions` | `AuthRepository` | `AuthOutcomes` | `AuthRuns` |
| chess | `ChessMatches` | `ChessRepository` | `ChessOutcomes` | `ChessRuns` |
| candles | `Candles` | `Candles.BucketPrices` | `Candles` | `Candles` |

The modules in the fourth column say what a step means without its helpers: amounts as arithmetic, guards as plain
comparisons, provider words as spelled, JSON as its grammar has it. The classes hold the tables as fields and update them in place; each method's contract says that the new state and the
reply are those of the function of the same name. A run is a sequence of events, each a step at some reading of the
clock, starting from empty tables; statements about runs hold for every sequence of events, so for every interleaving
of requests, webhooks and workers. Each subject with runs has a class whose method `Perform` takes one event and
stays in the state the run gives, so what is proved of runs holds of the classes. Clock readings are arbitrary integers: nothing here needs time to be monotone.
Money is counted in units of 10^-18, and `Decimals` proves that this is what the decimal strings mean. `Prelude` and
`Strings` hold what is shared.

Seven promises turn out to depend on something. Each is stated with the exact condition it depends on, and with a run
or an input on which it fails:

- A due tick with one survivor is refused exactly when the rake rate is so far above the whole that the rake exceeds
  the pot (`ArcadeRuns.SettlementRefused`; the tables put no bound on the rate). `ArcadeRefusals.RefusalReached` is a
  run that gets there. From then on the round stays as it is exactly as long as no move of it is accepted
  (`ArcadeRefusals.StuckIff`), so every due attempt is refused until then, and for ever once the clock is past the
  deadline (`ArcadeRefusals.RefusedForEver`).
- The reconciliation worker is meant to hand a payment to review after its last attempt. Escalation is skipped when the
  provider reports a finished status the graph forbids, so a payment in `processing` that the provider calls expired is
  polled for ever (`PaymentPolling.PolledForEver`); `PaymentPolling.StillPolledIff` says exactly when polling goes on.
- A settled transaction record stays settled exactly when no worker writes back another status than the one it has
  settled in (`Transactions.SettledStaysIff`), and linked transfers stay confirmed exactly when no linked record is
  written so (`PaymentRuns.TransfersConfirmedIff`). One worker that hears of each write it makes never does that
  (`Transactions.ConfirmedStays`); two workers can (`Transactions.TwoWorkersUnsettle`), and so can one whose write
  commits but whose reply is lost (`Transactions.LostReplyUnsettles`).
- A new password ends everything begun with the old one exactly when no login that read the user before the change is
  opened after it (`AuthRuns.PasswordEndsIff`): opening a session does not compare versions, and its first exchange then
  yields a token at the new version (`AuthRuns.StaleLoginSurvives`).
- Both players of a chess match under way have time left exactly when no accepted move is charged, by its second
  reading of the clock, all its player had (`ChessRuns.BothHaveTimeIff`, `ChessRuns.ReadingsMatter`).
- The signing bytes of a transfer are those of no other transfer exactly when its texts hold no replacement character
  and no unpaired surrogate, which becomes one (`Intertrain.UnambiguousIff`, `Intertrain.UnpairedSurrogatesCollide`).
- With a key of the right length, signing comes to an end exactly when the nonce is not negative; the caller admits
  every safe integer (`Intertrain.SigningEndsIff`).

To check the project: `dafny verify dfyconfig.toml`.

## Model

| member | source | states |
|---|---|---|
| `LastMan.ResolveTick` | src/arcade/lastMan.ts:38-77 | the loop over moves into the committed map, and the outcome built from it, is the outcome of the specification, reason and order of both lists included |
| `LastMan.ResolveMeetsRule` | src/arcade/lastMan.ts:38-77 | as sets, the survivors are exactly what the minority rule on who chose what leaves, and everyone else alive is eliminated |
| `LastMan.ResolvePartitions` | src/arcade/lastMan.ts:38-77 | survivors and eliminated together are a permutation of the players alive, each named once |
| `LastMan.ReasonsExplained` | src/arcade/lastMan.ts:53-76 | each reason occurs exactly for its division of the committers; a minority outcome leaves a non-empty strict minority of them |
| `LastMan.NobodyOutIff` | src/arcade/lastMan.ts:49-76 | a tick eliminates nobody exactly when everyone alive committed and the sides were equal or one was empty |
| `LastMan.OrderIrrelevant` | src/arcade/lastMan.ts:42-51 | when each player moves once, the order in which moves are listed does not change who survives |
| `LastMan.ChoiceIsTheMove` | src/arcade/lastMan.ts:42-47 | with one move each, the choice the map ends up holding for a player is the move they sent |
| `Decimals.RoundTrip` | src/arcade/StakeRepository.ts:245-258 | reading back a printed amount gives the same integer, for every integer including negatives |
| `Decimals.NegateReads` | src/arcade/StakeRepository.ts:270-272 | negating a readable amount reads as minus its units |
| `Decimals.MultiplyReads` | src/arcade/StakeRepository.ts:274-276 | multiplying a readable amount by any integer reads as the product of the units |
| `Decimals.SubtractReads` | src/arcade/StakeRepository.ts:278-280 | subtracting readable amounts reads as the difference of the units |
| `Decimals.RakeReads` | src/arcade/StakeRepository.ts:282-285 | the rake string reads as the truncated share of the pot's units |
| `Decimals.CompareReads` | src/arcade/StakeRepository.ts:264-268 | comparison is decided by the units and does not change when either side is rewritten in printed form |
| `Decimals.PayOutReads` | src/arcade/StakeRepository.ts:143-146 | pot, rake and payout, computed on strings one from the other, read as the pot, its rake and the rest |
| `Decimals.RakeWithinPot` | src/arcade/StakeRepository.ts:282-285 | the rake is the rounded-down share, never negative, and within the pot exactly when the share is less than one unit above it; any rate up to the whole guarantees that |
| `Decimals.ReadsScaled` | src/arcade/DepositWatcher.ts:253-263 | printing at any precision up to eighteen places and reading at eighteen multiplies by the missing power of ten |
| `Decimals.NestedRounding` | src/arcade/DepositWatcher.ts:278-282 | rounding the fee at eighteen places and then at six is rounding it once at six |
| `Decimals.DepositFee` | src/arcade/DepositWatcher.ts:253-285 | for every deposit and every fee up to the whole, the fee string is the printed floor of units*bps/10000 base units, and what is credited is the printed rest |
| `DecimalNumerals.NumeralReads` | src/arcade/StakeRepository.ts:245-251 | a decimal numeral, signed or not, with or without decimals and white space around it, reads as what its digits are worth by their places; decimals past the eighteenth are cut off |
| `DecimalNumerals.PrintedMeans` | src/arcade/StakeRepository.ts:252-258 | an amount prints as the shortest such numeral of its worth, with no leading or trailing zero to spare |
| `ArcadeRepository.StakeRepository.Credit` | src/arcade/StakeRepository.ts:25-43 | the balance row is inserted or added to, and one deposit row is appended |
| `ArcadeRepository.StakeRepository.Escrow` | src/arcade/StakeRepository.ts:53-85 | it succeeds exactly when the entry is free or covered, moves it from available to escrow with one negative stake row, and otherwise changes nothing |
| `ArcadeRepository.StakeRepository.ClaimSettlement` | src/arcade/StakeRepository.ts:191-208 | the claim succeeds exactly when the round has no settlement row, and then writes one |
| `ArcadeRepository.StakeRepository.RefundAll` | src/arcade/StakeRepository.ts:103-126 | the loop gives every entrant the same amount back from escrow with one refund row each, once per round |
| `ArcadeRepository.StakeRepository.PayOut` | src/arcade/StakeRepository.ts:135-182 | the loop releases every entrant's escrow, pays the winner the pot less rake and records payout and rake, once per round; it fails exactly when the payout would be negative |
| `ArcadeRepository.RoundRepository.EnsureOpenRound` | src/arcade/RoundRepository.ts:122-164 | an open round still accepting players is used, otherwise one is inserted with the game's terms |
| `ArcadeRepository.RoundRepository.Join` | src/arcade/RoundRepository.ts:166-216 | seat and stake are taken together or not at all, a second join changes nothing, and each refusal leaves every table as it was |
| `ArcadeRepository.RoundRepository.Commit` | src/arcade/RoundRepository.ts:226-263 | one move row for the current tick, or the first refusal that applies |
| `ArcadeRepository.RoundRepository.StartOrAbort` | src/arcade/RoundRepository.ts:387-417 | too few players: aborted, rows refunded, every stake returned; otherwise the first tick begins |
| `ArcadeRepository.RoundRepository.Eliminate` | src/arcade/RoundRepository.ts:423-447 | the rows alive and the moves of the tick are put through the tick rule and exactly those eliminated are marked |
| `ArcadeRepository.RoundRepository.ResolveCurrentTick` | src/arcade/RoundRepository.ts:419-491 | eliminations, winner or abort, money and tick number change together; a refused payment rolls all of it back |
| `ArcadeRepository.RoundRepository.Advance` | src/arcade/RoundRepository.ts:360-385 | an open round starts or aborts, a due tick resolves, anything else is left alone |
| `ArcadeRepository.DepositWatcher.Record` | src/arcade/DepositWatcher.ts:131-185 | a new signature gets a deposit row and, when its sender has an owner, one credit of the net; a known one changes nothing |
| `ArcadeRepository.DepositWatcher.Scan` | src/arcade/DepositWatcher.ts:58-122 | a scan records its transfers in order, and does nothing while another is running |
| `ArcadeRepository.RescanIsIdle` | src/arcade/DepositWatcher.ts:167-169 | scanning transfers already seen changes nothing, whoever owns their senders by then and whatever the fee has become |
| `ArcadeRepository.RoundRepository.Perform` | src/arcade/RoundRepository.ts:122-491 | any transaction, arriving in any state a run has reached, takes the repository to the state the longer run reaches |
| `ArcadeMoney.RunSound` | src/arcade/StakeRepository.ts:12-243 | in every run: each available balance is the sum of the player's ledger rows; each escrow is the sum of the entries of the unfinished rounds sat in; a round's rows sum to minus entry times players until it is over and then to zero; per asset, balances plus rake equal credited deposits; no balance is negative; a staked round has a settlement row exactly once it is over |
| `ArcadeMoney.RefundSound` | src/arcade/StakeRepository.ts:103-126 | returning every stake when a round ends keeps all of these |
| `ArcadeMoney.PayOutSound` | src/arcade/StakeRepository.ts:135-182 | releasing every stake and paying the winner and the house keeps all of these |
| `ArcadeMoney.JoinSound` | src/arcade/RoundRepository.ts:166-216 | joining, staked or free, refused or not, keeps all of these |
| `ArcadeMoney.DepositSound` | src/arcade/DepositWatcher.ts:131-185 | a deposit, attributed or not, new or seen, keeps all of these |
| `ArcadeMoney.AdvanceSound` | src/arcade/RoundRepository.ts:360-491 | a worker step on any round keeps all of these |
| `ArcadeReplay.RunConsistent` | src/arcade/RoundRepository.ts:226-298 | in every run the rows of every round are what folding the tick rule over its moves gives: statuses, elimination ticks, winner, and at least two players before the last tick |
| `ArcadeReplay.Frozen` | src/arcade/RoundRepository.ts:226-263 | a move committed for a tick not yet resolved changes nothing about the ticks before it |
| `ArcadeReplay.TickReplays` | src/arcade/RoundRepository.ts:423-447 | resolving the current tick on the rows marks them exactly as one more tick of replay says |
| `ArcadeReplay.ListingIrrelevant` | src/arcade/RoundRepository.ts:287-297 | the replay does not depend on the order in which entrants and moves are published |
| `ArcadeReplay.DropsAgree` | src/arcade/RoundRepository.ts:287-297 | nor does the tick at which the replay drops each player |
| `ArcadeOutcomes.SettlementPays` | src/arcade/RoundRepository.ts:450-491 | in every run, a round that becomes settled pays its declared winner players*entry less the rounded-down rake and nobody else, takes one entry per player out of escrow, and writes settlement and ledger rows of those amounts |
| `ArcadeOutcomes.AbortRefunds` | src/arcade/StakeRepository.ts:103-126 | in every run, a round that becomes aborted gives each entrant exactly one entry back from escrow, with one refund row each, and changes no other balance |
| `ArcadeOutcomes.FreeRoundEnds` | src/arcade/RoundRepository.ts:387-491 | a round without a stake ends without touching balances, ledger, settlements or deposits |
| `ArcadeSeats.JoinMeans` | src/arcade/RoundRepository.ts:166-216 | a seat is taken exactly in time, with a seat free, by an admitted newcomer who can pay; it costs the entry, once; otherwise nothing changes and the reply says why |
| `ArcadeSeats.NeverOverfull` | src/arcade/RoundRepository.ts:183-188 | in every run no round has more entries than seats |
| `ArcadeSeats.OpenMeans` | src/arcade/RoundRepository.ts:122-164 | a round accepting players is used; otherwise one is made with exactly the terms of the game, no players and no moves |
| `ArcadeSeats.MoveMeans` | src/arcade/RoundRepository.ts:226-263 | in every run a move is recorded, for the tick under way and as chosen, exactly for a player still in, by the deadline, who has not moved |
| `ArcadeSeats.TickMeans` | src/arcade/RoundRepository.ts:360-491 | in every run a due tick leaves the smaller of two unequal sides, or everybody who moved: nobody aborts the round, one wins it, more go on with a full new deadline; a tick not due is left alone |
| `ArcadeSeats.StartMeans` | src/arcade/RoundRepository.ts:387-417 | a round still filling begins its first tick with a full deadline when it has its minimum and is aborted with every row refunded when not |
| `ArcadeSeats.PublishedMeans` | src/arcade/RoundRepository.ts:277-298 | a round is published exactly when it is over, with all its entries and moves |
| `ArcadeSeats.DepositMeans` | src/arcade/DepositWatcher.ts:131-185 | an attributed deposit of u base units credits its owner exactly (u - u*bps/10000)*10^12 units, with one ledger row; an unattributed or known one credits nobody |
| `ArcadeRuns.PublishedReplay` | src/arcade/RoundRepository.ts:266-298 | from what is published of a finished round, in any order, anyone can recompute every elimination tick and the declared winner |
| `ArcadeRuns.RunningHasRivals` | src/arcade/RoundRepository.ts:394-491 | a running round has at least two players alive, or on its first tick at least its minimum |
| `ArcadeRuns.TickNarrows` | src/arcade/RoundRepository.ts:423-490 | a tick that leaves the round running leaves at least two players, fewer than before unless all committed to a tie or to one side |
| `ArcadeRuns.TickResolvedOnce` | src/arcade/RoundRepository.ts:360-385 | however many workers advance a round in whatever order, no tick is resolved twice |
| `ArcadeRuns.FinishedOnce` | src/arcade/RoundRepository.ts:450-479 | no round ends twice, and its rows, moves and settlement stay as they were when it ended |
| `ArcadeRuns.ClaimNeverRefused` | src/arcade/StakeRepository.ts:191-208 | a round that is not over has no settlement row, so the claim to settle it cannot be refused |
| `ArcadeRuns.SettlementRefused` | src/arcade/StakeRepository.ts:143-163 | a due tick with one survivor is refused exactly when the entry is positive and the rake of the pot exceeds it, and then nothing changes |
| `ArcadeRefusals.RefusalReached` | src/arcade/StakeRepository.ts:143-163 | the refusal is real: two deposits, two joins at a rate of twice the pot and one move lead to it |
| `ArcadeRefusals.StuckIff` | src/arcade/RoundRepository.ts:360-491 | after a refusal the round, its entries and its moves stay as they were exactly as long as no move of the round is accepted, whatever else happens |
| `ArcadeRefusals.RefusedUntilMove` | src/arcade/RoundRepository.ts:360-385 | until a move is accepted, an attempt at any reading is refused exactly when it is due, and changes nothing |
| `ArcadeRefusals.RefusedForEver` | src/arcade/RoundRepository.ts:226-263 | once every reading is past the deadline no move is accepted, so every later attempt is refused too |
| `ArcadeRefusals.MoveFrees` | src/arcade/RoundRepository.ts:226-263 | at the deadline itself a move is still accepted after a refusal, and the next attempt then goes through |
| `PaymentStatuses.GraphShape` | src/payments/onswitch/payments.ts:46-144 | the counted statuses are the non-terminal ones, no edge leads from terminal back to active or into `created`, review is entered from every live status and never left |
| `PaymentStatuses.ProviderCannotName` | src/payments/onswitch/payments.ts:23-40 | no provider answer maps to a status only this server may give, and none puts an on-ramp on chain |
| `PaymentStatuses.SpellingIrrelevant` | src/payments/onswitch/payments.ts:36-40 | letter case and surrounding white space do not change what an answer maps to |
| `PaymentAnswers.WordsMean` | src/payments/onswitch/payments.ts:23-40 | what each of the ten words of the provider means for either direction, however spelled; any other text is unknown |
| `PaymentAnswers.EdgesInto` | src/payments/onswitch/payments.ts:46-140 | from which statuses each status can be reached, the whole graph told from where its edges lead |
| `PaymentAnswers.StatusReadMeans` | src/payments/onswitch/repository.ts:586-633 | a word read from the provider puts the payment in its status when an edge leads there, dates a first completion, adds the one log line, and restarts polling; otherwise nothing changes |
| `PaymentAnswers.WebhookMeans` | src/payments/onswitch/repository.ts:783-818 | so does the word of a webhook, which is processed whatever it said |
| `PaymentAnswers.PollMeans` | src/payments/onswitch/repository.ts:852-927 | so does the answer to a poll, or review in its place at the last attempt unless the answer is a finished status |
| `PaymentAnswers.AcceptanceMeans` | src/payments/onswitch/repository.ts:428-485 | so does the answer to an initiation, accepted exactly when an edge leads there and the reference is the payment's own |
| `PaymentAnswers.BatchMeans` | src/payments/onswitch/repository.ts:764-775 | a webhook batch is the first waiting ones in order of arrival, as many as the limit or all there are |
| `PaymentAnswers.OrphanMeans` | src/payments/onswitch/repository.ts:1126-1144 | a webhook without a payment waits its delay, and goes to review with its last attempt |
| `PaymentAnswers.DelaysMean` | src/payments/onswitch/repository.ts:1220-1222 | the delay starts at ten seconds and doubles up to half an hour |
| `PaymentRepository.Repository.CreateOperation` | src/payments/onswitch/repository.ts:238-383 | replay, conflict, cap, wallet and quote are checked in that order; a new payment gets its row, its first log line and its quote, all or nothing |
| `PaymentRepository.Repository.BeginInitiation` | src/payments/onswitch/repository.ts:403-426 | only a payment in `created` begins, and it leaves `created` in the same transaction |
| `PaymentRepository.Repository.CompleteInitiation` | src/payments/onswitch/repository.ts:428-485 | reference and status are written together, or restored when the reference or the status is refused |
| `PaymentRepository.Repository.RecordInitiationFailure` | src/payments/onswitch/repository.ts:487-507 | an initiating payment becomes unknown or failed; any other is left alone |
| `PaymentRepository.Repository.BindTransferIntent` | src/payments/onswitch/repository.ts:509-562 | binds an unsigned transfer intent made for this payment, wallet and network, once |
| `PaymentRepository.Repository.ApplyProviderStatus` | src/payments/onswitch/repository.ts:586-633 | an allowed status is applied and logged, a forbidden one is ignored |
| `PaymentRepository.Repository.LinkConfirmedChainTransaction` | src/payments/onswitch/repository.ts:635-686 | links only the confirmed record of the bound intent, once |
| `PaymentRepository.Repository.StoreVerifiedWebhook` | src/payments/onswitch/repository.ts:712-762 | one inbox row per digest, for a payment of the right direction |
| `PaymentRepository.Repository.ProcessWebhookBatch` | src/payments/onswitch/repository.ts:764-823 | the two loops take the first due webhooks in order of arrival and apply, retry or park each |
| `PaymentRepository.Repository.ClaimReconciliationBatch` | src/payments/onswitch/repository.ts:825-850 | exactly the due and free payments are handed out, each once with its attempts, and locked |
| `PaymentRepository.Repository.RecordReconciliation` | src/payments/onswitch/repository.ts:852-927 | answer, escalation, attempts and next poll are written as the specification says |
| `PaymentRepository.Repository.ClaimConfirmationBatch` | src/payments/onswitch/repository.ts:929-956 | exactly the off-ramp payments awaiting acknowledgement are locked |
| `PaymentRepository.Repository.RecordConfirmationAttempt` | src/payments/onswitch/repository.ts:958-1003 | acknowledgement, retry, or the unguarded write to review with its log line |
| `PaymentOutcomes.CreateMeans` | src/payments/onswitch/repository.ts:238-383 | a payment is opened exactly for a known user with a new key and room under the cap, a verified wallet and a good quote; what its row, log line and spent quote then are |
| `PaymentOutcomes.RepeatMeans` | src/payments/onswitch/repository.ts:250-266 | a repeated key answers with its payment, or with a conflict when another request is made under it |
| `PaymentOutcomes.LookUpMeans` | src/payments/onswitch/journeys.ts:311-318 | a request goes on exactly when its key is new, or named the same request whose payment has not begun |
| `PaymentOutcomes.OpenStage` | src/payments/onswitch/journeys.ts:330-339 | an opened or replayed payment is gone on with; a refusal ends the request |
| `PaymentOutcomes.BeginStage` | src/payments/onswitch/journeys.ts:593-610 | only the request whose payment left created asks the provider, of that payment |
| `PaymentOutcomes.HearStage` | src/payments/onswitch/journeys.ts:605-664 | the answer is written to the payment asked about, in the direction of the request |
| `PaymentOutcomes.BeginMeans` | src/payments/onswitch/repository.ts:403-426 | only a payment in created begins, with its own identifier as reference unless it had one |
| `PaymentOutcomes.FailureMeans` | src/payments/onswitch/repository.ts:487-507 | a failed call leaves an initiating payment failed, or unknown and due at once when it may have been acted on |
| `PaymentOutcomes.BindMeans` | src/payments/onswitch/repository.ts:509-562 | an intent is bound exactly to its owner's off-ramp that waits for one, in time, when made for it from its wallet on its network; each refusal by its reason |
| `PaymentOutcomes.LinkMeans` | src/payments/onswitch/repository.ts:635-686 | a transfer is linked exactly when it is the confirmed broadcast of the bound intent and the payment may take it; what is written then |
| `PaymentOutcomes.ConfirmMeans` | src/payments/onswitch/repository.ts:958-1003 | an attempt is acknowledged for good, to be made again, or handed to review at the last |
| `PaymentOutcomes.PollDueMeans` | src/payments/onswitch/repository.ts:827-833 | which payments are due for a poll |
| `PaymentOutcomes.ConfirmationDueMeans` | src/payments/onswitch/repository.ts:931-939 | which off-ramps are due for confirmation |
| `PaymentOutcomes.ConfirmationClaimMeans` | src/payments/onswitch/repository.ts:929-956 | claiming confirmations locks exactly those among the payments looked at |
| `PaymentOutcomes.ArrivalMeans` | src/payments/onswitch/repository.ts:712-762 | a webhook is kept once per digest, due at once, for a payment of the direction it speaks of |
| `PaymentOutcomes.CompletionsDated` | src/payments/onswitch/repository.ts:457-468 | in every run a completed payment has a completion date, and only one that is or was completed has one |
| `PaymentSteps.ConfirmHealthy` | src/payments/onswitch/repository.ts:981-1001 | although the write to review is unguarded, it keeps the log an unbroken path and every other invariant |
| `PaymentSteps.LinkHealthy` | src/payments/onswitch/repository.ts:635-686 | linking a transfer keeps every invariant, including that a linked record is the confirmed broadcast of the payment's own intent |
| `PaymentSteps.CreateHealthy` | src/payments/onswitch/repository.ts:238-383 | opening a payment keeps the cap, the unique keys, the single use of quotes and the log |
| `PaymentSteps.ChainHealthy` | src/transactions/TransactionRepository.ts:45-198 | whatever happens to intents and records keeps links in place, and keeps them confirmed unless it unsettles a linked record |
| `PaymentInvariants.TrailIsPath` | src/payments/onswitch/repository.ts:341-345 | a log that replays without a break is, line by line, a path of allowed or self edges from creation to the last status |
| `PaymentServices.Worker.ReconcileDueOperations` | src/payments/onswitch/worker.ts:138-176 | claim and loop together record one poll of each claimed payment, attempts counted from the claim |
| `PaymentServices.Worker.LinkConfirmedTransferIntents` | src/payments/onswitch/worker.ts:79-97 | each found link is tried, and a refused one leaves the others to be tried |
| `PaymentServices.Journeys.InitiateProviderOperation` | src/payments/onswitch/journeys.ts:593-666 | the provider is asked only by the caller that took the payment out of `created`, and its answer is what is written |
| `PaymentServer.Server.Perform` | src/payments/onswitch/journeys.ts:298-403 | requests served stage by stage over the repository, with every other step in between, stay in the state their run gives |
| `PaymentWork.ClaimLocks` | src/payments/onswitch/repository.ts:825-850 | claiming locks exactly the due payments among those looked at and touches nothing else |
| `PaymentWork.PassPollsDueOnce` | src/payments/onswitch/worker.ts:138-176 | in one pass every due payment gets exactly one more attempt, judged by its own answer, and its lock back; no other payment changes |
| `PaymentRuns.AuditTrailUnbroken` | src/payments/onswitch/repository.ts:341-1001 | in every run the log of a payment is an unbroken path from creation to its current status, every link an allowed or self edge |
| `PaymentRuns.NeverOverCap` | src/payments/onswitch/repository.ts:268-281 | in every run no user has more active payments than the configured number |
| `PaymentRuns.OnrampStaysOffChain` | src/payments/onswitch/payments.ts:36-40 | in every run no on-ramp is awaiting or submitted on chain, bound to an intent or linked to a transfer |
| `PaymentRuns.KeyNamesOnePayment` | src/payments/onswitch/repository.ts:250-266 | a user's idempotency key names one payment and one request fingerprint, at all times of a run |
| `PaymentRuns.QuoteSpentOnce` | src/payments/onswitch/repository.ts:302-350 | no quote is spent on two payments, not even at different times |
| `PaymentRuns.InitiatedOnce` | src/payments/onswitch/journeys.ts:298-403 | however requests race, the provider is asked to initiate each payment at most once |
| `PaymentRuns.NothingReopens` | src/payments/onswitch/payments.ts:46-144 | over any stretch of a run nothing re-enters `created`, finished payments stay finished, and review is final |
| `PaymentRuns.TransferIsConfirmed` | src/payments/onswitch/repository.ts:660-682 | as long as no event unsettles a linked record, a payment with a chain hash points to a confirmed record of its own user, wallet, network and bound intent |
| `PaymentRuns.TransfersConfirmedIff` | src/transactions/TransactionRepository.ts:172-198 | every linked transfer is confirmed throughout a run exactly when no event of the run unsettles a linked record |
| `PaymentRuns.OneWorkerUndoesNothing` | src/transactions/ReconciliationWorker.ts:25-43 | one transaction worker that hears of each write it makes never does |
| `PaymentRuns.RecordSettlesOne` | src/payments/onswitch/repository.ts:652-671 | whatever the workers do, no transaction record settles two payments |
| `PaymentPolling.PollEnds` | src/payments/onswitch/repository.ts:864-925 | before the last attempt only an allowed finished answer ends polling; from then on only a forbidden one prolongs it |
| `PaymentPolling.StillPolledIff` | src/payments/onswitch/repository.ts:825-925 | after any sequence of polls the payment can still be claimed exactly when no answer finished it and every answer from the last attempt on was forbidden |
| `PaymentPolling.LeavesWithinAttempts` | src/payments/onswitch/repository.ts:868-873 | when every finished answer has an edge from the then status, the payment leaves the claimable set with its last attempt |
| `PaymentPolling.PolledForEver` | src/payments/onswitch/repository.ts:868-873 | a payment in processing that the provider calls expired is polled for ever, whatever the number of attempts |
| `PaymentPolling.OnlyUnknownIsSafe` | src/payments/onswitch/payments.ts:46-140 | every polled status but unknown has a finished status it forbids, so the hypothesis is needed from all of them |
| `PaymentPolling.PassesArePolls` | src/payments/onswitch/worker.ts:138-176 | after any passes of the worker a payment stands where its own polls, one from each pass that found it due, leave it |
| `TransactionRepository.Repository.Claim` | src/transactions/TransactionRepository.ts:45-94 | only one caller of an unsigned, unexpired intent is told to broadcast, and intent and record change together |
| `TransactionRepository.Repository.MarkBroadcast` | src/transactions/TransactionRepository.ts:102-107 | only a record still broadcasting becomes submitted, together with its intent |
| `TransactionRepository.Repository.MarkBroadcastUnknown` | src/transactions/TransactionRepository.ts:108-113 | only a record still broadcasting becomes unknown, together with its intent |
| `TransactionRepository.Repository.ReconciliationBatch` | src/transactions/TransactionRepository.ts:158-164 | the loop lists the unsettled due records under the attempt limit, each once, with its attempts |
| `TransactionRepository.Repository.Reconcile` | src/transactions/TransactionRepository.ts:172-198 | status, attempts, next check and intent are written whatever the record's status is by then |
| `TransactionRepository.Repository.StartTick` | src/transactions/ReconciliationWorker.ts:25-32 | a worker reads a new batch only when it has finished the last one |
| `TransactionRepository.Repository.WriteBack` | src/transactions/ReconciliationWorker.ts:59-78 | the record is written with one more attempt than when it was read; a worker that does not hear of it still holds the record |
| `TransactionRepository.Repository.One` | src/transactions/ReconciliationWorker.ts:33-60 | the next record held is written back with one more attempt than when it was read |
| `TransactionRepository.Repository.Perform` | src/transactions/TransactionRepository.ts:45-198 | any step, arriving in any state a run has reached, takes the repository to the state the longer run reaches |
| `TransactionOutcomes.ClaimMeans` | src/transactions/TransactionRepository.ts:45-94 | an intent is claimed exactly when it is the user's, open and in time, and neither it nor the hash has a record; what intent and record then are |
| `TransactionOutcomes.BroadcastMeans` | src/transactions/TransactionRepository.ts:102-113 | what a broadcast came to is written on record and intent while the record is still being broadcast, and not after |
| `TransactionOutcomes.AnswerMeans` | src/transactions/TransactionRepository.ts:172-198 | which status, attempts, next look and intent status an answer leaves |
| `TransactionOutcomes.DelaysMean` | src/transactions/TransactionRepository.ts:183-190 | the delay starts at 15 seconds and doubles up to 240 |
| `TransactionOutcomes.DueMeans` | src/transactions/TransactionRepository.ts:158-164 | which records are due |
| `TransactionOutcomes.BatchMeans` | src/transactions/TransactionRepository.ts:158-164 | a batch lists exactly the due records looked at, each once, with its attempts |
| `TransactionOutcomes.IntentFollowsRecord` | src/transactions/TransactionRepository.ts:45-198 | in every run an intent is confirmed where its record is, failed where that is, and broadcasting until then |
| `Transactions.RunLinked` | src/transactions/TransactionRepository.ts:45-113 | in every run a record belongs to one intent, copies its user, wallet and network, no intent has two records, and it is past signing |
| `Transactions.ClaimedOnce` | src/transactions/TransactionRepository.ts:52-63 | in every run a signed intent is claimed for broadcast at most once |
| `Transactions.StepSettledIff` | src/transactions/TransactionRepository.ts:172-198 | a step leaves every settled record as it is exactly when it does not write back, over a settled record, a status other than its own |
| `Transactions.SettledStaysIff` | src/transactions/TransactionRepository.ts:172-198 | settled records stay settled throughout a run exactly when no event of the run does that |
| `Transactions.ConfirmedStays` | src/transactions/ReconciliationWorker.ts:25-43 | with one worker that hears of each write it makes a confirmed record stays confirmed |
| `Transactions.TwoWorkersUnsettle` | src/transactions/TransactionRepository.ts:172-198 | with two workers, all of whose writes are answered, there is a run in which a confirmed record becomes submitted again |
| `Transactions.LostReplyUnsettles` | src/transactions/ReconciliationWorker.ts:59-78 | so there is with one worker that does not hear of its write and writes again |
| `Intertrain.WriteVarint` | src/transactions/TransactionService.ts:233-242 | the do-while loop ends and writes base 128, low digits first, for every natural number |
| `Intertrain.LoopEndsIff` | src/transactions/TransactionService.ts:233-242 | shifting reaches zero exactly for natural numbers |
| `Intertrain.VarintRecovered` | src/transactions/TransactionService.ts:233-242 | a varint followed by anything reads back as its number and the rest |
| `Intertrain.Concat` | src/transactions/TransactionService.ts:224-232 | the buffer filled part by part at a running offset is the parts one after the other |
| `Intertrain.WriteString` | src/transactions/TransactionService.ts:243-246 | a string is its UTF-8 length as a varint and then its UTF-8 bytes |
| `Intertrain.IntertrainTransferBytes` | src/transactions/TransactionService.ts:213-266 | for every transfer whose signing ends, the signing bytes are the fields in order, or the error of the first malformed one |
| `Intertrain.SigningEndsIff` | src/transactions/TransactionService.ts:154-242 | with a key of the right length signing ends exactly when the nonce, any safe integer, is not negative |
| `Intertrain.SignableMeans` | src/transactions/TransactionService.ts:247-254 | exactly which transfers are signed, and which error, or none, each other one gets |
| `Intertrain.Utf8Recovered` | src/transactions/TransactionService.ts:243-246 | decoding UTF-8 gives back every sequence of scalar values |
| `Intertrain.WellFormedRecovered` | src/transactions/TransactionService.ts:223-246 | a well-formed UTF-16 string is recovered from its scalar values |
| `Intertrain.TransferRecovered` | src/transactions/TransactionService.ts:213-266 | a reader recovers every field of every transfer that can be signed, with no byte left over |
| `Intertrain.SameBytesIff` | src/transactions/TransactionService.ts:213-266 | two signable transfers have equal bytes exactly when they agree on every field the bytes carry |
| `Intertrain.Unambiguous` | src/transactions/TransactionService.ts:213-266 | with well-formed texts, equal signing bytes mean equal transfers |
| `Intertrain.UnambiguousIff` | src/transactions/TransactionService.ts:213-266 | no other transfer has the same bytes exactly when neither text holds a replacement character or an unpaired surrogate |
| `Intertrain.UnpairedSurrogatesCollide` | src/transactions/TransactionService.ts:223-246 | without that, two different memos can have equal signing bytes |
| `CanonicalJsonProofs.SameTextIff` | src/payments/onswitch/service.ts:91-100 | two values print the same exactly when they agree up to key order with undefined read as null, at any depth of objects and arrays of strings, booleans and safe integers |
| `CanonicalJsonReader.TextReadsBack` | src/payments/onswitch/service.ts:91-100 | a strict reader of JSON texts, written from the grammar, reads the text of every value to its end, back to a value that agrees with it and whose keys stand in order at every depth; there is no white space |
| `CanonicalJsonReader.ValueRead` | src/payments/onswitch/service.ts:91-100 | the text of a sorted value is read back to that value, whatever follows it |
| `CanonicalJsonReader.BodyRead` | src/payments/onswitch/service.ts:93-97 | a quoted string is read back up to its closing mark, with the escapes ECMA-262 section 25.5.2.3 writes and no others |
| `CanonicalJsonReader.NumberRead` | src/payments/onswitch/service.ts:93 | an integer is read back from its digits, without leading zeros |
| `CanonicalJsonProofs.PrintIsPlain` | src/payments/onswitch/service.ts:91-100 | sorting keys while printing is printing the value whose keys were sorted at every level |
| `CanonicalJsonProofs.PlainUnique` | src/payments/onswitch/service.ts:91-100 | the text of a sorted value can be told from what follows it and determines the value |
| `CanonicalJsonProofs.BodyUnique` | src/payments/onswitch/service.ts:93-97 | a quoted string, escapes and surrogate pairs included, determines the string and where it ends |
| `CanonicalJsonProofs.AscendingUnique` | src/payments/onswitch/service.ts:96-97 | two key-sorted member lists with the same members are the same list |
| `AuthRepository.Repository.CreateSession` | src/auth/AuthRepository.ts:248-265 | a login opens the first session of a fresh family |
| `AuthRepository.Repository.BeginLogin` | src/auth/AuthService.ts:90-118 | a login keeps the version it read of an active, verified user, and reads it only once |
| `AuthRepository.Repository.RotateSession` | src/auth/AuthRepository.ts:267-333 | a good token is exchanged for one new session of the same family, user and absolute expiry; a used one revokes the family; anything else changes nothing |
| `AuthRepository.Repository.FindActiveIdentity` | src/auth/AuthRepository.ts:335-349 | a version is returned exactly when a token with that version would be accepted |
| `AuthRepository.Repository.Authenticate` | src/auth/AuthService.ts:165-172 | accepts exactly a live session of an active, verified user at the user's current version |
| `AuthRepository.Repository.RevokeSession` | src/auth/AuthRepository.ts:351-358 | revokes the user's own unrevoked session and says whether it did |
| `AuthRepository.Repository.RevokeAllSessions` | src/auth/AuthRepository.ts:360-366 | no session of the user is left unrevoked; every other session and every earlier revocation is as it was |
| `AuthRepository.Repository.ChangePassword` | src/auth/AuthRepository.ts:368-386 | the token version is raised by one and no session of the user is left unrevoked, together; nobody else is touched |
| `AuthRepository.Repository.CreateChallenge` | src/auth/AuthRepository.ts:130-147 | a new reset challenge uses up the user's earlier ones |
| `AuthRepository.Repository.ConsumePasswordReset` | src/auth/AuthRepository.ts:178-213 | a usable challenge of an active user is consumed with the version raised and all sessions revoked; otherwise nothing changes |
| `AuthRepository.Repository.Cleanup` | src/auth/AuthCleanupWorker.ts:34-39 | only sessions thirty days past their absolute expiry or revocation are deleted, and the rest are as they were |
| `AuthRepository.Repository.CleanupChallenges` | src/auth/AuthCleanupWorker.ts:28-33 | only challenges expired or consumed more than a day ago are deleted, and the rest are as they were |
| `AuthRepository.Repository.Perform` | src/auth/AuthRepository.ts:130-386 | any step bringing newly generated identifiers, arriving in any state a run has reached, takes the repository to the state the longer run reaches |
| `AuthOutcomes.ExchangeMeans` | src/auth/AuthRepository.ts:267-333 | in every run a token is exchanged exactly when it is that of an unrotated, unrevoked session within both expiries, presented with its CSRF token, of an account in standing; reused exactly when that session was exchanged; otherwise nothing changes |
| `AuthOutcomes.ExchangeWrites` | src/auth/AuthRepository.ts:299-333 | the one new session has the new tokens, the same user, family and last expiry, and the earliest of three as its own expiry; the access token names it at the user's version now |
| `AuthOutcomes.ReuseWrites` | src/auth/AuthRepository.ts:281-288 | a reused token revokes every session of its family not revoked yet, and no other |
| `AuthOutcomes.AcceptedMeans` | src/auth/AuthRepository.ts:335-349 | exactly which access tokens are accepted |
| `AuthOutcomes.LoginMeans` | src/auth/AuthService.ts:90-118 | only an account in standing gets to log in, at its version then |
| `AuthOutcomes.OpeningMeans` | src/auth/AuthRepository.ts:248-265 | what the first session of a login holds |
| `AuthOutcomes.ResetMeans` | src/auth/AuthRepository.ts:178-213 | exactly which challenges reset a password, and what is written then |
| `AuthOutcomes.ChangeMeans` | src/auth/AuthRepository.ts:368-386 | the version goes up by one and every session of the user ends, no other |
| `AuthOutcomes.AskMeans` | src/auth/AuthRepository.ts:130-147 | the new challenge is fresh and every earlier one of the account is used up |
| `AuthOutcomes.SignOutMeans` | src/auth/AuthRepository.ts:351-366 | signing out ends the user's own session, or all of them, and no other |
| `AuthOutcomes.CleanupMeans` | src/auth/AuthCleanupWorker.ts:28-39 | exactly which sessions and challenges are deleted, in seconds |
| `AuthRuns.OneLivePerFamily` | src/auth/AuthRepository.ts:267-333 | in every run a token family has at most one session that is neither rotated nor revoked |
| `AuthRuns.FamilyExpiryFixed` | src/auth/AuthRepository.ts:299-319 | however often tokens are exchanged, a family keeps its user and its absolute expiry, and no session outlives it |
| `AuthRuns.NothingAfterExpiry` | src/auth/AuthRepository.ts:289-299 | once the expiry a family was given has passed, no session it ever has is accepted or exchanged |
| `AuthRuns.ExchangedOnce` | src/auth/AuthRepository.ts:271-300 | in every run a refresh token is exchanged at most once, even across cleanup |
| `AuthRuns.ReplayKillsFamily` | src/auth/AuthRepository.ts:281-288 | after a replay no session of the family is ever accepted or exchanged again |
| `AuthRuns.EarlierTokensDie` | src/auth/AuthRepository.ts:178-213 | after a password change or reset no access token signed before, nor one for a login begun before, is ever accepted |
| `AuthRuns.EarlierSessionsDie` | src/auth/AuthRepository.ts:368-386 | nor is any session that existed then, and its refresh token is never exchanged |
| `AuthRuns.PasswordEndsIff` | src/auth/AuthRepository.ts:248-265 | after a change or reset no family begun with the old password has a usable session, at any later time of the run, exactly when no login that read the user before is opened after |
| `AuthRuns.ReadBeforeIff` | src/auth/AuthService.ts:90-118 | whether a login in progress read the user before the change shows exactly in the version it read |
| `AuthRuns.ExchangeAccepted` | src/auth/AuthRepository.ts:299-333 | the token an exchange hands out is accepted at once exactly when the configured lifetimes are positive, whatever version its family was begun at |
| `AuthRuns.StaleLoginSurvives` | src/auth/AuthRepository.ts:248-265 | a login read before a change and opened after it can be exchanged for a token that is accepted |
| `AuthRuns.ResetOnce` | src/auth/AuthRepository.ts:178-213 | after a reset its challenge never gives another password: using it again, however much later in the run, changes nothing |
| `ChessRepository.Repository.CreateInvite` | src/arcade/ChessRepository.ts:102-131 | a waiting match with full clocks for an allowed time control, its token unique |
| `ChessRepository.Repository.AcceptInvite` | src/arcade/ChessRepository.ts:185-214 | a live invitation becomes an active match for somebody else; an expired one is closed |
| `ChessRepository.Repository.DeclineInvite` | src/arcade/ChessRepository.ts:216-242 | a waiting invitation is declined by somebody else, or closed as expired |
| `ChessRepository.Repository.CancelInvite` | src/arcade/ChessRepository.ts:244-262 | only its creator closes an invitation nobody accepted |
| `ChessRepository.Repository.Move` | src/arcade/ChessRepository.ts:277-356 | checks in order, settles a match out of time, otherwise records the move, charges the turn and ends or continues the match |
| `ChessRepository.Repository.Resign` | src/arcade/ChessRepository.ts:358-382 | the other player wins, unless time had already run out |
| `ChessRepository.Repository.OfferOrAcceptDraw` | src/arcade/ChessRepository.ts:384-416 | an offer is made, withdrawn by the same player, or accepted by the other, unless time had already run out |
| `ChessRepository.Repository.ExpireOrTimeout` | src/arcade/ChessRepository.ts:459-484 | an expired invitation is closed; a match out of time is settled against the player to move, as a draw when nobody could mate |
| `ChessRepository.Repository.View` | src/arcade/ChessRepository.ts:264-275 | a player who looks sees the match after expiry and timeout have been applied |
| `ChessRepository.Repository.Perform` | src/arcade/ChessRepository.ts:102-484 | any transaction, arriving in any state a run has reached, takes the repository to the state the longer run reaches |
| `ChessOutcomes.RightWinner` | src/arcade/ChessRepository.ts:326-382 | in every run the result of a finished match is what its record says: the player who resigned lost, the player to move lost on time unless nobody could mate, the last mover won by mate, and everything else is a draw |
| `ChessOutcomes.MoveMeans` | src/arcade/ChessRepository.ts:277-312 | a move is made exactly by the player to move, in time, on the board they saw, when it is legal |
| `ChessOutcomes.MoveWrites` | src/arcade/ChessRepository.ts:313-356 | what a move records and charges, and whether the match goes on |
| `ChessOutcomes.SweepMeans` | src/arcade/ChessRepository.ts:459-484 | time is called exactly when the clock of the player to move is gone; an invitation is closed when it ran out |
| `ChessOutcomes.AcceptMeans` | src/arcade/ChessRepository.ts:185-214 | who can accept an invitation, and the match that begins |
| `ChessOutcomes.DeclineMeans` | src/arcade/ChessRepository.ts:216-242 | who can turn an invitation down |
| `ChessOutcomes.CancelMeans` | src/arcade/ChessRepository.ts:244-262 | who can take an invitation back |
| `ChessOutcomes.ViewMeans` | src/arcade/ChessRepository.ts:264-275 | only its players see a match |
| `ChessOutcomes.InviteMeans` | src/arcade/ChessRepository.ts:102-131 | a new match waits a day, with full clocks of five, ten or fifteen minutes |
| `ChessOutcomes.ResignMeans` | src/arcade/ChessRepository.ts:358-382 | a player in time resigns exactly while the match is on, and the other colour wins |
| `ChessOutcomes.DrawMeans` | src/arcade/ChessRepository.ts:384-416 | a player in time offers, takes back or accepts a draw exactly while the match is on |
| `ChessRuns.FieldsAgree` | src/arcade/ChessRepository.ts:185-262 | in every run status, invitation, players, turn start, result, termination, completion and standing offer of a match agree |
| `ChessRuns.TimeIsConserved` | src/arcade/ChessRepository.ts:322-352 | in every run, whatever the readings, both clocks plus what finished turns were charged is twice the time control |
| `ChessRuns.MoverHasTimeIff` | src/arcade/ChessRepository.ts:322-325 | a move leaves its player time exactly when the reading that charges the turn is within the clock, and then charges exactly the time elapsed |
| `ChessRuns.BothHaveTimeIff` | src/arcade/ChessRepository.ts:322-340 | both clocks of every match waiting or under way are positive throughout a run exactly when no accepted move of the run is charged all its player had |
| `ChessRuns.BothHaveTime` | src/arcade/ChessRepository.ts:459-470 | with one reading per transaction, both players of an active match have time left in every run |
| `ChessRuns.ReadingsMatter` | src/arcade/ChessRepository.ts:277-340 | a move accepted in its last millisecond and charged one later leaves its player no time in a match that goes on |
| `ChessRuns.ShownZeroIff` | src/arcade/ChessRepository.ts:84-97 | the mover's clock is shown as zero exactly when the next transaction will call time |
| `ChessRuns.MovesAlternate` | src/arcade/ChessRepository.ts:298-321 | recorded moves alternate colours from white, each by the player of its colour, in strictly growing versions |
| `ChessRuns.DrawWasOffered` | src/arcade/ChessRepository.ts:395-413 | an agreed draw has an offer by one player accepted by the other with nothing in between |
| `ChessRuns.VersionsGrow` | src/arcade/ChessRepository.ts:277-416 | over any stretch of a run versions and records only grow, and a match that is over stays as it ended |
| `ChessRuns.OneMovePerVersion` | src/arcade/ChessRepository.ts:284-289 | of all moves sent for one version of the board at most one is made |
| `Candles.BucketPrices` | src/markets/chartData.ts:163-187 | one pass updating bars in place yields exactly the non-empty aligned buckets in strictly ascending time, opened by the first sample, closed by the last, reaching from lowest to highest |
| `Candles.FallsMeans` | src/markets/chartData.ts:163-175 | a sample falls in the aligned bucket whose first second it is not before and whose next bucket it is before |
| `Candles.GroupingUnique` | src/markets/chartData.ts:163-187 | the samples determine the bars: no other list meets that description |
| `Candles.KeepsFirstOfEach` | src/markets/chartData.ts:77-93 | the result is strictly ascending and holds exactly the first valid input row of each time |
| `Candles.AscendingUnique` | src/markets/chartData.ts:77-93 | two strictly ascending lists of the same candles are the same list |
| `Candles.ChangeReportedIff` | src/markets/chartData.ts:138-151 | a change is reported exactly when the bars span a day and the earliest bar of that day has a price, and it is the percentage from that price to the last close |

## Left out

Not modelled at all:

- SQL text, connection pooling, row locks and isolation anomalies: a transaction is one atomic step.
- RPC, HTTP, e-mail, rate limiting, logging and metrics; outside answers are arbitrary arguments of the steps.
- Hashing, HMAC, AES, JWT, Argon2 and signature checks: hashes stand for what they hash, request fingerprints are taken to be injective, access tokens unforgeable, random identifiers and tokens never repeated.
- The rules of chess and PGN: a legal move is an arbitrary next position with the other side to move; FEN and PGN agreement is not checked.
- Which deposits a scan finds: the scan reads at most fifty signatures and then moves its cursor, so completeness is not promised. Only what happens to the transfers found is modelled.
- Instructions, terms, quote amounts, beneficiaries and error codes of payments; the confirmation worker's loop, whose claim and write are modelled as separate steps in any order.
- Quotes and their revalidation, settings, profiles, registries, catalogue, balances and valuation: mostly validation and wrappers over outside services.
- E-mail verification challenges and login lockout: they appear only as arbitrary changes of a user's standing.

Simplifications:

- Identifiers, hashes, asset symbols and idempotency keys are integers, since only their equality matters.
- Integers are unbounded: DECIMAL(38,18), SMALLINT and INT UNSIGNED columns have limits the model does not have.
- Entrants of a round are visited in the order they joined, not in the order of their identifiers; the resulting tables differ only in the order of ledger rows of one settlement.
- Limits and wallet ownership checks are flags that may refuse a step; the deposit fee is at most 100 basis points, as the environment schema requires.
- Whoever runs a transaction learns whether it committed. The write of the transaction worker is the exception: it may commit unheard and be made again.
- A batch query returns whichever due rows the database picks: the rows to look at are an argument.
- Upper-casing of provider words covers ASCII letters; characters outside ASCII whose upper case is an ASCII word are not modelled.
- Numeric strings in hexadecimal or with an explicit plus sign, which the runtime's integer parser also accepts, are not readable amounts here.
- Numbers in canonical JSON are integers a JavaScript number holds exactly; other values than objects, arrays, strings, booleans, integers, null and undefined are not modelled.
- Prices and times of candles are real numbers, so floating-point rounding is not modelled.
- Addresses of native transfers are given decoded; bech32m itself is not part of this model.
- The milliseconds of a chess clock are integers; microseconds of database timestamps are not modelled.

Stated with a hypothesis the source does not enforce, beside the exact condition:

- Transactions.ConfirmedStays: assumes one reconciliation worker that hears of each write it makes; `Transactions.SettledStaysIff` is exact.
- PaymentRuns.TransferIsConfirmed: assumes that no event unsettles a linked record; `PaymentRuns.TransfersConfirmedIff` says that this is exactly what it takes.
- AuthRuns.EarlierSessionsDie: speaks of sessions open when the password changes; `AuthRuns.PasswordEndsIff` covers logins in progress as well.
- ChessRuns.BothHaveTime: assumes one clock reading per transaction; `ChessRuns.BothHaveTimeIff` is exact.
- Intertrain.Unambiguous: assumes well-formed texts on both sides; `Intertrain.UnambiguousIff` is exact.
- Intertrain.IntertrainTransferBytes: is called only where signing ends at all; `Intertrain.SigningEndsIff` says exactly where that is.
