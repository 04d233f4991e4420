# Proofs about TSA Pay, the ledger cutover, the direct escrow deployment and merchant pricing

The project models four parts of the repository in Dafny and proves what they promise, over every run, every
reachable state or every input.

- `pay/` -- a payer's live attempt at a TSA Pay payment. `PayAttempt` is the attempt's state machine, read against
  its own history of events. `PayCrypto` is the crash-safe protocol of a crypto payment: phone memory, phone storage,
  the server's intents, the swaps handed over for broadcast and the clock, stepped at every await, with any number of
  screens and calls interleaved and the app killed anywhere. `PayCryptoSafety` is its invariant and the safety
  theorems, `PayCryptoScreens` what a screen can be left showing, `PayCryptoOutcomes` what each answer shows and stores,
  `PayCryptoLimits` where the safeguards end.
  `PayNaira`, `PayNairaSafety`, `PayNairaOutcomes`, `PayNairaLimits` and `PayNairaAgain` do the same for a naira
  order's direct deposit; `PayHold` is the stored record both rely on.
- `cutover/` -- moving a swap's ledger to a new contract. `SwapContract` is what the scripts use of the two contracts
  and the token, `Cutover` the freeze, `SnapshotScript` the snapshot, `Migrate` the resumable batched import and the
  seal, `Totals` sums over a ledger. `SplitCutover` is the small script that turns the fee split off while anyone may
  call the proxy's initialiser.
- `direct/` -- deploying the direct escrow. `Escrow` is the contract's values, `Wire` the resumable wiring and the
  handover, `DirectDeploy` one whole run and any number of dying runs, `Manifest` the record of one address per
  network class and salt (addresses by section "Specification" of EIP-1014, an arbitrary function here),
  `VerifyDirect` the event-history verifier, `EscrowHistory` the contract state its events tell.
- `common/` -- optional values and addresses.
- `pricing/` -- `Conversion` is the rounding arithmetic over exact rationals, `MerchantPricing` the keyed amount store.

Code that updates objects, arrays or running sums is written as classes and methods with loops, each proved against
a specification function; the two payment protocols, whose point is interleaving, are state machines on values.

## What the proofs found

Each of these is a lemma with the concrete run or the exact condition.

- The 24 h that hold a second payment back count from the stored record, and a record already in the store keeps its
  time when a swap is signed. So after a swap is handed over, another one can follow within 24 h of its signature
  exactly when the store was not empty at that signature (`PaidAgainExactlyWhen`). Two runs reach it: an expired
  record whose removal failed silently (`LeftoverRecordLetsTwoOut`), and, with all storage working, a late check's
  hold written after the run had found the store empty (`LateHoldLetsTwoOut`).
- An active hold and an open intent need not name the same intent (`HoldCanNameAnother`). A step parts them exactly
  when an intent opens under an active hold of another, or a check that looked at the hold before it ran out writes
  it again while another intent is open (`StepBreaksAgreement`); they agree over a whole run exactly when no step of
  it is one of these (`HoldNamesOpenIntent`).
- A held failure is never downgraded in one step, but two dispatches can do it: a plain final failure replaces it and
  a retryable one then offers Pay (`HoldCanBeDropped`, and reached in the app, `HeldThenOffersPay`); the guard lasts
  exactly while `KeepsHold` holds (`HeldWhileKept`).
- A relayed naira deposit is recorded only after the relay answers. A kill in between leaves an order that reads as
  waiting, and "send again" sends a second, self-paid deposit (`RelayThenKillSendsTwice`).
- A naira deposit is protected exactly when its record is written at that moment: a record of the same order that has
  run out is kept with its old time and protects nothing (`SelfPaidIsCoveredUnless`, `RelayedIsCoveredUnless`), so an
  order that still waits after 24 h can be paid twice in one instant (`SpentRecordSendsAgain`). When every order
  closes within 24 h of opening, at most one deposit of an order leaves with a record (`AtMostOneRecordedDeposit`).
  While the order still waits, its deposit can leave again within 24 h exactly when the earlier one left without its
  record being written (`SelfPaidLeavesAgainExactlyWhen`, and for a relay, whose order also needs a readable store,
  `RelayedLeavesAgainExactlyWhen` and `UnansweredRelayLeavesAgainExactlyWhen`).
- The import's funding check asks for the whole import again on a resumed run, so an import funded to the last wei
  and interrupted cannot be resumed although what is left would fit (`ExactFundingCannotResume`; `ResumeFunding` is
  the exact condition, and `DiedThenResumed` the two runs). The comment on the script calls it resumable; the code is followed.
- When the deployer keeps the direct escrow, a run that died right before the fee manager was set is later taken for
  finished, only read back, and never completed (`DiedBeforeFeeManager`, exactly when). A run that died between the
  fee manager and the payment window is refused ever after (`DiedBeforeWindow`). A first run reaches one of the two
  exactly when one transaction is missing: the first when the plan keeps the window a fresh escrow has, the second when
  it does not (`FirstRunCut`).
- The verifier reports any single dropped ownership transfer that is not to oneself, but a dropped stretch goes
  unnoticed exactly when ownership comes back to where it was, and an admin whose one
  event is dropped goes unnoticed exactly when everything else is right (`DroppedStretch`,
  `DroppedAdminGoesUnnoticed`).
- A proxy that reached the chain but not the manifest is not pinned: a later run from other inputs records another
  address (`UnrecordedIsNotPinned`).
- Switching currency can turn a typed price into a free product, which typing never can: exactly when its worth is
  below half of the new currency's smallest unit (`SwitchedIsFreeExactlyWhen`).

## Model

| member | source | states |
|---|---|---|
| `PayAttempt.SwappedRefinesHistory` | tsa-app/hooks/payAttempt.ts:84-138 | over any events from idle, "this attempt swapped" is true exactly when accepted swap evidence is followed by no accepted begin, deposit or reset |
| `PayAttempt.WalletTriedRefinesHistory` | tsa-app/hooks/payAttempt.ts:87-124 | over any events, "her wallet was tried" is true exactly when it was offered and only stages, shortfalls and offers were accepted since |
| `PayAttempt.IgnoredIsNoOp` | tsa-app/hooks/payAttempt.ts:92-102 | an event the machine turns away (paused, held against a retryable failure, a second begin, a reset in flight) changes nothing at all |
| `PayAttempt.PausedIsFinal` | tsa-app/hooks/payAttempt.ts:95-96 | a payment the server paused is final: no sequence of events changes the attempt |
| `PayAttempt.InFlightUntilOutcome` | tsa-app/hooks/payAttempt.ts:91-138 | an attempt in flight stays in flight over a run exactly while no outcome is dispatched: never ended by begin, reset, progress or an offer |
| `PayAttempt.HeldStep` | tsa-app/hooks/payAttempt.ts:97-98 | one fail or stop never turns a held failure into one that offers Pay |
| `PayAttempt.HeldWhileKept` | tsa-app/hooks/payAttempt.ts:97-133 | over a run of fails and stops the hold's guard lasts exactly when every one of them up to a pause keeps it or is turned away |
| `PayAttempt.HoldCanBeDropped` | tsa-app/hooks/payAttempt.ts:97-133 | two dispatches that do turn a held failure into one that offers Pay |
| `PayAttempt.ResolvedOnlyWhenSafe` | tsa-app/hooks/payAttempt.ts:157-192 | the live form may come down exactly when nothing started or the failure is safe to retry; a failure never offers both Pay and Continue, and Continue never when paused |
| `PayAttempt.EventIsShown` | tsa-app/hooks/payAttempt.ts:94-184 | for every event that is not turned away, what the screen then shows: stage, words, order, whether Pay and whether Continue is offered -- Continue only for a failure that is not safe to retry and has something to continue |
| `PayAttempt.StageShows` | tsa-app/hooks/payAttempt.ts:150-192 | what each stage offers: Continue only where something is left for her to do, neither on a waiting deposit, words, codes, amounts short and notices only on the stage they belong to |
| `PayHold.ActiveForADay` | tsa-app/services/payHold.ts:29-81 | a record counts for 24 hours, 86,400,000 ms, the last of them included |
| `PayAttempt.AttemptRef.Dispatch` | tsa-app/hooks/payAttempt.ts:198-209 | the ref always is the fold of everything dispatched, and the render mirror never differs from it |
| `PayCryptoSafety.NoDoublePayment` | tsa-app/hooks/usePayCrypto.ts:238-337 | in every reachable state, when a swap is handed over it is a new one, and every earlier swap of the payment is known to the server, of an ended payment, or 24 h past its own signature -- whatever the screens' flags say -- but for one signed under an older record, whose 24 h count from that record |
| `PayCryptoSafety.OwnRecordWhenEmpty` | tsa-app/services/payHold.ts:59-67 | a swap is signed under its own record exactly when the store is empty at its signature |
| `PayCryptoLimits.PaidAgainExactlyWhen` | tsa-app/services/payHold.ts:59-67 | after a hand-over unknown to the server, in a payment going on, some run hands another swap over within 24 h of that signature exactly when an earlier record was in the store at it |
| `PayCryptoSafety.OneSwapOutAndRemembered` | tsa-app/hooks/usePayCrypto.ts:12-22 | of two swaps neither known, ended nor 24 h past its signature, one went out under an older record that has run out; any other such swap is remembered: the phone has its hash and an active or unreadable hold |
| `PayCryptoSafety.NewSwapProtected` | tsa-app/services/payHold.ts:59-69 | the new swap's record protects it for the full 24 h from its signature exactly when the store was empty at it |
| `PayCryptoSafety.CleanClaimCountsFromClaim` | tsa-app/services/payHold.ts:59-67 | when the run's hold read left the store empty, the 24 h count from a record between that read and the signature |
| `PayCryptoSafety.HoldGoesOnlyWhenSettled` | tsa-app/hooks/usePayCrypto.ts:92-218 | the persisted hold disappears only in a step after which every swap ever handed over is known, spent, or of an ended payment |
| `PayCryptoSafety.RefusalKeepsHold` | tsa-app/hooks/usePayCrypto.ts:86-133 | a refused report, a lost answer, an unreachable server and failing storage leave an existing hold as it is, time included |
| `PayCryptoSafety.RunReadClaims` | tsa-app/hooks/usePayCrypto.ts:244-268 | a run's fresh hold read either claims the free sale lock with every earlier swap settled, or claims nothing |
| `PayCryptoSafety.StepKeepsInv` | tsa-app/hooks/usePayCrypto.ts:110-381 | every step of every call, and everything outside the calls, keeps the protocol's invariant |
| `PayCryptoSafety.ReadKeeps` | tsa-app/hooks/usePayCrypto.ts:146-161 | reading the hold drops it only when over 24 h old, and then every swap handed over is settled |
| `PayCryptoScreens.ReportSwap` | tsa-app/hooks/usePayCrypto.ts:92-108 | at most three server calls; stops at the first acceptance or final refusal, unreachable exactly after three answers of neither kind; the loop is the machine's run of report steps |
| `PayCryptoScreens.StepKeepsScreens` | tsa-app/hooks/usePayCrypto.ts:169-218 | the checking flag of a screen is set exactly while one call of that screen is in its check |
| `PayCryptoScreens.StepKeepsDoubt` | tsa-app/hooks/usePayCrypto.ts:135-161 | an attempt in flight on a screen that could not read the hold always has its own run's fresh read still to come |
| `PayCryptoScreens.StepStrandsNobody` | tsa-app/hooks/usePayCrypto.ts:169-337 | after any step an attempt in flight has a run or a check of its screen at work |
| `PayCryptoScreens.NeverStranded` | tsa-app/hooks/usePayCrypto.ts:238-337 | in every reachable state an attempt in flight has a run or a check of its screen at work |
| `PayCryptoScreens.CallsEnd` | tsa-app/hooks/usePayCrypto.ts:92-381 | every answer brings its call nearer its end, so a run or a check is over after at most eight answers, reports included |
| `PayCryptoScreens.IdleOnlyWithoutHold` | tsa-app/hooks/usePayCrypto.ts:370-381 | no step brings a screen back to idle while an active hold exists or the hold cannot be read |
| `PayCryptoOutcomes.EndShows` | tsa-app/hooks/usePayCrypto.ts:92-337 | what a call's last answer leaves on a screen the server has not paused: refused, or no hash under a hold, is held for good with neither Pay nor Continue; three lost reports, an unreachable server under a hold or a store that cannot be read are held with Continue; a taken or known swap is waited on; nothing signed, saved or sent offers neither Pay nor Continue |
| `PayCryptoOutcomes.ReportShows` | tsa-app/hooks/usePayCrypto.ts:126-133 | a report that ends a check or a run: held for good when refused, held with a way on after the third lost answer, waited on when taken |
| `PayCryptoOutcomes.OpenShows` | tsa-app/hooks/usePayCrypto.ts:178-204 | a check's question to the server: held exactly under a hold and no answer, Pay again without one, "nothing to continue" only when she asked and nothing is open, else waited on |
| `PayCryptoOutcomes.HashShows` | tsa-app/hooks/usePayCrypto.ts:205-211 | a check with no stored hash: held for good under a hold, else waited on |
| `PayCryptoOutcomes.RunShows` | tsa-app/hooks/usePayCrypto.ts:270-331 | a run that ends before any report: neither Pay nor Continue when its intent was opened, paused when the server says so, Pay again when nothing started |
| `PayCryptoOutcomes.UnreadShows` | tsa-app/hooks/usePayCrypto.ts:135-154 | a hold that cannot be read is a held failure with a way on, whatever asked for it |
| `PayCryptoOutcomes.RunGoesOn` | tsa-app/hooks/usePayCrypto.ts:238-268 | with the hold read: an active one sends a run to a check, never on to a payment; without one it goes on exactly on a supported network with no sale running, and else offers Pay |
| `PayCryptoOutcomes.ResetGoesOn` | tsa-app/hooks/usePayCrypto.ts:370-381 | a reset under an active hold goes to a check, never to idle; with none it is one |
| `PayCryptoOutcomes.UnheardGoesOn` | tsa-app/hooks/usePayCrypto.ts:270-281 | a start the server may have made goes on to a check nobody asked for, unless one is under way, with its intent open |
| `PayCryptoOutcomes.CheckGoesOn` | tsa-app/hooks/usePayCrypto.ts:156-176 | a check goes on with the intent it found held, or with none; a doubt that was only doubt ends it |
| `PayCryptoOutcomes.ReadDrops` | tsa-app/hooks/usePayCrypto.ts:155-158 | a record that has run out goes when it is read, with its hash, and nothing else is touched |
| `PayCryptoOutcomes.FirstLook` | tsa-app/hooks/usePayCrypto.ts:220-230 | opening a screen looks at the hold and, under an active one, checks on it before Pay is offered |
| `PayCryptoOutcomes.LookedAtOnce` | tsa-app/hooks/usePayCrypto.ts:114-115 | only the end of the screen's own first look lets Pay be offered |
| `PayCryptoOutcomes.ReportStores` | tsa-app/hooks/usePayCrypto.ts:92-133 | a taken swap's record and hash are let go of; a swap that is not taken keeps its hash and is held for, from now if nothing was stored |
| `PayCryptoOutcomes.CheckStores` | tsa-app/hooks/usePayCrypto.ts:181-212 | a check reports the hash stored for the open intent, or for the held one when none is open, and holds for it when it cannot |
| `PayCryptoOutcomes.RunStores` | tsa-app/services/sellSwapRun.ts:183-260 | a swap is handed over with its hash and a record stored; one that did not go out leaves neither, and its intent closed when the server closed it |
| `PayCryptoOutcomes.HashTaken` | tsa-app/hooks/usePayCrypto.ts:92-108 | the server takes a hash only for the open intent, while it waits for one or has it already, and then that intent waits for none |
| `PayCryptoOutcomes.LockIsARuns` | tsa-app/services/sellSwapRun.ts:35-66 | in every reachable state the sale lock is held exactly while a run of the payment is past its claim: it is never left behind |
| `PayCryptoOutcomes.AskShows` | tsa-app/hooks/usePayCrypto.ts:169-243 | what she asks of a screen starts one attempt at a time, nothing on a paused one, and one check at a time |
| `PayCryptoLimits.StepBreaksAgreement` | tsa-app/hooks/usePayCrypto.ts:126-214 | from a reachable state where an active hold and the open intent agree, a step parts them exactly when an intent opens under an active hold of another, or a check giving up writes its intent's hold into an empty store while another is open |
| `PayCryptoLimits.HoldNamesOpenIntent` | tsa-app/hooks/usePayCrypto.ts:197-214 | over any run they agree throughout exactly when none of its steps is one of these |
| `PayCryptoLimits.HoldCanNameAnother` | tsa-app/hooks/usePayCrypto.ts:126-133 | a reachable state where an active hold names another intent than the open one |
| `PayCryptoLimits.LeftoverRecordLetsTwoOut` | tsa-app/services/payHold.ts:64-69 | a reachable hand-over with another swap signed in the same minute, unknown to the server, the payment not ended |
| `PayCryptoLimits.LateHoldLetsTwoOut` | tsa-app/hooks/usePayCrypto.ts:126-133 | a reachable hand-over of a run that had found the store empty, under an active record older than its signature |
| `PayCryptoLimits.HeldThenOffersPay` | tsa-app/hooks/usePayCrypto.ts:173-203 | a reachable held failure that two checks turn into one that offers Pay |
| `PayNairaSafety.OneDepositWhileHeld` | tsa-app/hooks/usePayNaira.ts:317-364 | across kills and repeated "send again", when an order's deposit leaves every earlier one of that order has no record covering it or one over 24 h old |
| `PayNairaSafety.EveryDepositIsRightful` | tsa-app/services/depositGuard.ts:107-111 | every deposit that left is her chosen chain and token for at most 2 % over the price she was shown, or has the chain, token, deposit address and amount she authorised, and it left from the wallet that opened the order |
| `PayNairaOutcomes.OpenedShows` | tsa-app/hooks/usePayNaira.ts:287-310 | she pays what the payment opened exactly when it is for her chain and token and its amount can be read and is at most 2 % over the price; else nothing leaves and neither Pay nor Continue is offered |
| `PayNairaOutcomes.RereadShows` | tsa-app/hooks/usePayNaira.ts:339-364 | "send again" goes on exactly for an order that waits, is not claimed and has nothing of its own held or unreadable, from the wallet that opened it, for the chain, token, address and amount shown; what may be out is waited on, anything else shown as it is now |
| `PayNairaOutcomes.SendShows` | tsa-app/hooks/usePayNaira.ts:317-332 | what is sent is this order's deposit from this wallet; what was not broadcast is to be sent still |
| `PayNairaOutcomes.SelfPaidNeedsARecord` | tsa-app/services/depositGuard.ts:57-67 | she pays the deposit herself exactly when the store can be read and a record is in it, or is written; with an unreadable store, or an empty one that cannot be written, nothing is sent |
| `PayNairaOutcomes.SentShows` | tsa-app/services/depositGuard.ts:66-78 | a refused send takes its record along and leaves the order to be sent; one that left or may have is waited on, never offered again |
| `PayNairaOutcomes.ClaimShows` | tsa-app/hooks/usePayNaira.ts:130-133 | a claim that worked is on the order, a lost one changes nothing, and either way the order is waited on |
| `PayNairaOutcomes.FollowShows` | tsa-app/hooks/usePayNaira.ts:225-236 | following only reads: the order is to be sent exactly when it waits, is not claimed and nothing of it may be out |
| `PayNairaOutcomes.AskShows` | tsa-app/hooks/usePayNaira.ts:339-374 | a payment or a "send again" starts only with no attempt in flight and none the server paused |
| `PayNairaSafety.SelfPaidIsCoveredUnless` | tsa-app/services/depositGuard.ts:50-66 | a self-paid deposit leaves protected for 24 h exactly when its record is written at that moment: nothing was stored, or another order's record that goes |
| `PayNairaSafety.RelayedIsCoveredUnless` | tsa-app/services/depositGuard.ts:57-77 | a relayed deposit is protected once answered exactly when its record is written then: storage readable and writable, and nothing stored or another order's record that goes |
| `PayNairaLimits.AtMostOneRecordedDeposit` | tsa-app/services/depositGuard.ts:27-49 | over any run in which every order closes within 24 h of its opening, of two deposits of one order the earlier left without a record |
| `PayNairaAgain.SelfPaidLeavesAgainExactlyWhen` | tsa-app/services/depositGuard.ts:44-66 | after a self-paid deposit some run sends its order again within 24 h exactly when the order still waits and the record was not written at the send |
| `PayNairaAgain.RelayedLeavesAgainExactlyWhen` | tsa-app/services/depositGuard.ts:40-77 | after an answered relay, exactly when the order still waits, the store can be read and the record was not written then |
| `PayNairaAgain.UnansweredRelayLeavesAgainExactlyWhen` | tsa-app/services/depositGuard.ts:40-70 | between a relay and its answer, exactly when the order still waits and the store can be read |
| `PayNairaAgain.BlockedNeverSends` | tsa-app/services/depositGuard.ts:80-100 | an order not about to be sent, that no longer waits or waits under a store that cannot be read, is never sent again |
| `PayNairaLimits.SpentRecordSendsAgain` | tsa-app/services/depositGuard.ts:57-62 | a reachable third send of an order in the instant of the second, its own record having run out |
| `PayNairaLimits.RelayThenKillSendsTwice` | tsa-app/services/depositGuard.ts:44-70 | a reachable state with two equal deposits of one order sent at the same moment |
| `PayNairaSafety.RereadKeeps` | tsa-app/hooks/usePayNaira.ts:339-364 | reading the order together with the hold before sending again keeps the invariant: it goes on only with spent deposits behind it, its own wallet and what was shown |
| `PayNairaSafety.StepKeepsInv` | tsa-app/hooks/usePayNaira.ts:225-364 | every step keeps the invariant that records cover what left while its order waits |
| `Totals.ShareIsTotal` | smart-contracts/scripts/v1-snapshot.js:99-146 | a set of users holds the whole ledger exactly when nobody outside it holds anything |
| `SwapContract.Swap.MigratePremium` | smart-contracts/contracts/McgpEntitlementSwapV2.sol:662-687 | an import batch is all or nothing: taken exactly when the owner sends it, it is open, every row is fine when reached and the new total is backed; then it is the fold of its rows |
| `SwapContract.Swap.Withdraw` | smart-contracts/contracts/McgpEntitlementSwapV2.sol:787-797 | the owner can take only what exceeds everything owed; the swap stays solvent and no MCGP is lost |
| `SwapContract.Swap.WithdrawPremiumToWallet` | smart-contracts/contracts/McgpEntitlementSwapV2.sol:446-456 | a holder's exit lowers what the holder is owed, what is owed in all and what is held by the same amount, which the holder gains; it works while paused |
| `SwapContract.ImportedAccounts` | smart-contracts/contracts/McgpEntitlementSwapV2.sol:673-684 | importing any rows keeps the total owed equal to the sum over all users |
| `SwapContract.ImportedSplit` | smart-contracts/scripts/v2-migrate.js:170-190 | importing in batches is importing at once, checks included |
| `Migrate.RowsTakenWhen` | smart-contracts/contracts/McgpEntitlementSwapV2.sol:670-684 | the rows of an import are fine exactly when each is named, for something and not imported yet, and no user is in them twice |
| `Migrate.ImportedExactlyOnce` | smart-contracts/scripts/v2-migrate.js:148-191 | over any number of runs dying after any batch, with any use of the swap between them, everything sent is a prefix of what was pending at first: nobody twice, and all of it once nothing is pending |
| `Migrate.QuietHistory` | smart-contracts/scripts/v2-migrate.js:135-220 | without other use the whole history is one import of that prefix and the total owed grew by exactly its amounts |
| `Migrate.ResumeSendsTheRest` | smart-contracts/scripts/v2-migrate.js:148-162 | after k pending rows are in, a later run finds pending exactly the others, in order |
| `Migrate.ImportedAt` | smart-contracts/scripts/v2-migrate.js:194-208 | an import of distinct holders adds to each listed holder exactly that holder's row |
| `Migrate.SendBatches` | smart-contracts/scripts/v2-migrate.js:170-190 | the batches sent are a prefix of the rows, cut exactly where the process died; backed, a batch reverts exactly when a row it lives to send is one the contract does not take |
| `Migrate.CountMismatches` | smart-contracts/scripts/v2-migrate.js:195-208 | zero mismatches exactly when every holder has its bought and its credited amounts on top of before, nothing for those skipped |
| `Migrate.PostChecks` | smart-contracts/scripts/v2-migrate.js:194-237 | for any ledgers it finds, the run fails with the first of: total off, a holder off, source moved, underbacked; and passes when none is |
| `Migrate.BatchesAre` | smart-contracts/scripts/v2-migrate.js:170-173 | n batches are n times their size, but never more than there is |
| `Migrate.FullImportMatches` | smart-contracts/scripts/v2-migrate.js:194-220 | a finished run's own import always passes that comparison, also with nothing left to import |
| `Migrate.Preflight` | smart-contracts/scripts/v2-migrate.js:82-133 | the run is refused for the first of: inconsistent snapshot, something in flight, source not paused, source changed, not the owner, sealed, underfunded; and goes on when none is |
| `Migrate.Migrate` | smart-contracts/scripts/v2-migrate.js:61-249 | one run from start to seal: solvent throughout, MCGP conserved, exactly a prefix of the pending rows imported; and each outcome exactly from its inputs: refused, dry run, died, batch reverted, source moved, verified, sealed |
| `Migrate.MigrateUntilSealed` | smart-contracts/scripts/v2-migrate.js:148-249 | any number of runs of one snapshot up to a seal, each dying or failing anywhere: always a prefix of the rows due at the start, each once; a seal means all of them, and that nobody has left the source in any of the runs |
| `Migrate.DiedThenResumed` | smart-contracts/scripts/v2-migrate.js:123-191 | a run that died, resumed over the same MCGP and asked to seal, seals exactly when the rest can be imported, it lives for it, nobody leaves, and what the first run sent is funded a second time |
| `Migrate.ResumeFunding` | smart-contracts/scripts/v2-migrate.js:123-133 | on a resumed run the funding check holds exactly when what was already sent is covered a second time |
| `Migrate.ExactFundingCannotResume` | smart-contracts/scripts/v2-migrate.js:123-133 | an exactly funded import that sent at least one row fails the check although the rest would fit |
| `Cutover.Freeze` | smart-contracts/scripts/cutover-freeze.js:65-124 | cut after any transaction, both swaps hold at least what they owe and MCGP over the two and the signer is conserved; it does not start on a target that cannot quote or is sealed, for a signer that does not own both, or when twice what is owed and the buffer exceed what is held; every other outcome exactly from its inputs |
| `Migrate.TotalTellsEveryMove` | smart-contracts/scripts/v2-migrate.js:15-22 | with withdrawals the only move, the source's total is back at the snapshot's exactly when its whole ledger is unchanged, which is exactly when none of them could be made |
| `Cutover.SealedMeansNobodyLeft` | smart-contracts/scripts/v2-migrate.js:222-242 | past the final check every listed holder has on the source exactly the snapshot's amounts |
| `Cutover.ListedAmounts` | smart-contracts/scripts/v2-migrate.js:178-208 | importing a complete list copies the old ledger onto the new one user by user |
| `Cutover.SnapshotAndImport` | smart-contracts/scripts/rehearse-fresh-cutover.js:34-60 | snapshot and first import of a backed swap: never refused for funds, never a reverted batch; dry, stopped by a moved source, verified or sealed each exactly from its inputs, and sealed a copy of a source nobody left |
| `Cutover.Rehearse` | smart-contracts/scripts/cutover-freeze.js:84-132 | freeze, snapshot, import and seal in a row, with withdrawals in between and during: once frozen the import's funding check cannot fail; sealed exactly when the freeze could run, the scan found everybody left, nothing is in flight, sealing was asked for and nobody leaves, and then every holder has on the new swap exactly what the old one still shows |
| `SnapshotScript.FindDeploymentBlock` | smart-contracts/scripts/v1-snapshot.js:42-52 | the search ends at a block with code whose predecessor has none, the least such block when code stays |
| `SnapshotScript.WindowsTile` | smart-contracts/scripts/v1-snapshot.js:80-96 | the backward scan asks for every block of the range in exactly one window and for nothing outside it |
| `SnapshotScript.WindowsAreSmall` | smart-contracts/scripts/v1-snapshot.js:37-82 | no window is of more than 100,001 blocks |
| `SnapshotScript.Discover` | smart-contracts/scripts/v1-snapshot.js:80-97 | the candidates are exactly the addresses named by a query that did not fail |
| `SnapshotScript.SharesComplete` | smart-contracts/scripts/v1-snapshot.js:138-146 | the sums equal the total owed exactly when the users found include everyone with a balance |
| `SnapshotScript.TakeSnapshot` | smart-contracts/scripts/v1-snapshot.js:99-178 | the snapshot is written exactly when everybody with a balance was found, whatever queries failed, and then lists exactly them, once, with exactly their amounts |
| `SnapshotScript.ListedMeans` | smart-contracts/scripts/v1-snapshot.js:104-120 | a listed row is the user's own amounts, everybody with anything at all has one, and nobody two |
| `SnapshotScript.WrittenIsWellFormed` | smart-contracts/scripts/v1-snapshot.js:104-120 | with nothing in flight, a written snapshot is one the import takes row by row |
| `SplitCutover.UpgradeAndFlip` | smart-contracts/scripts/system-wallet-cutover.js:81-113 | from any proxy, with anyone calling the initialiser between any two steps, a completed run leaves the wallet set, the split off and the initialiser used; a settled proxy is sent nothing; a revert means the initialiser was taken in between |
| `SplitCutover.CrashedThenCompleted` | smart-contracts/scripts/system-wallet-cutover.js:8-18 | a crashed or front-run run, a second one and any public calls later: once the second completes the split stays off; after a revert or a completion the second always completes |
| `Wire.NothingToSend` | smart-contracts/deploy/p2p-escrow.js:13-25 | no value differs exactly when every configured value is set |
| `Wire.AllSetMeans` | smart-contracts/deploy/p2p-escrow.js:13-25 | "set" value by value: the system wallet, every token accepted under its symbol, MCGP's own address wherever it is listed, Permit2, forwarder and fee manager where configured |
| `Wire.AddrIsListed` | smart-contracts/deploy/p2p-escrow.js:21 | a symbol's address is its entry's, wherever in the table it stands |
| `Wire.WireEscrow` | smart-contracts/deploy/p2p-escrow.js:13-25 | from any state, cut anywhere: one transaction per differing value, everything set at the end, nothing outside the configuration touched, the fee manager last of all |
| `Wire.WireAgain` | smart-contracts/deploy/p2p-escrow.js:7-12 | cut anywhere and run again until it finishes, then once more: in all exactly one transaction per value that differed at the start |
| `Wire.WireTokens` | smart-contracts/deploy/p2p-escrow.js:16-20 | the token table's part: exactly the differing acceptances and symbols are sent and no other token is touched |
| `Wire.HandOver` | smart-contracts/deploy/lib.js:102-126 | each outcome exactly from its inputs: returns normally when every missing owner can be moved and all read back; otherwise it stopped at a transfer that fails, every earlier owner the target and nothing sent from there on |
| `Wire.NoneMissing` | smart-contracts/deploy/lib.js:102-126 | nothing is missing exactly when every owner is the target, so a re-run after a full handover sends nothing |
| `DirectDeploy.DeployAndWire` | smart-contracts/deploy/p2p-direct.js:362-386 | dies exactly when cut before the transactions it needs; alive, everything is set, rates included, and only configured values changed |
| `DirectDeploy.Deploy` | smart-contracts/deploy/p2p-direct.js:288-435 | one run cut anywhere, each outcome exactly from its inputs: refused, only read back, died, not handed over, handed over; an escrow of the deployer's, fresh or resumed, is fully wired when the run lives for what is missing, and exactly the rest is missing when not; reported clean or handed over, the fee manager the escrow reads has the plan's rates; neither contract leaves the deployer unless every check before the handover was clean |
| `DirectDeploy.WiredReadsClean` | smart-contracts/deploy/p2p-direct.js:174-213 | an escrow wired from the plan passes both read-backs exactly when what wiring does not touch (admins, fee, forwarder, MCGP, pause, other tokens) was right to start with |
| `DirectDeploy.CleanMeans` | smart-contracts/deploy/p2p-direct.js:174-213 | the read-back is clean exactly when every value read is the plan's own, the rates of both features for every token among them |
| `DirectDeploy.AssertMeans` | smart-contracts/deploy/deterministic-escrow.js:279-302 | the deterministic deploy's own read-back passes exactly when each of its values is the plan's |
| `DirectDeploy.StartMeans` | smart-contracts/deploy/p2p-direct.js:322-367 | which runs are refused before anything is sent, and which escrow is only read back |
| `DirectDeploy.FirstRunCut` | smart-contracts/deploy/p2p-direct.js:322-386 | a first run cut anywhere leaves an escrow later runs take for finished, or refuse, exactly when its last transaction is missing: the fee manager's when the window is the initial one, the window's when not |
| `DirectDeploy.Runs` | smart-contracts/deploy/p2p-direct.js:322-339 | any number of runs, each cut anywhere: a wired escrow is never written to again, and one that left the deployer is in the planned state, its own fee manager with the plan's rates and the same owner |
| `DirectDeploy.FreshReadsClean` | smart-contracts/deploy/p2p-direct.js:174-213 | a fresh escrow wired from the plan passes both read-backs, for any plan that passed its checks |
| `DirectDeploy.SameAfterHandover` | smart-contracts/deploy/p2p-direct.js:425-432 | what read back clean before the handover reads back clean after it exactly when the new owner is no forbidden admin |
| `DirectDeploy.DiedBeforeFeeManager` | smart-contracts/deploy/deterministic-escrow.js:362-376 | with the owner the deployer, an unwired escrow is taken for finished exactly when all but its fee manager is set, and then never reads back clean |
| `DirectDeploy.DiedBeforeWindow` | smart-contracts/deploy/p2p-direct.js:334-339 | a fee manager set and a wrong window: every later run refuses |
| `Manifest.EntriesNeverChange` | smart-contracts/deploy/deterministic-escrow.js:195-225 | over any deploys on any networks dying anywhere, an entry's salts, hashes, addresses and arguments never change, its chains only grow, and every recorded chain has its one proxy |
| `Manifest.StepKeeps` | smart-contracts/deploy/deterministic-escrow.js:344-393 | one deploy keeps all of that |
| `Manifest.PlanMeans` | smart-contracts/deploy/deterministic-escrow.js:168-191 | both addresses are CREATE2's of their own salt and init code, the proxy's over the implementation's address |
| `Manifest.RefusedElsewhere` | smart-contracts/deploy/deterministic-escrow.js:195-209 | with an entry there, a deploy is recorded on its chain exactly when that chain already was or it lands at the recorded address from the recorded arguments |
| `Manifest.UnrecordedIsNotPinned` | smart-contracts/deploy/deterministic-escrow.js:388-393 | after a run that died before recording, a second run may record another address, exactly when the two plans differ |
| `VerifyDirect.ScanLogs` | smart-contracts/scripts/verify-direct-escrow.js:54-61 | for any window size and any order within a window the result is exactly the range's logs in chain order |
| `VerifyDirect.OrderIsUnique` | smart-contracts/scripts/verify-direct-escrow.js:60 | two chain-ordered lists of the same logs are the same list |
| `VerifyDirect.OrderMeans` | smart-contracts/scripts/verify-direct-escrow.js:60 | chain order is by block, and within a block by index |
| `VerifyDirect.Replay` | smart-contracts/scripts/verify-direct-escrow.js:165-186 | the loop over the logs computes the folds of the history, in order; a removal is reported exactly when nothing was there to remove |
| `VerifyDirect.VerifyHistory` | smart-contracts/scripts/verify-direct-escrow.js:165-215 | no mismatch exactly when admins and tokens are the expected ones, the ownership chain runs from zero to the owner read, an admin was added and every removal had its addition |
| `VerifyDirect.CleanMeansExact` | smart-contracts/scripts/verify-direct-escrow.js:165-216 | over a history the contract can have emitted, the removal, ownership and was-an-admin-added checks never fire by themselves: beyond the two sets only an owner read that is not the last one is reported |
| `EscrowHistory.HistoryTells` | smart-contracts/contracts/P2PEscrowV3.sol:252-271 | whatever calls anyone sends from the deployment on, reverts included, the events tell the contract's admins, accepted tokens and owner |
| `EscrowHistory.CallsMean` | smart-contracts/contracts/P2PEscrowV3.sol:252-271 | only the first initialisation and the owner change anything, and each call changes and logs what it names |
| `EscrowHistory.VerifyEscrow` | smart-contracts/scripts/verify-direct-escrow.js:148-216 | scan in any windows, then replay and checks: nothing is reported exactly when the contract's admins are the arbiters and its accepted tokens the plan's |
| `VerifyDirect.DroppedStretch` | smart-contracts/scripts/verify-direct-escrow.js:188-204 | dropping a stretch of transfers goes unnoticed exactly when something is left and ownership came back over it |
| `VerifyDirect.DroppedTransferIsReported` | smart-contracts/scripts/verify-direct-escrow.js:195-204 | dropping any single transfer but one to oneself is reported |
| `VerifyDirect.DroppedAdminGoesUnnoticed` | smart-contracts/scripts/verify-direct-escrow.js:165-212 | with the only event of one admin dropped from a genuine history, every check passes exactly when the other admins are the arbiters and tokens and owner are right |
| `Conversion.PriceRoundTrip` | tsa-app/hooks/useMerchantPricing.ts:36-63 | whole cents shown in any currency of at least one unit to the dollar read back as exactly those cents |
| `Conversion.SwitchMovesLittle` | tsa-app/hooks/useMerchantPricing.ts:51-89 | switching an edited amount between two known rates moves the submitted price by at most 1.5 cents plus half of the new currency's smallest unit |
| `Conversion.TypedIsNeverFree` | tsa-app/hooks/useMerchantPricing.ts:54-56 | a positive typed amount is submitted as at least one cent |
| `Conversion.SwitchedIsFreeExactlyWhen` | tsa-app/hooks/useMerchantPricing.ts:76-89 | a switch makes a positive price free exactly when its worth is under half of the new currency's smallest unit |
| `Conversion.RoundsToNearest` | tsa-app/hooks/useMerchantPricing.ts:36-39 | formatting moves a value by at most half a hundredth |
| `Conversion.SubmittedAtTheTable` | tsa-app/hooks/useMerchantPricing.ts:41-57 | a typed amount is submitted as its worth at the table's rate, to the nearest cent and at least one |
| `Conversion.DollarsAsTyped` | tsa-app/hooks/useMerchantPricing.ts:46-57 | whole cents typed in dollars are submitted as those cents |
| `Conversion.ShownAtTheTable` | tsa-app/hooks/useMerchantPricing.ts:59-63 | a dollar price is shown times the table's rate, to the nearest hundredth |
| `Conversion.ConvertedAtTheTable` | tsa-app/hooks/useMerchantPricing.ts:76-89 | an amount moved to another currency is divided by the old entry and multiplied by the new one, to the nearest hundredth |
| `MerchantPricing.SubmittedFromTheTable` | tsa-app/hooks/useMerchantPricing.ts:252-261 | an edited key submits the amount shown over the entry of the code in use, nothing when blank, zero without a rate |
| `MerchantPricing.SwitchShowsTheTable` | tsa-app/hooks/useMerchantPricing.ts:237-250 | a switch shows the old amount over the old entry times the new one |
| `MerchantPricing.ZonesOfAFee` | tsa-app/constants/shipping.ts:3-28 | a base fee fills the zones with once, 1.5, 2.5 and 5 times itself |
| `MerchantPricing.PresetIsAFee` | tsa-app/hooks/useMerchantPricing.ts:180-201 | a package preset is its dollar price typed as a base fee, and nothing that is no fee fills a zone |
| `MerchantPricing.SavedPriceIsVerbatim` | tsa-app/hooks/useMerchantPricing.ts:155-278 | after a load with a positive price, any operations that do not touch the key submit the saved value unchanged |
| `MerchantPricing.StepKeepsSaved` | tsa-app/hooks/useMerchantPricing.ts:171-278 | one operation keeps a key's saved price exactly when it does not edit, fill, reload or reset it, or reloads the same price |
| `MerchantPricing.BaseFeeFillsZones` | tsa-app/hooks/useMerchantPricing.ts:179-196 | a typed base fee makes each zone show the fee times its multiplier, rounded once, and submit that at the current rate; no saved price and no other key changes |
| `MerchantPricing.LoadsMerge` | tsa-app/hooks/useMerchantPricing.ts:203-225 | loading a listing in two parts is loading it at once, the later part winning |
| `MerchantPricing.LoadedIsShown` | tsa-app/hooks/useMerchantPricing.ts:203-235 | once a rate is known, a loaded positive price is submitted as saved and shown at the rate, a zero or missing one is blank and not submitted, and no other key changes |
| `MerchantPricing.SwitchMovesSubmitted` | tsa-app/hooks/useMerchantPricing.ts:237-261 | a currency switch leaves saved prices submitted as before; an edited positive amount moves by at most 1.5 cents and half of the new smallest unit, or is blank when a rate is unknown |

## Left out

- The payment protocols are modelled on values, one step per storage read or server answer together with the writes it decides on; a kill between two writes of one step, and a read that expires a record while another call writes it, are not steps of the model.
- Clocks, sleeps, the network, authorisation prompts, prices, quotes and gas top-ups are inputs of the steps or absent; the price she was shown is bound to the signature only in the naira model.
- When a broadcast is unconfirmed and its hash can be read from neither the error nor the store, the code holds without a report; the model always has the hash the signing step stored.
- Time does not run backwards in the model, records found at the start are not dated in the future, and no stored record names a naira order that is yet to be opened.
- The converted naira route, the pipeline that swaps first and then pays out (tsa-app/hooks/useSwappedSell.ts), and `continue` and wallet offers on it; an order a second naira screen opens while a send is under way.
- A naira follow is one step, and a "send again" reads order and hold in one step.
- The driver effects of tsa-app/hooks/usePayLive.ts appear only as steps that may follow or release at any moment the guards allow.
- Liveness beyond "an attempt in flight has work going on, and that work ends after boundedly many answers": no answer is forced to come.
- The old swap's ledger growing between the freeze's first read and its pause: the freeze model is one sequence without other users before the pause.
- Of the swap contract only pausing, funding, withdrawing, a holder's exit, the import and the seal; a guardian may pause too. Withdrawals after the last source check are outside what the script can see.
- `Migrate.Migrate`: withdrawals during the batches are placed after the last batch, which is the same state because the two ledgers share only the token.
- `Migrate.ImportedExactlyOnce`: does not say that the runs' sealing or refusals are part of the history; they change no row.
- `SnapshotScript.TakeSnapshot`: does not model the order the file's rows are sorted in; the import's theorems hold for any order.
- Chain id, file and ledger checks of the scripts; block explorers, implementation code and EIP-712 details.
- `DirectDeploy.Deploy`: counts the fee manager's deployment as one transaction and the proxy's as one; the rates parser, decimals of tokens, manifest guard and code checks are preconditions, and what the event scan reports is an input (proved separately in `VerifyDirect`).
- The fee manager's side of the verifier: the same ownership chain over another contract's logs, so only the escrow's is modelled.
- `EscrowHistory.VerifyEscrow`: takes logs that are complete in the scanned range and a range that holds the whole history; what missing logs do is `VerifyDirect.DroppedStretch` and `VerifyDirect.DroppedAdminGoesUnnoticed`.
- `SplitCutover.UpgradeAndFlip`: the only public call modelled is the initialiser; the deployment of the new implementation before the upgrade is not counted as a transaction.
- `Wire.HandOver`: the failure of an `owner()` read inside the transfer loop is the same as that transfer failing.
- Prices are rationals: binary rounding, the syntax of typed numbers, numbers too large for plain notation and the default currency are not modelled.
- `MerchantPricing.SavedPriceIsVerbatim`: does not cover two updates of one render interleaving; each operation sees the state the previous one left.
- Whether this device holds a wallet that can sign: runs and "send again" always have one.
- Screens, notifications, routing, static registries and one-off scripts, which hold no property of this kind.
