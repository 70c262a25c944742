# Host agent stack: models and proofs

The scripts under `scripts/` install and run an isolated browser agent on one host. This project models
the parts that must be right in every crash, restart and interleaving, or for every byte string, and
proves it. `dafny verify dfyconfig.toml` checks everything.

| file | models |
|---|---|
| `Package.dfy` | the crash-safe package transaction (`selected-runtime-package.py`) |
| `Refresh.dfy` | the four-file refresh with backups overwritten in place (`review-runtime-refresh.py`) |
| `Ledger.dfy`, `Pricing.dfy` | the broker's spending ledger and exact prices (`a4-credential-broker.py`) |
| `Bindings.dfy` | credential bindings, rotation, revocation and delivery (`a4-credential-broker.py`) |
| `Supervisor.dfy` | runs, attempts, actions, takeover and teardown (`a3-worker-supervisor.py`) |
| `Canary.dfy`, `Base64.dfy`, `Utf8.dfy` | the search for a leaked value in any common encoding (`a4-canary-scan.py`) |
| `Json.dfy` | canonical JSON and the uniqueItems test (`selected_browser_contract.py`) |
| `CredentialFrame.dfy`, `WebSocket.dfy`, `BigEndian.dfy` | the stream formats of the guest (`a3-worker-guest.py`) |
| `Checksum.dfy` | the Internet checksum of the probe frames (`a3-probe-fence.py`) |

## How it is modelled

- **Crashes.** `Package` and `Refresh` hold everything durable in one value `disk`. Every durable effect (one
  file write or removal, one journal save, one `systemctl` call) is a call of `Store`, which requires the
  invariant of the disk it is about to produce and may find that the process died first; `power` says after
  how many effects it dies. A method that verifies therefore keeps the invariant at each point where it could
  be cut off. A check of the environment that refuses after the first effect has no effect of its own and
  ends the process, so it is the same event as a crash there.
- **Hashes** are injective names for bytes (`Digest`, `PlanDigest`).
- **Exclusive writers.** While a transaction is open only the package writes its owned paths and starts its
  units; between transactions other owners write what they like (`OtherWriter`, `OperatorStarts`), also while the
  package stages its files, and in a refresh until its journal is saved (`during`).
- **Vault versions** only grow. A store that deletes a value with all its metadata and starts again at version 1 is
  not modelled, and "versions never go back" rests on that.
- **Memory and journal.** The broker and the supervisor change memory first and save then. Each model keeps the
  two apart: any save may fail, which ends the request with memory ahead of the journal, and a restart reads the
  journal. A save that replaced the file and then raised is a failed save followed by one that succeeds.
- **The broker's ledger.** Sections under the lock are separate methods, and `Broker.Schedule` calls them in any
  order, with lost saves, uncaught exceptions and crashes in between.
- **Bindings and the supervisor** are step functions over such sections, with a class whose methods are proved to
  take exactly those steps. Whole histories are any sequences of sections, saves that succeed or fail, and
  crashes. After a restart the supervisor serves nobody until `recover` is through, and a save that fails in
  `recover` ends the process again.
- **Clocks, random names, replies and outside facts** are parameters.

## Results that are not plain yes

- *An interrupted or applied package can always be taken back* holds if and only if the host and the gateway
  directory are as the journal recorded them (`SomeCommandAccepts`, `RecoverThroughCrashes`): recover, rollback and
  commit compare them alike. Once services are up and the gateway has written one entry, no command can close the
  transaction, and a new apply refuses too (`UpdateThenGatewayWrites`, `StaysOpen`).
- *A refresh can always be rolled back* holds if and only if the protected files and runtime ledgers are as the
  journal recorded them and no target holds foreign bytes (`CanRollBack`; `Refresh.Rollback`,
  `RollBackThroughCrashes`). The first fails in every phase: once an applied refresh has its services up, new work in
  a ledger leaves only `commit` (`AppliedThenDrift`), and a drift noticed before the services are stopped leaves a
  prepared refresh over its old files (`DriftBeforeStop`). The second fails only before `replacing`
  (`RollbackAcceptsExactly`): another owner may write a target after its old bytes were read. Such a write is never
  overwritten (`Refresh.Apply`), but where it is neither the old nor the new file (`ForeignWrite`) rollback refuses.
  In each of these cases the refresh stays as it is under every command but that commit (`StaysUnfinished`).
- *Revoked stays revoked, one rotation wins per expected revision, a revision has one version* hold of everything
  that reached the journal (`SavedRevocationLasts`, `OneSavedWinner`, `SavedDeliveryLasts`), and are false of what
  is in memory alone: `LostRevocation` and `LostRotation` are histories in which a save fails and a restart brings
  the old binding back, in the second after a run was pinned to the lost revision and served. The exact conditions:
  memory never goes back if and only if every restart found everything saved (`MemoryNeverGoesBack`); after a crash
  a rotation can win with an expected revision if and only if the journal leaves room for it (`WinsAfterCrash`); a
  revoked binding can be active again if and only if the revocation is not in the journal (`ActiveAgain`); and the
  version served at a revision can become another one if and only if the journal lacks that revision
  (`ServedVersionCanChange`).
- *A terminal attempt is final* is false of the code in two ways. `launch` drops its lock between admission,
  reservation and its last write, and none of the three looks again: in `StopInTheGap` an attempt that was stopped,
  signed and saved is running afterwards. And an end whose save failed is gone after a restart (`LostEnd`).
  `FinalUnlessRevived` gives the exact condition for one section, `FinalExactly` the exact condition for a whole
  history and all pairs of its moments. `SavedEndIsFinal` and `TerminalIsFinal` prove finality for every history in
  which no teardown of an attempt begins while that attempt is being launched. Single worker, fences, ordinals,
  takeover and leases within the deadline hold with the gaps, the failed saves and the crashes.
- *An ended attempt holds no action that is still started* is false for the same reason: `StartedAtTheEnd` is a history
  in which a launch sets an attempt running whose teardown has begun. `QuietExactly` gives the exact condition.
- *A settlement never passes its reservation* is false by one nano-USD of rounding at some prices
  (`RoundingIsTight`) and, at every price whose cached rate is above the charged input rate, by one nano-USD and more
  for each thousand prompt tokens (`DearCacheOvershoots`). `NeverOverReservation` and `NeverOverByMoreThanRounding`
  say exactly at which prices no settlement passes its reservation, or passes it by more than one nano-USD, for
  prompts up to the cap of 16000 bytes or any larger one; the second also for each larger slack up to 15 at that cap.
  A dear cache is bounded by the cap: `LeastSlack` gives the slack that is enough to within one nano-USD.
- *A run never passes its pinned limits* therefore needs more than a provider that answers within bounds: it holds at
  exactly the prices that absorb the rounding (`LimitsHoldExactly`, `SpendPastLimit`), and at every cheap cached rate
  up to one nano-USD for each answer that may round up (`LimitsUpToRounding`, `Broker.Schedule`).
- A packet's checksum is the only word that verifies in its place, unless it is 0: then 0xffff does too, and nothing
  else (`OnlyTheChecksumVerifies`, `TwoWordsVerify`).

## Model

| member | source | states |
|---|---|---|
| `RuntimePackage.Package.Store` | scripts/selected-runtime-package.py:235-276 | one durable effect is all or nothing, and only an effect whose result keeps the whole invariant may be made |
| `RuntimePackage.Package.VerifyTransaction` | scripts/selected-runtime-package.py:888-904 | the loop accepts exactly when all staged bytes match the journal and every installed path is recorded old or new (or all new), and returns the installed pins |
| `RuntimePackage.RecoveryAccepts` | scripts/selected-runtime-package.py:798-842 | in every open state the invariant allows, recovery's own check accepts the package's partial work if and only if host identity, protected files and ledgers are as the journal recorded them and the gateway directory is, or is still empty where the package created it; and services are up only over an all-old or all-new image |
| `RuntimePackage.SomeCommandAccepts` | scripts/selected-runtime-package.py:798-842 | an open transaction has a plan for any operation at all if and only if neither host nor gateway has drifted in that way |
| `RuntimePackage.OpeningKeeps` | scripts/selected-runtime-package.py:941-942 | after the second review and the staged-byte check, the saved journal records exactly the installed bytes, and its receipt never opened a transaction before |
| `RuntimePackage.SightingKeeps` | scripts/selected-runtime-package.py:705-708 | a start over a uniform image, and a closure over the image its phase names, keep the history right |
| `RuntimePackage.Package.StopServices` | scripts/selected-runtime-package.py:698-703 | all units down, unit by unit; the receipt is counted as served at the first effect and once |
| `RuntimePackage.Package.StartServices` | scripts/selected-runtime-package.py:705-708 | every unit is started only over an all-old or all-new image |
| `RuntimePackage.Package.Review` | scripts/selected-runtime-package.py:856-869 | refused exactly when the plan differs from the expected one; otherwise one fresh receipt, nothing else changed |
| `RuntimePackage.Package.Stage` | scripts/selected-runtime-package.py:928-933 | both generations staged under a fresh id, with the bytes read and the candidate bytes, touching nothing installed |
| `RuntimePackage.Package.Prepare` | scripts/selected-runtime-package.py:922-940 | apply before its journal: success means that opening the transaction keeps the invariant, whatever other owners wrote meanwhile |
| `RuntimePackage.Package.OpenTransaction` | scripts/selected-runtime-package.py:922-942 | journal first, receipt removed second; cut off in between, the receipt cannot serve again |
| `RuntimePackage.Package.StopForReplacement` | scripts/selected-runtime-package.py:943-949 | from prepared to replacing with services down and installed bytes untouched, or a crash state in between |
| `RuntimePackage.Package.ReplaceAll` | scripts/selected-runtime-package.py:950-952 | every path becomes new; at each point every path is old or new |
| `RuntimePackage.Package.Replace` | scripts/selected-runtime-package.py:943-959 | applied is reached only with every path new and all services up |
| `RuntimePackage.Package.Apply` | scripts/selected-runtime-package.py:922-960 | refuses over an open transaction without effect; done means applied, all new, receipt spent; a reviewed apply that is not cut off is done |
| `RuntimePackage.Package.RestoreAll` | scripts/selected-runtime-package.py:971-977 | every path becomes old again, absent files absent |
| `RuntimePackage.Package.RestoreImage` | scripts/selected-runtime-package.py:970-991 | old files, old gateway directory, services, then rolled_back; nothing less is ever recorded as rolled_back |
| `RuntimePackage.Package.Restore` | scripts/selected-runtime-package.py:962-992 | refused exactly when not reviewed; done means rolled_back over the old image; an open transaction stays open until then |
| `RuntimePackage.Package.CommitApplied` | scripts/selected-runtime-package.py:994-1002 | committed is reached exactly from a reviewed, applied, all-new image with services up |
| `RuntimePackage.Package.TryRecovery` | scripts/selected-runtime-package.py:856-869 | a reviewed restore from any crash state either finishes or leaves a state from which the next one starts; after a drift of host or gateway it changes nothing |
| `RuntimePackage.Package.RecoverThroughCrashes` | scripts/selected-runtime-package.py:962-992 | from any crash state, after any number of interrupted restores, one uninterrupted restore reaches rolled_back with every old file, the old gateway directory and the services back, if and only if neither host nor gateway has drifted; otherwise nothing is changed |
| `RuntimePackage.Package.Run` | scripts/selected-runtime-package.py:856-1002 | over any sequence of commands cut off anywhere: no receipt opened two transactions or touched services twice, every start saw a uniform image, every commit was all new and every rollback all old, and open work is always recognised |
| `RuntimePackage.UpdateThenGatewayWrites` | scripts/selected-runtime-package.py:821-824 | an applied update whose gateway has written one entry: the transaction is open and no operation has a plan at any moment |
| `RuntimePackage.StaysOpen` | scripts/selected-runtime-package.py:856-1002 | after a drift every command, review included, leaves the whole disk as it is |
| `RuntimeRefresh.RollbackAcceptsExactly` | scripts/review-runtime-refresh.py:652-663 | in every crash state of an unfinished refresh rollback's check of backups and targets accepts if and only if no target holds foreign bytes, and from replacing on it always accepts |
| `RuntimeRefresh.Entries` | scripts/review-runtime-refresh.py:601-604 | the recorded digests are those of the old and the new four files |
| `RuntimeRefresh.Refresh.Stop` | scripts/review-runtime-refresh.py:461-466 | supervisor, then broker, down; nothing else changes |
| `RuntimeRefresh.Refresh.Start` | scripts/review-runtime-refresh.py:468-470 | both services start only over four old or four new files |
| `RuntimeRefresh.Refresh.BackUp` | scripts/review-runtime-refresh.py:608-609 | backups of an earlier refresh are overwritten only while the journal is closed, and end as the bytes that were read |
| `RuntimeRefresh.Refresh.WriteTargets` | scripts/review-runtime-refresh.py:624-625 | the four files are written in order; at each point every target is what it was or what is written |
| `RuntimeRefresh.Refresh.StillOld` | scripts/review-runtime-refresh.py:619-621 | the loop accepts exactly when all four installed files are still the recorded old ones |
| `RuntimeRefresh.Refresh.Begin` | scripts/review-runtime-refresh.py:593-610 | the saved journal and the backups hold the bytes that were read, whatever other owners wrote meanwhile |
| `RuntimeRefresh.Refresh.Replace` | scripts/review-runtime-refresh.py:617-632 | the files are replaced only if all four are still the recorded old ones; otherwise targets and journal stay as they are |
| `RuntimeRefresh.Refresh.Apply` | scripts/review-runtime-refresh.py:569-634 | refuses an unfinished journal without effect; done means four new files, backups of the old ones, both services up; a file another owner wrote before the journal was saved is never overwritten; and rollback can accept afterwards if and only if that file holds old or new bytes and protected files and ledgers are as recorded |
| `RuntimeRefresh.Refresh.ReadBackups` | scripts/review-runtime-refresh.py:652-663 | the loop accepts exactly when every backup is the recorded old file and every target is old or new, and returns the old files |
| `RuntimeRefresh.Refresh.Rollback` | scripts/review-runtime-refresh.py:636-675 | skipped exactly when closed, refused exactly on drifted protected files or ledgers or foreign bytes in a target; done means the four recorded old files are back |
| `RuntimeRefresh.Refresh.CommitApplied` | scripts/review-runtime-refresh.py:677-704 | commits exactly an applied refresh whose four files are all still new |
| `RuntimeRefresh.Refresh.RollBackThroughCrashes` | scripts/review-runtime-refresh.py:636-675 | after any number of interrupted rollbacks, one that is not interrupted restores all four old files if and only if protected files and ledgers are as the journal recorded them and no target held foreign bytes; otherwise nothing is changed |
| `RuntimeRefresh.Refresh.Run` | scripts/review-runtime-refresh.py:569-704 | over any commands cut off anywhere, with other owners writing between refreshes and until a journal is saved: while unfinished, the backups are the recorded old bytes, and from replacing on each target is old or new and services run only over a uniform image; every start was over a uniform image |
| `RuntimeRefresh.ForeignWrite` | scripts/review-runtime-refresh.py:593-621 | a write before the journal is saved leaves a prepared refresh with a target that is neither old nor new |
| `RuntimeRefresh.AppliedThenDrift` | scripts/review-runtime-refresh.py:629-651 | an applied refresh, all new and with its services up, that rollback refuses once protected files or ledgers have drifted |
| `RuntimeRefresh.DriftBeforeStop` | scripts/review-runtime-refresh.py:610-615 | a drift before the services are stopped leaves a prepared refresh over its old files, which rollback refuses |
| `RuntimeRefresh.StaysUnfinished` | scripts/review-runtime-refresh.py:569-704 | an unfinished refresh that rollback refuses is left as it is by every command but a commit of an applied refresh whose files are all new |
| `Pricing.NanoCost` | scripts/a4-credential-broker.py:231-233 | the least whole nano-USD amount covering the exact price |
| `Pricing.SplitRounding` | scripts/a4-credential-broker.py:285-287 | charging a token count at two rates rounds up by at most one nano-USD more than at the higher rate |
| `Pricing.Exact` | scripts/a4-credential-broker.py:231-233 | a price with at most three decimals is charged without rounding |
| `Pricing.SplitAbsorbed` | scripts/a4-credential-broker.py:285-287 | with a whole number of thousandths between two rates, charging at both costs nothing more than at the higher |
| `Pricing.SettlementWithinReservation` | scripts/a4-credential-broker.py:240-246 | at a cached rate no higher than the charged input rate, a provider within the worst-case tokens costs at most one nano-USD over the reservation, and nothing over it when nothing was cached or the price absorbs the rounding |
| `Pricing.RoundingIsTight` | scripts/a4-credential-broker.py:270-287 | at every other price with a cheap cache a call of 952 prompt bytes and one output token can cost exactly one nano-USD more than its reservation |
| `Pricing.DearCacheOvershoots` | scripts/a4-credential-broker.py:284-287 | at every price whose cached rate is above the charged input rate a fully cached prompt passes its reservation by at least one nano-USD for each thousand tokens |
| `Pricing.DearCacheExcess` | scripts/a4-credential-broker.py:240-287 | what any answer within bounds costs beyond its reservation with a dear cache is at most the prompt bound at the difference of the rates and one nano-USD; a fully cached prompt comes within one nano-USD of that |
| `Pricing.NeverOverReservation` | scripts/a4-credential-broker.py:240-287 | at a prompt cap of 16000 bytes, or any larger, no settlement within bounds ever passes its reservation if and only if a whole number of thousandths lies between the cached rate and the charged input rate |
| `Pricing.NeverOverByMoreThanRounding` | scripts/a4-credential-broker.py:231-287 | for any prompt cap, every settlement within bounds stays within one nano-USD of its reservation, or within any larger slack below a thousandth of the longest prompt, if and only if the cached rate is no higher than the charged input rate |
| `Pricing.LeastSlack` | scripts/a4-credential-broker.py:231-287 | with a dear cache the least slack that is enough for a prompt cap is known to within one nano-USD |
| `BrokerLedger.SumPut` | scripts/a4-credential-broker.py:729-747 | changing one call changes each sum by exactly that call's share |
| `BrokerLedger.PutKeeps` | scripts/a4-credential-broker.py:729-747 | a call change together with its share of the run's totals keeps conservation and budget |
| `BrokerLedger.LimitHolds` | scripts/a4-credential-broker.py:989-995 | with no flagged call, settled plus reserved never passes the pinned limits |
| `BrokerLedger.ReservingKeeps` | scripts/a4-credential-broker.py:996-1002 | an affordable reservation keeps the ledger conserved and within budget |
| `BrokerLedger.ReleasingKeeps` | scripts/a4-credential-broker.py:729-737 | a release gives back exactly what the call held, once |
| `BrokerLedger.SettlingKeeps` | scripts/a4-credential-broker.py:739-746 | a settlement moves the reservation to the settled totals, with overshoot only under the exceeded flag |
| `BrokerLedger.RelabellingKeeps` | scripts/a4-credential-broker.py:1031-1041 | marking sent or uncertain keeps the reservation |
| `BrokerLedger.PinningKeeps` | scripts/a4-credential-broker.py:619-621 | a newly pinned run starts at zero because no live or charged call can name it yet |
| `BrokerLedger.ConcludingKeeps` | scripts/a4-credential-broker.py:1044-1073 | every reply keeps the ledger conserved: rejected releases, doubtful keeps, answered settles |
| `BrokerLedger.OvershootIsRounding` | scripts/a4-credential-broker.py:1058-1071 | an answer within bounds at a cheap cached rate overshoots no tokens and at most one nano-USD, and is flagged only where its cached part may round up |
| `BrokerLedger.LimitsUpToRounding` | scripts/a4-credential-broker.py:985-1071 | a run answered within bounds never passes its token limit, and its spending limit by at most one nano-USD per answer that may round up |
| `BrokerLedger.AbsorbedLimitsHold` | scripts/a4-credential-broker.py:985-1071 | if moreover every price absorbs the rounding, no call is flagged and both pinned limits hold |
| `BrokerLedger.AnswerPassesLimit` | scripts/a4-credential-broker.py:985-1071 | a request that just fits the limit, answered within bounds at more than that, takes its run past the limit |
| `BrokerLedger.CostlyAnswer` | scripts/a4-credential-broker.py:937-946 | at every price that does not absorb rounding there is such an answer, of one output token to a prompt within the cap, for a limit above zero |
| `BrokerLedger.LimitsHoldExactly` | scripts/a4-credential-broker.py:985-1071 | at a given price answers within bounds can never take a run past its pinned limits if and only if the price absorbs the rounding |
| `BrokerLedger.LaterTransitive` | scripts/a4-credential-broker.py:949-1073 | over time calls keep their terms, a finished or uncertain call never changes and a sent call stays sent |
| `BrokerLedger.Recover` | scripts/a4-credential-broker.py:498-508 | in any order: sent becomes uncertain and keeps its reservation, reserved is released, everything else is untouched |
| `BrokerLedger.Broker.PinRun` | scripts/a4-credential-broker.py:605-625 | a run's pins are written once; a repeat is accepted only if equal |
| `BrokerLedger.Broker.Cancel` | scripts/a4-credential-broker.py:814-826 | a tombstone and nothing else |
| `BrokerLedger.Broker.Configure` | scripts/a4-credential-broker.py:692-727 | price and provider change no call and no total |
| `BrokerLedger.Broker.RefuseCall` | scripts/a4-credential-broker.py:755-760 | a recorded refusal spends the call id and no money |
| `BrokerLedger.Broker.Hold` | scripts/a4-credential-broker.py:996-1002 | the reservation is durable before the call can go on |
| `BrokerLedger.Broker.Reserve` | scripts/a4-credential-broker.py:949-1002 | reserved exactly when new, allowed, admissible and affordable; a used call id never goes further |
| `BrokerLedger.Broker.Withdraw` | scripts/a4-credential-broker.py:1012-1020 | a call never sent gives its reservation back |
| `BrokerLedger.Broker.MarkSent` | scripts/a4-credential-broker.py:1027-1033 | a cancelled or late call is released; otherwise it goes on only if the sent record is durable |
| `BrokerLedger.Broker.Contact` | scripts/a4-credential-broker.py:1034-1035 | the provider is contacted only under a durable sent record, as one new contact |
| `BrokerLedger.Broker.Conclude` | scripts/a4-credential-broker.py:1036-1073 | the reply is booked exactly once, by its kind |
| `BrokerLedger.Broker.Restart` | scripts/a4-credential-broker.py:498-508 | after a crash no contacted call is ever released as abandoned |
| `BrokerLedger.Broker.Schedule` | scripts/a4-credential-broker.py:949-1073 | over every interleaving, lost save and crash, in memory and journal: totals equal the sums over calls, limits hold up to flagged overshoot, and for a run answered within bounds at cheap cached rates up to the rounding of its answers; each call id is contacted at most once and only after its durable record |
| `BrokerLedger.SpendPastLimit` | scripts/a4-credential-broker.py:949-1073 | at every price that does not absorb rounding the broker's own sections take a run past its limit with one request within the caps, answered within bounds |
| `CredentialBindings.RotatedTurns` | scripts/a4-credential-broker.py:551-555 | appending a turn and cutting to fifty keeps exactly the last fifty turns |
| `CredentialBindings.RotatedHistory` | scripts/a4-credential-broker.py:549-555 | a rotation keeps the history in order, ending where the binding stands, with versions that never go back |
| `CredentialBindings.RotatedIsLater` | scripts/a4-credential-broker.py:549-555 | a rotation moves revision and version forward and changes the version of no revision still shown |
| `CredentialBindings.LaterTransitive` | scripts/a4-credential-broker.py:512-569 | scope, key and versions of revisions persist over time, revisions and versions grow, revoked stays revoked and pins stay |
| `CredentialBindings.LaterBothWays` | scripts/a4-credential-broker.py:486-487 | two states of the books each at least as far as the other are equal |
| `CredentialBindings.AdoptKeeps` | scripts/a4-credential-broker.py:486-487 | a section that moves memory forward keeps every request in progress right, whether its save succeeds or fails |
| `CredentialBindings.StepKeeps` | scripts/a4-credential-broker.py:512-689 | every section keeps memory and journal consistent and the journal behind memory; the journal only moves forward, and memory does in every step but a crash |
| `CredentialBindings.Reachable` | scripts/a4-credential-broker.py:475-487 | the invariant holds after any sequence of sections, lost saves and crashes |
| `CredentialBindings.JournalNeverGoesBack` | scripts/a4-credential-broker.py:475-487 | between any two moments the journal only moves forward, and memory is at least as far as the journal ever was |
| `CredentialBindings.SavedRevocationLasts` | scripts/a4-credential-broker.py:560-569 | once a revocation is in the journal the binding is never active again, in memory or journal |
| `CredentialBindings.SavedRotationLasts` | scripts/a4-credential-broker.py:545-558 | a saved rotation leaves the expected revision behind for ever |
| `CredentialBindings.OneSavedWinner` | scripts/a4-credential-broker.py:535-558 | after a winning rotation that was saved, none wins with the same expected revision again, saved or not |
| `CredentialBindings.MemoryNeverGoesBack` | scripts/a4-credential-broker.py:475-487 | over a whole history memory moves only forward between any two moments if and only if every restart found memory saved |
| `CredentialBindings.SecondWinnerNeedsLostSave` | scripts/a4-credential-broker.py:535-558 | of two winners with one expected revision the first was lost by a restart in between |
| `CredentialBindings.RotateUp` | scripts/a4-credential-broker.py:535-558 | an active binding can be rotated up to any revision it has not passed |
| `CredentialBindings.BindAnew` | scripts/a4-credential-broker.py:512-533 | an unknown binding can be bound, at a version newer than any before |
| `CredentialBindings.WinsAfterCrash` | scripts/a4-credential-broker.py:475-558 | after a crash a rotation with a given expected revision can win if and only if the journal has not passed or revoked it |
| `CredentialBindings.ActiveAgain` | scripts/a4-credential-broker.py:560-577 | a revoked binding can be active again if and only if its revocation is not in the journal |
| `CredentialBindings.ReadBefore` | scripts/a4-credential-broker.py:650-666 | a delivery that has its value read it earlier, at exactly the remembered version, with no crash since |
| `CredentialBindings.DeliveredAsPinned` | scripts/a4-credential-broker.py:650-689 | every delivery, over every history: at the second check the binding is active at the revision the run is pinned to, and the value is that revision's version |
| `CredentialBindings.SavedDeliveryLasts` | scripts/a4-credential-broker.py:650-689 | a delivery at a revision that is in the journal agrees with the binding's history for ever |
| `CredentialBindings.JournalledVersionStays` | scripts/a4-credential-broker.py:549-558 | the version of a revision that is in the journal never becomes another one |
| `CredentialBindings.ServedVersionCanChange` | scripts/a4-credential-broker.py:549-558 | the version of the revision an active binding stands at can become another one if and only if the journal lacks that revision |
| `CredentialBindings.LostRevocation` | scripts/a4-credential-broker.py:560-569 | a reachable history in which a revocation whose save failed is gone after a restart |
| `CredentialBindings.LostRotation` | scripts/a4-credential-broker.py:545-558 | a reachable history in which a run is served at a lost revision and a second rotation then wins with the same expected revision, at another version |
| `CredentialBindings.BindingDesk.Save` | scripts/a4-credential-broker.py:486-487 | all of memory becomes the journal, or nothing does |
| `CredentialBindings.BindingDesk.Bind` | scripts/a4-credential-broker.py:519-533 | a new binding at revision 1 with its fetched version, or no change; reported only once saved |
| `CredentialBindings.BindingDesk.PinRun` | scripts/a4-credential-broker.py:605-625 | pinned exactly when usable now and not pinned differently before; a new pin is reported only once saved |
| `CredentialBindings.BindingDesk.RotateCheck` | scripts/a4-credential-broker.py:539-543 | goes on exactly when the expected revision is current and active |
| `CredentialBindings.BindingDesk.RotateFetch` | scripts/a4-credential-broker.py:544-544 | the version fetched outside the lock, at any later moment |
| `CredentialBindings.BindingDesk.RotateCommit` | scripts/a4-credential-broker.py:545-558 | reported as won exactly when still active at the expected revision and saved; then the journal holds the next revision with the fetched version |
| `CredentialBindings.BindingDesk.Revoke` | scripts/a4-credential-broker.py:560-569 | an active binding becomes revoked in memory, and is reported as revoked only with the journal saying so |
| `CredentialBindings.BindingDesk.DeliverCheck` | scripts/a4-credential-broker.py:658-662 | remembers key and version exactly when the pinned binding is usable |
| `CredentialBindings.BindingDesk.DeliverRead` | scripts/a4-credential-broker.py:366-380 | reads at exactly the remembered version, and only while it is the current one; otherwise the delivery ends |
| `CredentialBindings.BindingDesk.DeliverRecheck` | scripts/a4-credential-broker.py:670-674 | delivered exactly when still usable; revocation or rotation meanwhile wins |
| `CredentialBindings.BindingDesk.Restart` | scripts/a4-credential-broker.py:475-484 | memory becomes what was saved, which is never ahead of what it was |
| `AttemptLifecycle.ActingKeeps` | scripts/a3-worker-supervisor.py:1468-1481 | one more action under an unused ordinal keeps order, count and limit |
| `AttemptLifecycle.ReservingKeeps` | scripts/a3-worker-supervisor.py:1318-1344 | the launch reservation keeps lineage and single worker although it does not look again at what admission saw |
| `AttemptLifecycle.SectionKeeps` | scripts/a3-worker-supervisor.py:1176-1386 | every section keeps the invariant and goes only forward, whatever happened before it |
| `AttemptLifecycle.LeaseKeeps` | scripts/a3-worker-supervisor.py:1433-1435 | no section leaves a running or human attempt with a lease past its deadline |
| `AttemptLifecycle.AbortedDurable` | scripts/a3-worker-supervisor.py:1343-1344 | a section whose save failed makes nothing run, or about to be started, that the journal does not know |
| `AttemptLifecycle.StepKeeps` | scripts/a3-worker-supervisor.py:1069-1080 | every section, with its save or without it, and every restart keep memory and journal consistent; the journal only moves forward, and memory does in any step that does not lose it |
| `AttemptLifecycle.Reachable` | scripts/a3-worker-supervisor.py:1284-1386 | the invariant holds after any sequence of sections, failed saves and restarts |
| `AttemptLifecycle.ReachableStates` | scripts/a3-worker-supervisor.py:1096-1097 | at every moment, in memory and in the journal: at most one spawned attempt is not terminal, fences grow along each run, ordinals grow across its attempts and are counted exactly and within the limit but for the proof hook, terminal attempts carry receipts and no running or human lease passes the deadline; and whatever runs is in the journal |
| `AttemptLifecycle.NothingSavedGoesBack` | scripts/a3-worker-supervisor.py:1069-1080 | between any two moments what the journal held of terms, deadline, launched attempts and reserved ordinals only grows, in journal and memory |
| `AttemptLifecycle.NothingGoesBack` | scripts/a3-worker-supervisor.py:1268-1505 | the same of memory for as long as the process lives |
| `AttemptLifecycle.StepsNeverRepeat` | scripts/a3-worker-supervisor.py:1619-1634 | over all attempts of a run, restarts and failed saves, the ordinals of actions that reach the browser strictly increase |
| `AttemptLifecycle.PastNext` | scripts/a3-worker-supervisor.py:1086-1094 | an attempt taken over, stopping or terminal and not being launched never runs again and reserves no further action |
| `AttemptLifecycle.TakeoverIsForever` | scripts/a3-worker-supervisor.py:1753-1764 | from a takeover on, even one that was not saved, the attempt never runs at a moment when anybody is served, and its actions never grow |
| `AttemptLifecycle.FinalUnlessRevived` | scripts/a3-worker-supervisor.py:1378-1386 | a section leaves every terminal attempt final if and only if it is not one of launch's two blind writes over a terminal record |
| `AttemptLifecycle.FinalExactly` | scripts/a3-worker-supervisor.py:1176-1386 | over a whole history every attempt terminal at one moment is the same at every later one if and only if no blind write hit a terminal record and no restart lost an end that was not saved |
| `AttemptLifecycle.ClosedStep` | scripts/a3-worker-supervisor.py:1176-1192 | unless a teardown begins of the attempt being launched, no section revives or leaves a started action in a stopping or ended attempt |
| `AttemptLifecycle.SavedEndIsFinal` | scripts/a3-worker-supervisor.py:1252-1264 | with no teardown of an attempt while it is being launched, an end in the journal is final over every crash and failed save |
| `AttemptLifecycle.TerminalIsFinal` | scripts/a3-worker-supervisor.py:1176-1264 | in such histories every ended attempt has its receipt and no started action, and with every end saved before a restart terminal is final in memory from its first moment |
| `AttemptLifecycle.QuietExactly` | scripts/a3-worker-supervisor.py:1176-1264 | over a whole history no ended attempt ever holds a started action, in memory or journal, if and only if no verified end was written over a record that held one |
| `AttemptLifecycle.StartedAtTheEnd` | scripts/a3-worker-supervisor.py:1378-1386 | a reachable history whose journal ends with a signed, terminal attempt that holds a started action |
| `AttemptLifecycle.StopInTheGap` | scripts/a3-worker-supervisor.py:1378-1386 | a reachable history in which a stopped, signed and saved attempt is running afterwards |
| `AttemptLifecycle.LostEnd` | scripts/a3-worker-supervisor.py:1253-1263 | a reachable history in which an end whose save failed is gone after a restart |
| `AttemptLifecycle.MarkUncertain` | scripts/a3-worker-supervisor.py:1184-1186 | exactly the started actions become uncertain, no ordinal changes |
| `AttemptLifecycle.MarkInFlight` | scripts/a3-worker-supervisor.py:1184-1186 | the loop marks exactly those |
| `AttemptLifecycle.LargestBounds` | scripts/a3-worker-supervisor.py:1627-1628 | the ordinal carried on is the largest ever reserved |
| `AttemptLifecycle.LargestWith` | scripts/a3-worker-supervisor.py:1627-1628 | the inner loop carries the largest ordinal over one attempt's actions |
| `AttemptLifecycle.WriteReceipt` | scripts/a3-worker-supervisor.py:1253-1257 | the record the teardown held becomes terminal with its receipt; a record replaced meanwhile is not touched |
| `AttemptLifecycle.Supervisor.Save` | scripts/a3-worker-supervisor.py:1078-1080 | everything but the threads becomes the journal, or nothing does |
| `AttemptLifecycle.Supervisor.Commit` | scripts/a3-worker-supervisor.py:1078-1080 | a section and its save are one step of the protocol |
| `AttemptLifecycle.Supervisor.Abort` | scripts/a3-worker-supervisor.py:1343-1344 | a launch or teardown whose save failed goes no further |
| `AttemptLifecycle.Supervisor.PreviousOrdinal` | scripts/a3-worker-supervisor.py:1627-1628 | the nested loops find the largest ordinal of the whole run |
| `AttemptLifecycle.Supervisor.NumberAction` | scripts/a3-worker-supervisor.py:1469-1475 | the ordinal exactly when the attempt may act, actions are left and the id is unused |
| `AttemptLifecycle.Supervisor.ReserveAction` | scripts/a3-worker-supervisor.py:1468-1481 | the reserved action is counted and recorded, and sent only with its record in the journal |
| `AttemptLifecycle.Supervisor.SettleAction` | scripts/a3-worker-supervisor.py:1490-1502 | the reply changes an outcome and perhaps the lease, never the stage or the ordinals |
| `AttemptLifecycle.Supervisor.AdmitLaunch` | scripts/a3-worker-supervisor.py:1285-1307 | admission means no worker, a new attempt id, unchanged terms and a higher fence |
| `AttemptLifecycle.Supervisor.Refuse` | scripts/a3-worker-supervisor.py:1268-1277 | an attempt that never started is recorded and is no worker |
| `AttemptLifecycle.Supervisor.ReserveAttempt` | scripts/a3-worker-supervisor.py:1318-1344 | the launch goes on only with the reservation in the journal, and ends otherwise |
| `AttemptLifecycle.Supervisor.FinishLaunch` | scripts/a3-worker-supervisor.py:1378-1386 | the launched attempt runs, and still nothing else does |
| `AttemptLifecycle.Supervisor.RenewLease` | scripts/a3-worker-supervisor.py:1447-1454 | a lease is renewed only before the deadline and never past it |
| `AttemptLifecycle.Supervisor.TakeControl` | scripts/a3-worker-supervisor.py:1753-1764 | exactly a running, usable browser attempt becomes human, and may not act from then on |
| `AttemptLifecycle.Supervisor.StartTeardown` | scripts/a3-worker-supervisor.py:1176-1189 | actions in flight become uncertain, and the teardown goes on only with a record that was saved or was stopping already |
| `AttemptLifecycle.Supervisor.EndTeardown` | scripts/a3-worker-supervisor.py:1252-1264 | verified teardown makes the held record terminal with its receipt; unverified leaves it for a retry |
| `AttemptLifecycle.Supervisor.Reload` | scripts/a3-worker-supervisor.py:1069-1076 | memory becomes the journal, and nobody is served |
| `AttemptLifecycle.Supervisor.Recover` | scripts/a3-worker-supervisor.py:2205-2214 | after a crash every attempt of the journal is terminal or being torn down before anybody is served, with runs and ordinals untouched |
| `Utf8.EncodeUndoesDecode` | scripts/a4-canary-scan.py:53-53 | whatever decodes is exactly the encoding of the decoded text |
| `Utf8.DecodeUndoesEncode` | scripts/a4-canary-scan.py:53-53 | every text's encoding decodes to it |
| `Base64.EncodeAt` | scripts/a4-canary-scan.py:58-58 | each letter stands for six bits of the data, then padding, for both alphabets and every length |
| `Base64.StrippedIsLetters` | scripts/a4-canary-scan.py:58-58 | stripping the padding leaves exactly the letters that carry data |
| `Base64.SextetDepends` | scripts/a4-canary-scan.py:59-60 | six bits depend only on the bytes they lie in, at any shift by whole groups |
| `CanaryScan.CutLetterInside` | scripts/a4-canary-scan.py:59-60 | every letter kept in a cut has all its bits inside the value |
| `CanaryScan.CutOccurs` | scripts/a4-canary-scan.py:56-60 | for every text before and after, the cut for that alignment is in the base64 or base64url encoding, at a known place |
| `CanaryScan.EscapesAreLonger` | scripts/a4-canary-scan.py:54-55 | JSON and URL escapes are never shorter than the value |
| `CanaryScan.NeedlesAreLong` | scripts/a4-canary-scan.py:61-61 | every needle has at least twelve bytes, so none is dropped |
| `CanaryScan.Gather` | scripts/a4-canary-scan.py:54-60 | the nested loops collect exactly the ten needles |
| `CanaryScan.Keep` | scripts/a4-canary-scan.py:61-61 | exactly the members of eight bytes or more, each once |
| `CanaryScan.Patterns` | scripts/a4-canary-scan.py:49-61 | refuses exactly short or undecodable values; otherwise every needle once and nothing else |
| `CanaryScan.Find` | scripts/a4-canary-scan.py:67-70 | the first occurrence from a position on, or none |
| `CanaryScan.Count` | scripts/a4-canary-scan.py:64-71 | the number of all occurrences, overlapping ones included; zero exactly when no needle occurs anywhere |
| `CanaryScan.CarrierHoldsNeedle` | scripts/a4-canary-scan.py:49-61 | raw, base64, base64url, JSON-escaped and URL-encoded text around the value contains that form's needle |
| `CanaryScan.NothingIsMissed` | scripts/a4-canary-scan.py:49-71 | data holding the value in any of these ways, among anything else, has a count above zero |
| `CanaryScan.ScanBytes` | scripts/a4-canary-scan.py:85-86 | the total over the data and every decoded receipt body |
| `CanaryScan.CleanSinkHoldsNothing` | scripts/a4-canary-scan.py:85-86 | a total of zero means the value is in neither the data nor any receipt body, in any of these ways |
| `CanonicalJson.EscapedSeparable` | scripts/selected_browser_contract.py:52-53 | an escaped string shows where it ends, so equal texts are equal strings |
| `CanonicalJson.NumberSeparable` | scripts/selected_browser_contract.py:40-43 | a printed integer followed by anything but a digit determines the integer |
| `CanonicalJson.JoinedSeparable` | scripts/selected_browser_contract.py:54-57 | joined items between brackets determine the items |
| `CanonicalJson.PlainSeparable` | scripts/selected_browser_contract.py:31-57 | printing in given order is injective at every depth, whatever follows |
| `CanonicalJson.SortedKeeps` | scripts/selected_browser_contract.py:57-57 | sorting orders the keys and keeps every field |
| `CanonicalJson.OrderedUnique` | scripts/selected_browser_contract.py:57-57 | the ordered list of given fields is unique |
| `CanonicalJson.TextIsPlain` | scripts/selected_browser_contract.py:31-57 | the canonical text is the plain text of the value with every object sorted |
| `CanonicalJson.NormalIsMeaning` | scripts/selected_browser_contract.py:56-57 | two values sort to the same value exactly when they mean the same, objects being maps |
| `CanonicalJson.SameTextSameMeaning` | scripts/selected_browser_contract.py:31-58 | canonical texts are equal if and only if the values mean the same: injective, and independent of key order |
| `CanonicalJson.UniqueItemsExact` | scripts/selected_browser_contract.py:101-102 | uniqueItems accepts exactly the lists whose items differ pairwise, and raises exactly when an integer is too large |
| `BigEndian.RoundTrip` | scripts/a3-worker-guest.py:118-118 | reading the bytes of a number gives the number |
| `BigEndian.RoundTripBytes` | scripts/a4-credential-broker.py:189-189 | writing the number of some bytes gives the bytes |
| `CredentialFrame.Frame` | scripts/a4-credential-broker.py:185-191 | the frame of both parts, or an error for a part too long for its length field |
| `CredentialFrame.ParseUndoesFrame` | scripts/a3-worker-guest.py:114-129 | parsing a frame gives back the pair |
| `CredentialFrame.FrameUndoesParse` | scripts/a3-worker-guest.py:114-129 | whatever parses is the frame of the printable pair it returns |
| `CredentialFrame.ParseAcceptsExactlyFrames` | scripts/a3-worker-guest.py:114-129 | a byte string parses to a pair if and only if it is the broker's frame of that printable pair |
| `CredentialFrame.CapIsExact` | scripts/a3-worker-guest.py:170-171 | the read cap admits every frame, and the largest reaches it |
| `CredentialFrame.Receive` | scripts/a3-worker-guest.py:159-177 | the loop computes the outcome of its first stopping turn (close after data, cap passed, or time out), and a returned pair is the one framed in all bytes read |
| `CredentialFrame.EveryChunkingDelivers` | scripts/a3-worker-guest.py:159-177 | every chunking of a frame, with any waiting and empty closes before it, delivers the pair |
| `WebSocket.MaskingTwice` | scripts/a3-worker-guest.py:441-441 | masking is its own inverse |
| `WebSocket.LengthFieldReads` | scripts/a3-worker-guest.py:439-440 | all three length forms are read back, leaving the rest of the stream |
| `WebSocket.ReadUndoesEncode` | scripts/a3-worker-guest.py:436-478 | every frame within the limit is read back with opcode, final bit and payload for every mask, and a larger one is refused |
| `WebSocket.EverythingIsHeard` | scripts/a3-worker-guest.py:461-493 | every frame sequence within the limits is heard: each message whole, each ping answered, in order |
| `WebSocket.ControlFramesDoNotMatter` | scripts/a3-worker-guest.py:478-483 | frames that are not text change no message, even inside a fragmented one |
| `WebSocket.FragmentedMessageArrivesWhole` | scripts/a3-worker-guest.py:483-493 | a fragmented message among pings arrives as the join of its parts |
| `WebSocket.NekoSocket.Read` | scripts/a3-worker-guest.py:452-459 | exactly the next n bytes of the stream however they are chunked, or a closed connection exactly when there are fewer |
| `WebSocket.NekoSocket.ReadOne` | scripts/a3-worker-guest.py:465-475 | one frame off the stream, as the stream alone says |
| `WebSocket.NekoSocket.ReadRest` | scripts/a3-worker-guest.py:474-477 | mask and data off the stream, as the stream alone says |
| `WebSocket.NekoSocket.Reader` | scripts/a3-worker-guest.py:461-496 | messages and pongs depend on the byte stream alone, for every chunking |
| `InternetChecksum.FoldOnce` | scripts/a3-probe-fence.py:56-57 | folding the carry gets smaller and keeps the value in one's complement |
| `InternetChecksum.FoldCarries` | scripts/a3-probe-fence.py:56-57 | the loop ends with the word sum modulo 65535 in one's complement |
| `InternetChecksum.Checksum` | scripts/a3-probe-fence.py:52-58 | the complement of the folded word sum, odd lengths padded |
| `InternetChecksum.InsertedChecksumVerifies` | scripts/a3-probe-fence.py:52-58 | inserting a packet's checksum over its aligned zero word makes the checksum of the result zero |
| `InternetChecksum.OnlyTheChecksumVerifies` | scripts/a3-probe-fence.py:52-58 | a word makes the checksum of the result zero if and only if it is that checksum, or is 0xffff where that is 0 |
| `InternetChecksum.TwoWordsVerify` | scripts/a3-probe-fence.py:52-58 | a packet for which both 0 and 0xffff verify |
| `InternetChecksum.MakeSegment` | scripts/a3-probe-fence.py:75-80 | the TCP segment verifies under its pseudo-header |
| `InternetChecksum.MakeHeader4` | scripts/a3-probe-fence.py:81-84 | the IPv4 header verifies and carries both addresses |
| `InternetChecksum.MakeFrame` | scripts/a3-probe-fence.py:70-89 | the whole frame: both checksums verify, addresses and MACs in place, IPv4 and IPv6 |

## Left out

- A host reboot that starts enabled units by itself: only the package's own starts and, between transactions, an operator's are modelled.
- File custody (owner, mode, symlinks, inodes) beyond the pinned mode, the renewal one-shot unit, unit enablement, and what an installation journal's JSON says.
- A package plan's source revision and checkout names: the plan is its operation, facts, ledgers, files and candidate bytes.
- The preserving refresh (journal version 2) and the selected-runtime refresh: they write no runtime file.
- Refresh file modes, and service health at commit, which the source does not look at either.
- Selected-browser attempts, and the modules for them.
- The worker units that `recover` stops because no live attempt owns them.
- A save that fails inside the method `Recover`: it ends the process, which `Step` has as a reload.
- The decision logic of `tick`: a teardown may begin at any time for any reason, which includes all of it.
- The crash proof hook, failed launches, the takeover hold and the lease write of `model_step` have no method of their own; they are steps of `Next`.
- Settling an action allows any outcome at any time after its reservation, which includes every reply the source accepts.
- The crash proof hook may pass `max_actions`, as in the source; the bound counts its uses.
- Browser-only refusals of a model call (changed price table, reservation too small) and the check of prompt and output caps: easy refusals before a reservation. `Pricing` takes the prompt cap where a result turns on it.
- Event and delivery logs of the broker, and the decimal context's rounding of amounts beyond its precision.
- The spending limit as a float: `budget_nano` is taken as the integer it returns.
- CanaryScan.Patterns: the needles come in no particular order, since counting does not depend on it.
- The regular expression that finds receipts in a sink: their decoded bodies are a parameter of ScanBytes.
- Floats and lone surrogates in canonical JSON. `canonical_json` promises ECMAScript number layout, but prints an
  integer of any size in full and raises on one too large for a double (`math.isfinite`): the model follows the code.
- The rest of the contract validator: one branch each.
- The WebSocket handshake, JSON decoding of messages, and a pong that cannot be sent.
- Destination allow-list and MAC parsing of the probe frames: fixed addresses are parameters.
- Certificate renewal, installers, the human control page, probes and log patching.
