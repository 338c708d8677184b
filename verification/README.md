# One-way XRPL bridge: a verified model

Independent relayers watch the XRP Ledger for burns of configured tokens and vote for
payments in a CosmWasm contract; the contract pays once a threshold of distinct trusted
addresses has voted for the same payload. This project models the contract, the runs of
the contract on its chain, and the relayer (scanner, finder, executor, config watcher,
batch client, auditor), and proves what the whole protocol guarantees.

| file | models |
|---|---|
| `EvidenceId.dfy` | the text key that gathers votes, and its parser |
| `ContractModel.dfy` | configuration, storage and the messages as value-level steps |
| `Migrator.dfy` | the contract as a class whose entry points change storage |
| `Chain.dfy` | runs: storage, bank balance, and the history of votes and payments |
| `Invariants.dfy`, `Safety.dfy`, `Ledger.dfy` | what every step keeps, safety of all runs, conservation |
| `Limits.dfy` | where each guarantee ends, and when a quorum is enough |
| `Readings.dfy` | payloads that share a key: exactly when that breaks a guarantee |
| `Ownership.dfy` | who may change the configuration, and exactly how |
| `Rational.dfy`, `Finder.dfy` | amount conversion, burn check, the finder's decision |
| `FinderSpec.dfy` | what the finder promises, in terms of the transaction's own facts |
| `Scanner.dfy` | pagination, resume cursors and retries |
| `Client.dfy` | fetching all pending entries, and the batch of manual executions |
| `Executor.dfy`, `Watcher.dfy`, `Audit.dfy` | voting with retries, change detection, the audit pass |
| `Relayer.dfy`, `Bridge.dfy` | scan-to-vote completeness, and burn-to-payment soundness end to end |
| `Twins.dfy` | the one way honest relayers can have a burn paid for twice |

Main results, all over every run and every interleaving of steps:

- `Bridge.PaidWithinBurned`: with fewer dishonest voters than the threshold, who may vote for
  anything at all, and tokens that stay distinct when decoded, every payment belongs to a
  different XRPL burn, and the total paid is at most what those burns are worth at their
  tokens' own multipliers.
- `Twins.PaidTwiceIffRivals`: for every accepted token list, the exact condition under which
  relayers that are all honest can have one burn paid for twice.
- `Relayer.Relay`: whatever fails on the way, the scans get as far as the server lets them,
  every burn they cover is dealt with, before and after the history is complete, and the
  relayer stops short only at a found transfer whose every attempt was obstructed.
- `Relayer.RelayersDeliver`: what a threshold of relayers have dealt with is paid, or waits
  above the cap with its votes.
- `Safety.FaultTolerance`, `Safety.QuorumIntersection` with `Limits.QuorumBoundIsTight`:
  the voter condition under which an id is paid at most once, with nothing assumed of the
  other votes of the run.
- `Safety.OncePerEvidenceId` with `Readings.PaidTwiceIff`, and `Safety.RepeatRejected` with
  `Readings.RepeatedIff`: without any honesty assumption an evidence id is paid at most once,
  and a vote accepted at most once, exactly if the text of the payload is unambiguous.
- `Safety.ParkedAboveCap` and `Ledger.AutoPaymentWithinLimits` with `Readings.ParkedWithinCapIff`,
  `SentAboveCapIff` and `SentBelowMinIff`: the limits hold for exactly the coins whose key has
  no larger reading.
- `FinderSpec.TransferIff` and `FinderSpec.BackedIff`: exactly which XRPL payments are burns,
  what they entitle to, and what each entry of the metadata contributes to the verdict.
- `Ownership.UpdateIff` and `Ownership.OnlyOwnerChanges`: exactly when an update is accepted
  and what it changes, and that nobody but the owner changes anything over any run.
- `Limits.MissingVotesPay`, `Limits.QuorumEnoughIff` and `Limits.FirstVoteBlocks`: what the
  missing votes of a quorum do to an entry, and how its first vote can keep it from ever being
  paid.
- `Client.FetchAllIffFits`: the exact map size up to which fetch-all is right.

Reading notes.

- A world (`Chain.World`) holds the contract's storage, its bank balance, and a history that
  is only written: accepted votes with the config in force, payments, deposits, and every
  address ever trusted. A failing call leaves the world unchanged.
- Library behaviour enters as parameters: address and issuer checks and decimal parsing
  (`Api`), bech32, fraction and currency decoding (`Codec`), and the bank module's own
  verdict on a send (`bankOk`). `Bech32Like`, `SameDecimals` and `ValidRecipients` state what
  is assumed of them where it is needed.
- A key is plain (`Safety.PlainKey`) if no payload the contract would file under it has a dash
  in its id. This concerns the text of one key, not the votes of a run; `Safety.PlainKeyIff`
  decides it from a payload. `Safety.OneId` is the slightly wider notion that a key has one id.
  XRPL hashes and the denoms of the chain give plain keys.
- Text is ASCII as far as lower-casing goes. Amounts are only compared by the contract, so
  they are natural numbers; the version counter traps at 64 bits, and the paging arithmetic
  keeps its 32 and 64 bit widths, with a 32 bit word on the contract's side.
- Remote calls that can fail, get lost or be cancelled are inputs that range over every
  possibility; retry loops run over an arbitrary list of such conditions.
- The comment at contract/src/contract.rs:262-265 says that a sent id is never executed
  again. `execute_pending` does not look at sent ids, so the model follows the code: per id
  this needs the voter conditions above, per evidence id it does not.

## Model

| member | source | states |
|---|---|---|
| EvidenceId.ExtractRoundTrip | contract/src/contract.rs:524-536 | the id taken back out of an evidence id is the normalised id if and only if the id has no dash |
| EvidenceId.ParseRoundTrip | contract/src/contract.rs:524-531 | a full parser recovers lower-cased id, amount, denom and recipient from the key; dashes inside the denom are allowed |
| EvidenceId.BuildInjective | contract/src/contract.rs:529-531 | two payloads share a key exactly when they agree up to letter case |
| EvidenceId.AmountReadings | contract/src/contract.rs:529-531 | the text of amount and denom has one reading with a denom that starts with no digit; any other reading has a smaller amount |
| EvidenceId.OneIdPerKey | contract/src/contract.rs:529-536 | where no dash of id or denom is followed by a digit, all payloads of a key have one id and one amount-denom text |
| EvidenceId.DashedReading | contract/src/contract.rs:529-536 | where a dash of the denom is followed by a digit, the key can also be had with a dashed id |
| EvidenceId.ShorterReading | contract/src/contract.rs:529-536 | where a dash of the id is followed by a digit, the key can also be had with a shorter id |
| EvidenceId.ShiftedDigit | contract/src/contract.rs:529-531 | a coin with a digit in front of its denom shares its key with a coin of larger amount |
| EvidenceId.DashedIdsCollide | contract/src/contract.rs:529-536 | with a dash in an id two different payloads have the same key |
| EvidenceId.LowerMeaning | contract/src/contract.rs:524-527 | lower-casing replaces the 26 capital letters by the small ones and nothing else |
| ContractModel.TrustedErrorMeaning | contract/src/contract.rs:80-87 | the trusted list is accepted exactly when all addresses are valid and none is repeated |
| ContractModel.FirstInvalidTokenMeaning | contract/src/contract.rs:89-92 | initial tokens pass exactly when each one is valid |
| ContractModel.AddTokensErrorMeaning | contract/src/contract.rs:439-456 | added tokens pass exactly when each is valid and all issuer-currency pairs, old and new, are distinct |
| Migrator.CheckTrusted | contract/src/contract.rs:410-417 | the loop over a hash set reports the first fault of the list |
| Migrator.CheckTokens | contract/src/contract.rs:89-92 | the loop reports the first invalid token |
| Migrator.HasDuplicateToken | contract/src/contract.rs:94-101 | the loop finds a repeated pair exactly when there is one |
| Migrator.HasProvided | contract/src/contract.rs:286-290 | the loop finds the sender exactly when it is among the providers |
| Migrator.Contract.Instantiated | contract/src/contract.rs:67-117 | instantiation yields the initial state or the first error in source order |
| Migrator.Contract.ThresholdBankSend | contract/src/contract.rs:242-306 | a vote changes storage as the value-level step says, and an error changes nothing |
| Migrator.Contract.ExecutePending | contract/src/contract.rs:308-334 | a manual execution pays the stored entry for exactly its coin, or fails without effect |
| Migrator.Contract.SendBankTransaction | contract/src/contract.rs:336-355 | the id is recorded as sent and the pending entry is removed |
| Migrator.Contract.SaveConfig | contract/src/contract.rs:368-370 | a stored config carries the next version, and the counter never wraps |
| Migrator.Contract.UpdateTrusted | contract/src/contract.rs:399-426 | the trusted list is replaced as the value-level step says, which `Ownership.UpdateIff` characterises |
| Migrator.Contract.AddTokens | contract/src/contract.rs:428-472 | valid new tokens are appended, up to 200 in all, or nothing changes; see `Ownership.UpdateIff` |
| Migrator.Contract.Run | contract/src/contract.rs:120-141 | every message is dispatched to the step it stands for |
| Migrator.Contract.Migrated | contract/src/contract.rs:205-217 | an upgrade of a configured contract at most replaces the owner and bumps the version |
| Ownership.InstantiateIff | contract/src/contract.rs:67-117 | a contract is set up exactly for a valid owner, a threshold from one to the number of distinct valid trusted addresses, and valid tokens of distinct pairs, with the config asked for at version 1 |
| Ownership.ValidTokenIff | contract/src/contract.rs:474-522 | a token passes exactly with a 40 digit hexadecimal code, a valid issuer and a multiplier from 0.1 to 10 |
| Ownership.UpdateIff | contract/src/contract.rs:357-472 | an update is accepted exactly from the owner in force, while versions last, and if what it asks for is valid; it replaces that one field and raises the version |
| Ownership.UpgradeIff | contract/src/contract.rs:205-217 | an upgrade that names an owner is accepted exactly for a valid address, and replaces the owner alone |
| Ownership.OnlyOwnerChanges | contract/src/contract.rs:357-472 | over any run in which the owner asks for no change and no upgrade names another owner the config stays as it was |
| Ownership.ExecuteIff | contract/src/contract.rs:308-334 | a manual execution is accepted exactly with a threshold of votes and the very coin of the entry, positive, and the bank's consent |
| Ownership.ExecuteRefused | contract/src/contract.rs:315-326 | which refusal of a manual execution means what |
| Invariants.VoteInv | contract/src/contract.rs:242-306 | a vote keeps the invariant: providers are distinct and each is there by its own vote |
| Invariants.ExecuteInv | contract/src/contract.rs:308-355 | a manual execution keeps the invariant |
| Invariants.UpdateInv | contract/src/contract.rs:357-472 | owner updates, upgrades and deposits keep the invariant |
| Invariants.ReachableInv | contract/src/contract.rs:67-472 | every world of every run from instantiation satisfies the invariant |
| Safety.ReachableState | contract/src/contract.rs:76-426 | threshold at least one, no repeated trusted address or token pair, every pending key encodes its entry, providers distinct and trusted when they voted for that key, and every sent entry is a payment with a threshold of them |
| Safety.PlainKeyIff | contract/src/contract.rs:529-536 | a key is plain exactly if its id has no dash and no dash of its denom is followed by a digit |
| Safety.OneIdIff | contract/src/contract.rs:529-536 | all payloads of a key have one id, dash-free unless the amount is zero, exactly if its text is unambiguous |
| Safety.LargerReadingIff | contract/src/contract.rs:529-531 | under a plain key a coin has a rival of larger amount exactly if its own is positive and its denom begins with a digit |
| Safety.TwoDashKeyPlain | contract/src/contract.rs:529-536 | a key with no more than two dashes is plain, whatever addresses look like |
| Safety.OncePerEvidenceId | contract/src/contract.rs:262-305 | every evidence id with one id is paid at most once in any run, whatever anybody votes for, under that id, which stays blocked |
| Safety.PaymentQuorum | contract/src/contract.rs:295-332 | each payment rests on a threshold of distinct, once trusted addresses that voted for exactly its key |
| Safety.FaultTolerance | contract/src/contract.rs:242-355 | if fewer than threshold addresses back another payload under a key naming the id, every payment that touches the id is that payload, and for a plain key there is at most one |
| Safety.QuorumIntersection | contract/src/contract.rs:242-355 | an id is paid at most once by both paths together if twice the threshold exceeds the addresses ever trusted plus the equivocators of the id; no other vote matters |
| Safety.PaysExactlyAtThreshold | contract/src/contract.rs:295-305 | an accepted vote pays exactly when it completes the threshold within the cap |
| Safety.EntryHoldsVotedPayload | contract/src/contract.rs:275-293 | an entry whose votes have dash-free ids has the recipient each voter asked for, and of stored and voted coin the one with a proper denom bounds the other |
| Safety.EntryHoldsPayload | contract/src/contract.rs:275-293 | whoever voted first, the entry of a payload has its recipient, and its amount exactly if the stored denom starts with no digit, else a smaller one |
| Safety.HonestPayloadPaid | contract/src/contract.rs:336-348 | under the fault bound the bank send carries the honest recipient and a reading of the honest coin |
| Safety.ParkedAboveCap | contract/src/contract.rs:295-305 | a pending entry with enough votes was completed above the cap then in force, unless its key has a reading larger than the stored coin |
| Safety.ParkedUntilExecuted | contract/src/contract.rs:295-332 | from then on only a manual execution of that key removes it; votes and cap changes do not |
| Safety.RunGrows | contract/src/contract.rs:205-240 | over any run sent ids, votes, payments and tokens are only added, the threshold is fixed, the token list stays within 200 or as it was, and equal versions mean equal configs |
| Safety.VersionStep | contract/src/contract.rs:357-472 | an accepted update raises the version by exactly one, and nothing else touches the config |
| Safety.TokenFixedOnceAdded | contract/src/contract.rs:428-472 | an issuer-currency pair keeps its multiplier and activation date for ever |
| Safety.RepeatRejected | contract/src/contract.rs:262-293 | once a vote is accepted under a key with one id, the identical call is refused in every later state, with an answer the executor understands |
| Safety.DuplicateDeliveryIrrelevant | relayer/executor/executor.go:83-144 | a second delivery of an accepted vote, under a key with one id, leaves the outcome of the run unchanged wherever it falls |
| Ledger.ManualPaymentNeutral | contract/src/contract.rs:321-348 | a manual execution takes in exactly the coin it sends out, so the balance moves only if it pays the contract itself |
| Ledger.Conservation | contract/src/contract.rs:336-355 | over any run balance equals opening balance plus deposits minus automatic sends |
| Ledger.AutoPaymentWithinLimits | contract/src/contract.rs:258-300 | an automatic send is at most the maximum at its step unless the key has a reading larger than the completing vote's coin, and at least the minimum unless it has one larger than the coin sent |
| Limits.DashedIdPaidTwice | contract/src/contract.rs:529-536 | for every id with a dash there is a run that pays the same evidence id twice |
| Limits.ThresholdOfVotesPays | contract/src/contract.rs:242-305 | from any world where the payload is new or gathered so far with the very coin asked for, the votes missing to the threshold pay it, if funded and within the limits |
| Limits.UnfundedForEver | contract/src/contract.rs:295-348 | an entry that asks for more of its stored coin than the contract holds is never paid, by any run that brings in no coin of that denom |
| Limits.FirstVoteBlocks | contract/src/contract.rs:275-305 | one trusted address that votes first with another coin of the same key keeps the key unpaid in every such run |
| Limits.MissingVotesPay | contract/src/contract.rs:275-305 | the votes missing to the threshold send the stored coin to the stored recipient if the contract holds it, and pay nothing otherwise |
| Limits.QuorumEnoughIff | contract/src/contract.rs:275-305 | the missing votes get the coin they ask for paid exactly if it is the stored one and the contract holds it |
| Limits.QuorumBoundIsTight | contract/src/contract.rs:308-332 | for every number of voters and threshold a run just outside the quorum bound pays one id twice |
| Limits.CaseVariantTokenAccepted | contract/src/contract.rs:428-472 | the owner's update adds a token pair again when its currency code is written in the other case, with a multiplier of its own |
| Readings.PaidTwiceIff | contract/src/contract.rs:262-355 | the evidence id of a payload can be paid twice in some run exactly if its text is ambiguous: a digit after a dash of the denom, or a dash in the id, with a digit behind it if the amount is zero |
| Readings.RepeatedIff | contract/src/contract.rs:262-293 | some run accepts one and the same vote twice exactly if the text of its payload is ambiguous |
| Readings.DenomCaseFollowsFirstVote | contract/src/contract.rs:275-293 | votes that differ in the case of the denom meet, and the first one decides what is paid |
| Readings.SentAboveCapIff | contract/src/contract.rs:295-300 | a completing vote for a coin can let through more than the cap exactly if its key has a larger reading, so for plain keys if the denom begins with a digit and the amount is positive |
| Readings.SentBelowMinIff | contract/src/contract.rs:258-300 | a coin can be sent below the minimum in force exactly under the same condition |
| Readings.ParkedWithinCapIff | contract/src/contract.rs:295-305 | a coin can be parked with all its votes without being above the cap exactly under the same condition |
| Readings.OtherCoinIff | contract/src/contract.rs:529-531 | another coin of a positive amount shares the key exactly if the amount has two digits, or is positive with a letter in the denom or a digit in front of it |
| Finder.ExtractAddressFromMemo | relayer/finder/finder.go:176-191 | the loop returns the address of the first memo that names one |
| Finder.FirstAddressMeaning | relayer/finder/finder.go:176-191 | an address is found exactly when some memo has the suffix and decodes, and it is the first such |
| Finder.ConvertIsFloor | relayer/finder/finder.go:194-225 | for any multiplier text the conversion is the floor of amount times factor times 10^decimals, whatever the reduction of the fraction |
| FinderSpec.ConvertReadable | relayer/finder/finder.go:203-222 | a readable positive multiplier is itself the factor |
| FinderSpec.ConvertAtPar | relayer/finder/finder.go:199-210 | an absent, zero or empty multiplier is the factor one |
| FinderSpec.ConvertNothing | relayer/finder/finder.go:195-206 | no amount, or a multiplier that cannot be read, converts to zero |
| FinderSpec.ConvertAccepted | relayer/finder/finder.go:194-225 | for a token the contract accepts the factor is the contract's own decimal |
| FinderSpec.ConvertOdd | relayer/finder/finder.go:216-222 | the division truncates toward zero, so negative amounts mirror positive ones |
| Rational.Pow10Sum | relayer/finder/finder.go:212-213 | powers of ten multiply, from 1 and 10, and a negative exponent counts as zero |
| Finder.ConvertMonotone | relayer/finder/finder.go:212-222 | a larger burn never converts to less |
| Finder.ConvertSplit | relayer/finder/finder.go:212-222 | splitting a burn never pays more, and joining gains at most one unit |
| Finder.AcceptedMultiplier | contract/src/contract.rs:504-519 | the multiplier of an accepted token is the contract's decimal as the relayer reads it, and lies between one tenth and ten |
| Finder.ConvertWithinContractBounds | contract/src/contract.rs:504-519 | with an accepted token the converted amount stays between one tenth of the burn, less one unit, and ten times the burn |
| Finder.ReceivedAtLeastDelivered | relayer/finder/finder.go:235-302 | the loop computes the verdict that the laws of single entries and `FinderSpec.BackedIff` characterise |
| Finder.BackedOrderFree | relayer/finder/finder.go:250-278 | the verdict does not depend on the order of the balances |
| FinderSpec.BackedIff | relayer/finder/finder.go:227-302 | accepted exactly if some entry concerns the delivered currency and the shortfall of the summed changes is nil, or for an issued token within 10^-14 of the delivered amount or of a balance |
| FinderSpec.OneIssuedEntry | relayer/finder/finder.go:235-302 | a single entry of the issuer decides by its change, with the tolerance scaled to the larger of balance and delivered amount |
| FinderSpec.OneNativeEntry | relayer/finder/finder.go:288-291 | XRP is compared exactly |
| FinderSpec.ForeignEntryIgnored | relayer/finder/finder.go:253-263 | entries of another currency, or for a token of another issuer of another counterparty, change nothing |
| FinderSpec.SplitEntryAlike | relayer/finder/finder.go:265-278 | an entry split in two with the same total change changes nothing |
| FinderSpec.NothingListed | relayer/finder/finder.go:240-248 | unreadable metadata is an error, an account it does not list has received nothing, and only its own entries matter |
| FinderSpec.TransferIff | relayer/finder/finder.go:97-168 | a finder of an accepted token emits a transfer exactly if the transaction is a validated successful payment of the token to its issuer, not before activation and shown by the metadata, with the first memo address as recipient and the floor of the amount due, if positive |
| FinderSpec.EmittedIff | relayer/finder/finder.go:97-168 | some transfer is emitted exactly for such a burn that is worth a whole unit and has a memo that is an address followed by the suffix |
| FinderSpec.TransferBacked | relayer/finder/finder.go:131-167 | a transfer is at most 10^decimals times the contract's decimal times the summed changes plus the tolerance |
| Scanner.GetAccountTransactions | relayer/client/xrpl/rpc.go:292-370 | one page hands over exactly the next items in order; its index is one below the ledger of the last item looked at, or below the start if there was none |
| Scanner.SubscribeAccountTransactions | relayer/client/xrpl/rpc.go:257-289 | paging ends, hands over in ledger order only what was asked for, all of it on success, covers everything up to the cursor, and short of cancellation the cursor reaches the last ledger handed over and never falls behind the start |
| Scanner.ScanHistory | relayer/client/xrpl/scanner.go:100-126 | under any failures and retries the history is covered up to the cursor, each attempt resumes in ledger order at the last item handed over, and a smooth attempt completes it |
| Scanner.ScanRecent | relayer/client/xrpl/scanner.go:128-162 | the repeated recent scan covers everything from the split to its cursor and to the end of every completed round, in ledger order, and stays 20 ledgers short of the current one |
| Scanner.Subscribe | relayer/client/xrpl/scanner.go:69-165 | history and recent scan together leave no gap; the history completes if it decodes and an attempt gets through, and without cancellation no cursor falls behind its start, and the recent one reaches the end of every round that gets through |
| Client.SplitPage | relayer/client/tx/contract.go:754-760 | a page is split by the threshold, in order |
| Client.GetAllPendingTransactions | relayer/client/tx/contract.go:731-767 | the fetch loop ends for maps of any size and returns the concatenated pages, split by threshold, exactly if the queries up to the first empty page get through |
| Client.PageMeaning | contract/src/contract.rs:622-637 | a page is the entries from the offset on, at most the limit, by default and at most 500, and ends early only at the end of the map |
| Client.FetchAllIffFits | contract/src/contract.rs:622-637 | the pages list every pending entry exactly once if and only if there are at most 4294967000 of them |
| Client.SelectMeaning | relayer/client/tx/contract.go:754-760 | the approved list holds exactly the entries with at least threshold providers |
| Client.BuildExecutePendingMessages | relayer/client/tx/contract.go:513-552 | messages match the requested entries in order, and an error names exactly the requested ids that are not approved |
| Client.WantedMeaning | relayer/client/tx/contract.go:523-542 | the batch is the requested approved entries, each once, or all of them if none is named |
| Client.SnapshotSelects | relayer/client/tx/contract.go:513-552 | the batch built from a fetched snapshot is the requested approved entries, each once, as stored |
| Client.BatchExecutes | contract/src/contract.rs:308-355 | run in order every message of the batch succeeds exactly if all amounts are positive, given that the bank module accepts the sends; the entries go, and the balance grows only by what is paid to the contract itself |
| Client.SnapshotBatch | relayer/client/tx/contract.go:513-552 | from an unchanged snapshot the fetched, selected and built batch succeeds exactly if the requested entries have positive amounts, given that the bank module accepts the sends, and removes exactly these |
| Executor.AnswerSettles | relayer/executor/executor.go:110-134 | acceptance and the two refusals taken for an answer all mean that the transfer is settled |
| Executor.VoteAcceptedIff | contract/src/contract.rs:250-305 | a vote is accepted exactly when it is admissible, not settled, and payable if it has to pay |
| Executor.VoteRefused | contract/src/contract.rs:249-290 | which refusal of a vote means what, in the order of the checks |
| Executor.FinalIff | relayer/executor/executor.go:110-143 | the answer ends the retries exactly if recipient and sender are valid, the amount is not too low, and the vote is settled or payable |
| Executor.Try | relayer/executor/executor.go:84-144 | one pass of the retry body ends the matter exactly if the minimum read is above the amount, without a vote, or the answered vote is not obstructed |
| Executor.Process | relayer/executor/executor.go:84-144 | the retries end exactly if some attempt ends the matter; then the amount was below the minimum read, the id is sent, or the sender is a provider; all it submits are votes for this transfer |
| Executor.SettledForEver | relayer/executor/executor.go:119-134 | a settled transfer whose key has one id stays settled in every continuation |
| Executor.QuorumSettles | contract/src/contract.rs:275-305 | a transfer settled by a threshold of senders is paid, or waits with its votes and was completed above the cap |
| Executor.QuorumDelivers | relayer/executor/executor.go:119-134 | the same when each sender settled it at its own point of the run, whatever others vote for |
| Executor.Start | relayer/executor/executor.go:65-156 | every transfer the loop has finished is settled at the end or was below the minimum, and it stops short only at a transfer none of whose attempts ended the matter |
| Watcher.ConfigWatcher.Initialize | relayer/watcher/config.go:41-57 | the version of the config queried is recorded, a failed query records nothing |
| Watcher.ConfigWatcher.Watch | relayer/watcher/config.go:61-94 | the watch stops at the first successful poll that shows another version, and only there |
| Watcher.PollReportsChange | relayer/watcher/config.go:73-92 | over any run a poll reports a change exactly when the config differs from the one recorded |
| Watcher.StaleFindersUnseen | relayer/service/service.go:356-404 | departures from the finders' config are reported exactly when the recorded version is its version; an update between the two queries goes unseen |
| Watcher.Supervise | relayer/service/service.go:356-404 | over any run the watch stops exactly at the first successful poll whose config differs from the recorded one, which is the finders' own if the versions agree |
| Audit.FindToken | relayer/audit/audit.go:299-310 | the search returns the multiplier of the first token the transaction burns |
| Audit.AnalyzeXrplToTX | relayer/audit/audit.go:269-336 | the pass returns the discrepancies of all requests in order |
| Audit.CleanRequest | relayer/audit/audit.go:274-333 | a request has no discrepancy exactly when it names a known burn of a configured token, its memo recipient and its converted amount |
| Audit.FaultKinds | relayer/audit/audit.go:274-333 | which discrepancy is reported for what: unknown transaction, other recipient, no configured token burned, other amount than at that token's multiplier |
| Audit.AuditorAgreesWithFinder | relayer/audit/audit.go:286-332 | a request that a finder submits has no discrepancy |
| Audit.AuditPassClean | relayer/audit/audit.go:269-336 | the pass over requests that all come from finders of configured tokens reports nothing |
| Audit.CleanPass | relayer/audit/audit.go:269-336 | the pass reports nothing exactly if every request names a known burn of a configured token, its memo recipient and its converted amount |
| Relayer.TokenJobs | relayer/finder/finder.go:79-92 | the transfers submitted for an accepted token are exactly those that burns among the delivered transactions entitle to |
| Relayer.Relay | relayer/finder/finder.go:67-95 | the scans reach what the server lets through; unless a transfer found got stuck, every eligible burn in the covered ledgers is paid, voted for, or was below the minimum, be the history scan complete or not |
| Relayer.RelayersDeliver | relayer/executor/executor.go:65-156 | a transfer dealt with by a threshold of relayers, and never below the minimum, is paid or waits above the cap with its votes |
| Bridge.OneTokenPerTx | relayer/service/service.go:514-559 | finders that accept the same transaction name one recipient and are for tokens that decode alike, hence one token if decoded pairs are distinct |
| Bridge.RelayerVotesHonestly | relayer/executor/executor.go:90-110 | every vote the modelled relayer of a configured token submits is an honest vote, in whatever state it arrives |
| Bridge.HonestBacker | contract/src/contract.rs:295-332 | with fewer liars than the threshold some honest voter stands behind every payment |
| Bridge.EveryPaymentIsABurn | contract/src/contract.rs:242-355 | every payment is for the key of what a configured token's finder makes of the XRPL transaction with its id, that is of the transfer its burn entitles to, whatever the dishonest minority votes for |
| Bridge.NoBurnPaidTwice | contract/src/contract.rs:242-355 | no two payments are for the same XRPL transaction, if the finders that accept it ask for one amount |
| Bridge.PaidWithinBurned | contract/src/contract.rs:242-355 | if token pairs stay distinct when decoded, the total paid by both paths is within what the pairwise different burns are worth at the contract's decimals for their tokens |
| Twins.RivalsPaidTwice | relayer/service/service.go:514-559 | from any world where both are new and above the cap, two finders' different claims on one burn are both paid on honest votes alone |
| Twins.CaseVariantPaidTwice | contract/src/contract.rs:428-472 | adding a token again with its currency code in lower case leads to a run that pays for one burn twice |
| Twins.PaidTwiceIffRivals | relayer/service/service.go:514-559 | honest relayers can have a burn paid for twice exactly if two configured tokens' finders ask different amounts for it |

## Left out

- Legacy storage in `migrate` (contract/src/contract.rs:151-203): runs begin at instantiation, and `migrate` is one more step on a configured contract.
- Unicode lower-casing: only ASCII letters change case in the model, which covers hashes, bech32 addresses and denoms.
- Base58, bech32, `Decimal` and `big.Rat` text parsing, and currency canonicalisation: parameters of the model, not decoded there.
- `Balances()` over XRPL metadata and the rounding and overflow of `Value.Add`: balance changes are given and added exactly, so the error path of the addition is not modelled.
- The XRPL server and its markers: only ledger order, exact continuation and immutability of validated ledgers are assumed; a marker is a position.
- Real time, delays and goroutine scheduling: retries and interleavings are nondeterministic inputs, and the two scans append to one channel one after the other, which leaves the set of delivered transactions the same.
- The key order of the storage map: paging walks one fixed listing of the map, whatever its order.
- The contract-call pass of the auditor and its event search, metrics, logging, command line, transport, signing and fees.
- Single-entry queries and event attributes of the contract: they would only add members that repeat storage lookups.
- Bridge.PaidWithinBurned: the denom of a payment is fixed up to letter case only, because the key is lower-cased, and its amount can be smaller than the claim if the paid denom starts with a digit; see `Readings.DenomCaseFollowsFirstVote` and `Safety.EntryHoldsPayload`. It needs token pairs that stay distinct after decoding the currency code, which the contract does not enforce; see `Twins.PaidTwiceIffRivals`.
- Client.BatchExecutes: the bank module's own verdict is taken to be favourable for every message of the batch, and a denom that the message builder of the SDK refuses is not modelled.
