# evm-bridge, verified

evm-bridge moves deposits from one chain to another. A `Bank` contract on the source chain logs each deposit
under the next id of its kind. A relayer process reads those logs in block ranges, sends a mint transaction
for each deposit to the destination chain, retries the ones that fail, and records the outcome of each deposit
in a key-value store as a protobuf message. A block watermark per kind, in the same store, says from where the
next process has to read.

This project is a Dafny model of that code and the proofs of what it keeps. `dafny verify dfyconfig.toml` checks all of it.

## How it is built

| file | what it models |
|---|---|
| `Bytes`, `Arithmetic` | Go's integer widths, shifts and conversions |
| `Varint` | the base-128 varints of the Protocol Buffers Encoding specification: reader and writer loops against a number system |
| `Records` | the record grammar of that specification with its groups, and `skipEvent`'s depth counter against it |
| `Message` | `Unmarshal` of both event messages as a parser over values, and its meaning, a fold over records |
| `Encoding` | the bytes `Marshal` writes, and the laws between the two directions |
| `Buffer`, `Events` | the generated Go code itself: objects with fields, a buffer filled from its end, index loops; and their store access |
| `Store` | the shared store with its prefixed byte keys |
| `Bank` | the contract, with re-entrant calls and reverts |
| `Seam` | the event of a log, the merge-read of `Get`, the mint transaction |
| `Lanes` | the protocol for one kind of deposit: its steps and its invariant |
| `Relayer` | the whole machine: chain, store, process, confirmer callbacks in two halves, crashes, restarts |
| `Runs` | theorems about every state of every run |
| `Outcomes` | what each step stores, counts, sends and marks, told from the confirmer's verdicts; where records, mints and logs come from |
| `Drain`, `Totals` | the event maps empty; amounts are conserved across the chains |
| `Hazards` | concrete runs: a deposit lost for each reason there is, and what the one scheduling assumption is for |
| `Process`, `Bridge`, `Serve` | the relayer as a class and the main loop, with callbacks that may begin and end between any two of its actions; each method is proved to take the machine's steps |

Functions say what a piece of code computes; where the original works in place, a method with its loops does
too and is proved equal to the function. The theorems are lemmas about the functions. The class `Bridge.Bridge`
carries the machine's state as a ghost field, tied to its real fields and to the bytes in the store by `Valid`,
so that each theorem about runs is a theorem about what `Serve.Start` does.

`hide` statements only narrow what the prover looks at.

## Assumptions

The code does not guarantee these by itself; each is a precondition or an enabling condition in `Relayer.Enabled`,
`Relayer.Disciplined` or `Serve.Admissible`.

- Scheduling: when the main loop ticks for a kind and writes its watermark, no callback of that kind is running that has emptied
  the map. Where the write fails, one may be, if its deposit lies in a block before the range of the fetch. No weaker assumption
  keeps the invariant, that what is in flight or to come is not below the watermark among the rest: by `Relayer.StepKeepsIff` a
  step breaks it if and only if it is a tick that violates the assumption. Without it a confirmed deposit can be left below the
  watermark with no outcome (`Hazards.TickDuringCallbackForgets`), or with one from before that hides it
  (`Hazards.OldDropHidesALoss`, `Hazards.OldRecordHidesALoss`), or be minted twice (`Hazards.TickDuringCallbackMintsTwice`).
  Everything else interleaves freely, and closing during a callback is a loss with a name.
- An error that reaches `handleErr` ends the process and leaves the store: it is the step `Crash`. An error of `handleLogs` does
  reach it. In the code it can be overwritten with nil, since the filter's goroutine assigns its own result to the same variable
  (cli/bridge/bridge.go:139-151, 164-176), and then the range counts as confirmed with the log unsent. The model has no such race.
- The chain only grows, a block's logs are final, deposits sit in blocks from 1 on, and a filter yields logs of its range,
  each at most once. It may stop short with an error.
- The confirmer calls back at most once for a hash, and only for one it was handed; transaction hashes are distinct within a process.
- Pairs are `ORIGINAL`, and change only between processes.
- Deposit ids are below 2^64. Addresses are their hex strings.

## What the proofs found in the code

Each of these loses deposits, whose outcome is then nowhere; `Runs.StepCausesIff` has the exact cause, and `Hazards.EveryReasonLoses` a
run that loses a deposit for it, below the watermark for good.

- A filter error is only logged (cli/bridge/bridge.go:142-147, 167-172), and the range then counts as confirmed: reason `FilterFailed`.
- Any error in reading a pair counts as there being none (cli/bridge/bridge.go:204-208): reason `PairUnread`, when a log is
  handled and when a deposit is sent again.
- `Close` writes the watermarks after its last wait even with entries left (cli/bridge/bridge.go:99-115): reason `ForcedClose`. And
  it takes the maps for empty while callbacks that have emptied them still run: reason `CallbackCut`.
- The handlers delete the event before they store it (cli/bridge/bridge.go:264-270, 286-294). When the store fails, no trace remains:
  reason `PutFailed`.
- When a retry cannot be sent because the pair is gone or the transaction cannot be built, the deposit is dropped
  (cli/bridge/bridge.go:299-301): reason `RetryNotSent`.

And these do other harm:

- When only the queue refuses a retry, the entry stays in the map, which then never empties while the process lives; its watermark
  does not move again (`Runs.StuckForever`).
- A token id of 2^63 or more is minted as another, negative number (cli/bridge/bridge.go:244): `Seam.MintIsDeposit` has the exact condition.
- A negative status is read from five bytes and written back as ten (`Encoding.GrowthIsTight`).
- Concatenating inputs can change which error is reported, and nothing else (`Message.MergeLaw`, `Encoding.MergeLawEnds`).
- The NFT arm of the loop ignores the watermark's error (cli/cmd/bridgecli/serve.go:136-137), and `ConfirmedBlock.Put` drops the store's anyway (cli/pb/block.go:55-60).
  A watermark that is not written is only written later, which is harmless: the step `Tick` has it both ways.

## Model

| member | source | states |
|---|---|---|
| `Varint.SovIsLength` | cli/pb/event.pb.go:659-661 | the bit-length formula is the number of bytes the writer produces, for every value |
| `Varint.EncodeIsVarint` | cli/pb/event.pb.go:575-585 | every 64-bit word is written as one varint that stands for that word |
| `Varint.RoundTrip` | cli/pb/event.pb.go:713-726 | the bytes written for a word, anywhere in an input, are read back as that word and all consumed |
| `Varint.Minimal` | cli/pb/event.pb.go:713-726 | whatever is read back as a word is at least as long as what is written for it |
| `Varint.ReadSound` | cli/pb/event.pb.go:713-726 | what the loop accepts is one varint of at most ten bytes, standing for the value returned |
| `Varint.ReadComplete` | cli/pb/event.pb.go:713-726 | every varint in an input is accepted with its value and its end |
| `Varint.ReadFails` | cli/pb/event.pb.go:713-726 | ten bytes that all ask for another are an overflow, and fewer that run into the end are an unexpected end |
| `Varint.ReadVarint` | cli/pb/event.pb.go:741-754 | the shift loop, with an accumulator of 32 or 64 bits, gives the value truncated to it, or the same error |
| `Varint.EncodeVarint` | cli/pb/event.pb.go:575-585 | the writer loop puts exactly those bytes in front of its offset and touches no others |
| `Records.SkipIsGrammar` | cli/pb/event.pb.go:1174-1251 | the depth counter answers n within the input exactly when the first n bytes are one record, groups balanced |
| `Records.SkipRecord` | cli/pb/event.pb.go:1174-1251 | at any depth and position, one record moves the loop to its end |
| `Records.SkipSound` | cli/pb/event.pb.go:1174-1251 | inside open groups, the loop accepts exactly the rest of those groups |
| `Records.SkipIgnoresRest` | cli/pb/event.pb.go:1174-1251 | the answer does not depend on the bytes after the record |
| `Records.SkipPayload` | cli/pb/event.pb.go:1194-1242 | the switch on the wire type, with sums that wrap round |
| `Records.SkipEvent` | cli/pb/event.pb.go:1174-1251 | the loop never reads outside its input, ends, answers at least 1, and equals the recursive reading |
| `Message.StepComplete` | cli/pb/event.pb.go:710-940 | a legal record is taken in one turn, whatever surrounds it |
| `Message.StepSound` | cli/pb/event.pb.go:710-940 | what one turn takes is one legal record, and it is applied to the message |
| `Message.UnmarshalIsFold` | cli/pb/event.pb.go:707-946 | accepts exactly the sequences of legal records, and folds them into the receiver |
| `Message.LastOneWins` | cli/pb/event.pb.go:735-924 | each known field ends up as its last record alone leaves it, and is left alone when there is none |
| `Message.UnknownsKept` | cli/pb/event.pb.go:925-938 | unknown records are kept verbatim, in order, after those the receiver had |
| `Message.ApplyAppend` | cli/pb/event.pb.go:707-946 | records of two inputs fold one after the other |
| `Message.MergeLaw` | cli/pb/event.pb.go:707-946 | reading a concatenation is reading its parts in turn, with the same result or error, if and only if the second part does not break off at a length the first pushes out of the int range |
| `Message.StepShift` | cli/pb/event.pb.go:710-940 | a turn does the same wherever in an input its record stands, that one error aside |
| `Encoding.Spelled` | cli/proto/event.proto:15-44 | a message of each kind byte by byte: field numbers and wire types in ascending order, FAILED as 1 and SUCCEEDED as 2 |
| `Encoding.MergeLawEnds` | cli/pb/event.pb.go:778-784 | a concrete input at which the merge law's condition fails |
| `Encoding.MergeRead` | cli/pb/event.pb.go:446-502 | a written message read into any receiver overlays it: omitted zero fields keep the receiver's values |
| `Encoding.MergeReadIsExact` | cli/pb/event.go:43-50 | the read-back is the message itself if and only if the receiver is zero wherever the message is, and has no unrecognized bytes |
| `Encoding.RoundTrip` | cli/pb/event.pb.go:431-573 | reading back into a zero message gives the message, if and only if its unrecognized bytes are complete unknown records |
| `Encoding.NormalForm` | cli/pb/event.pb.go:707-1173 | whatever is accepted, writing the result and reading again gives an equal message |
| `Encoding.UnknownOnlyKept` | cli/pb/event.pb.go:925-938 | what is collected as unrecognized is always complete unknown records |
| `Encoding.Growth` | cli/pb/event.pb.go:586-657 | writing what was read takes at most five bytes more than the input had |
| `Encoding.GrowthIsTight` | cli/pb/event.pb.go:465-469 | a negative status needs those five bytes |
| `Buffer.PutBlob` | cli/pb/event.pb.go:475-495 | a length-delimited field goes in front of what is there, without underrun |
| `Buffer.ReadBlob` | cli/pb/event.pb.go:759-786 | the length checks, with sums that wrap round, let no slice leave the input |
| `Events.EventERC20Deposited.Size` | cli/pb/event.pb.go:586-621 | the size is the length of what is written |
| `Events.EventERC20Deposited.MarshalToSizedBuffer` | cli/pb/event.pb.go:446-502 | back to front, the buffer's end becomes the ascending fields and the unrecognized bytes; the rest of it is untouched |
| `Events.EventERC20Deposited.Marshal` | cli/pb/event.pb.go:431-439 | a buffer of that size is filled exactly |
| `Events.EventERC20Deposited.UnmarshalField` | cli/pb/event.pb.go:710-940 | one turn of the loop updates the fields as the parser does, or reports its error |
| `Events.EventERC20Deposited.Unmarshal` | cli/pb/event.pb.go:707-946 | the object becomes what the parser makes of its old value, on any bytes |
| `Events.EventNFTDeposited.Size` | cli/pb/event.pb.go:623-657 | the same for the NFT message, whose field 4 is a number |
| `Events.EventNFTDeposited.MarshalToSizedBuffer` | cli/pb/event.pb.go:519-573 | the same for the NFT message |
| `Events.EventNFTDeposited.Marshal` | cli/pb/event.pb.go:504-512 | the same for the NFT message |
| `Events.EventNFTDeposited.Unmarshal` | cli/pb/event.pb.go:947-1173 | the same for the NFT message |
| `Events.EventERC20Deposited.Get` | cli/pb/event.go:43-50 | a stored record is unmarshalled into what the object holds; without one nothing changes |
| `Events.EventERC20Deposited.Put` | cli/pb/event.go:52-59 | the record of this id becomes the written message, and every other key reads as before |
| `Events.EventNFTDeposited.Get` | cli/pb/event.go:92-99 | the same for the NFT message |
| `Events.EventNFTDeposited.Put` | cli/pb/event.go:101-108 | the same for the NFT message |
| `Store.BigEndianInjective` | cli/pb/event.go:30-33 | different ids have different keys |
| `Store.BigEndianReads` | cli/pb/event.go:30-33 | an id's bytes, read from the first on, each worth 256 times less than the one before, spell the id |
| `Store.KeyBytes` | cli/pb/event.go:10-11 | the keys of events, watermarks and pairs byte by byte |
| `Store.KeysInjective` | cli/pb/block.go:10-14 | prefixed keys are equal only if they are the same key of the same kind of record |
| `Store.DB.Put` | cli/pb/event.go:72-77 | through the byte keys, a write changes no other record, of any kind |
| `Bank.RunAllNumbered` | contracts/Bank.sol:173-179 | over any calls, with reverts and re-entry, the ids of each kind come out 0, 1, 2, ... in order |
| `Bank.GoesThroughIff` | contracts/Bank.sol:87-95 | a call goes through if and only if the token or recipient lets it, a withdrawal is permitted, and one of native coin is not made inside another nor of more than there is |
| `Bank.RunAllLogs` | contracts/Bank.sol:76-169 | over any calls, the log grows by exactly one entry for each that goes through, those made inside a call before its own, with the call's kind, token, sender or recipient, and value |
| `Bank.DepositsAreCalls` | contracts/Bank.sol:105-154 | the deposit events of a kind are the old ones and one for each deposit of the kind that goes through, in the order in which they complete, with its token, sender and value |
| `Bank.NoneInside` | contracts/Bank.sol:87-95 | inside an open withdrawal of native coin no other goes through, and the balance does not fall |
| `Bank.RunBalanced` | contracts/Bank.sol:87-95 | a whole call moves balance and log together, even one made inside an open withdrawal |
| `Bank.FundsAccounted` | contracts/Bank.sol:76-95 | from deployment on, the balance is what came in less what went out whenever no call is open |
| `Bank.Bank.Execute` | contracts/Bank.sol:76-169 | each call changes the storage as specified, and a revert leaves no trace |
| `Bank.Bank.AssignIndex` | contracts/Bank.sol:173-179 | the id is the counter's old value, and the counter goes up by one |
| `Seam.DecimalRoundTrip` | cli/bridge/bridge.go:239-240 | an amount written in decimal and parsed back is the amount |
| `Seam.GetIsExact` | cli/pb/event.go:43-50 | `Get` into the event built from a log gives exactly the record stored for it, so the status tested is the stored one |
| `Seam.MintIsDeposit` | cli/bridge/bridge.go:230-251 | the mint pays the depositor the deposited value, if and only if it is an amount or a token id below 2^63 |
| `Lanes.HandleKeeps` | cli/bridge/bridge.go:179-201 | one iteration of the loop keeps the invariant, and never fails to read the store |
| `Lanes.TickKeeps` | cli/cmd/bridgecli/serve.go:121-128 | writing the watermark over an empty map, and starting the next fetch, keeps it, where the tick is safe; `TickKeepsIff` says that this is the exact condition |
| `Lanes.SettleKeeps` | cli/bridge/bridge.go:264-294 | storing a final status keeps it, whether or not the store takes it |
| `Lanes.ResendKeeps` | cli/bridge/bridge.go:297-301 | sending again keeps it, whether or not the send succeeds |
| `Lanes.CloseKeeps` | cli/bridge/bridge.go:99-115 | closing keeps it, whatever is left in the maps or in the hands of callbacks |
| `Lanes.GetSeesStored` | cli/bridge/bridge.go:183-189 | what the loop sees of a deposit is its stored record, or the fresh event |
| `Lanes.TickKeepsIff` | cli/cmd/bridgecli/serve.go:121-128 | a tick keeps the invariant if and only if nothing is in flight when the watermark is written, and when it is not, each transaction in flight is of a block before the range |
| `Lanes.BelowMark` | cli/cmd/bridgecli/serve.go:121-128 | of a deposit strictly below the watermark nothing is in flight or to come, and the last that became of it is an outcome in the store, or that it was given up |
| `Lanes.CommitSafeIff` | cli/pb/block.go:48-63 | writing the watermark leaves each deposit up to it with a record or a drop of some time, if and only if each one in flight, in the map or in a callback, has one |
| `Lanes.CommitAheadIff` | cli/pb/block.go:48-63 | writing the watermark leaves nothing in flight below it if and only if all that is in flight is of the watermark's own block |
| `Lanes.TickSendsOnceIff` | cli/bridge/bridge.go:131-152 | a fetch has no deposit in its range that is in flight if and only if all those are of blocks before its first |
| `Relayer.StepKeeps` | cli/cmd/bridgecli/serve.go:112-144 | every step of the machine, crashes and restarts included, keeps the whole invariant |
| `Relayer.StepKeepsIff` | cli/cmd/bridgecli/serve.go:112-144 | and the only steps that break it are the ticks over a running callback that are not safe |
| `Relayer.CallbackFinds` | cli/bridge/bridge.go:318-331 | a first callback finds its event, in exactly one of the two maps |
| `Relayer.LogsContinue` | contracts/Bank.sol:105-117 | whatever a block calls, the relayer's logs go on as the Bank numbers them |
| `Outcomes.StoresIff` | cli/bridge/bridge.go:264-294 | a mint is counted and SUCCEEDED stored if and only if the callback of a confirmed transaction writes its record, FAILED if and only if that of an error, or of a failure with three retries behind it, does; both for the callback's own deposit, and no other step writes |
| `Outcomes.FlightIs` | cli/bridge/bridge.go:179-228 | what is in flight after a step: what the loop sends, for a deposit that has a pair and has not succeeded; what a failure with retries left sends again; and what callbacks and the end of the process take away |
| `Outcomes.MarksAre` | cli/pb/block.go:48-63 | the watermark becomes the last confirmed block where the loop finds its map empty and at a close, if the store takes it, and at no other step |
| `Outcomes.QueuesAre` | cli/bridge/bridge.go:223-227 | what the confirmer is handed and what its queue refuses, step by step |
| `Outcomes.EachMintWasConfirmed` | cli/bridge/bridge.go:253-275 | over any run, each mint counted goes back to the confirmer's call that its own transaction, for its own deposit, was confirmed |
| `Outcomes.EachRecordWasReported` | cli/bridge/bridge.go:286-294 | over any run, each record goes back to a call for a transaction of its deposit: confirmed for SUCCEEDED, failed with the retries used up or not known for FAILED |
| `Outcomes.LogsAreDeposits` | contracts/Bank.sol:105-154 | over any run, the relayer's logs of a kind are one for each deposit that went through on the chain, in order, with the token, sender and value of the call |
| `Runs.NoneAdrift` | cli/cmd/bridgecli/serve.go:119-141 | in every state of every run, each deposit ever logged is in flight, to come in the running fetch, in a block still to be fetched, or resolved: its last outcome stands in the store, or it was given up and nothing has become of it since |
| `Runs.NothingBelow` | cli/cmd/bridgecli/serve.go:121-128 | in every state of every run, nothing strictly below the watermark is in flight or to come, and every deposit there is resolved, so that a crash takes no transaction of it along |
| `Runs.NoDepositForgotten` | cli/cmd/bridgecli/serve.go:119-141 | in every state of every run, a deposit at or below the watermark has had a final status stored or been given up for a named reason, and strictly below it that stands |
| `Runs.StepCausesIff` | cli/bridge/bridge.go:191-196 | after a step a deposit stands as given up for a reason if and only if the step is that reason's cause, or it stood so before and the step does not get to it |
| `Runs.EveryLossHasItsCause` | cli/bridge/bridge.go:191-196 | a deposit ever given up has gone through the step that is its reason's cause |
| `Runs.LossesAreCaused` | cli/bridge/bridge.go:286-301 | over any run, a deposit stands as given up for a reason exactly when a step was the cause and none after it got to the deposit; those ever given up are exactly those that met a cause |
| `Runs.OnlyTwoReasons` | cli/bridge/bridge.go:179-201 | where filters and reads of pairs do not fail, the store takes every record and no close comes early, the only reasons left are a missing pair and a retry that could not be sent; strictly below the watermark, in the end and not just at one time |
| `Runs.CleanRunSettlesAll` | cli/cmd/bridgecli/serve.go:119-141 | where none of those causes occurs, every deposit at or below the watermark has its outcome stored, across any crashes, and strictly below it that of the last transaction sent for it |
| `Runs.NeverBack` | cli/pb/block.go:48-63 | between any two states of a run: the watermark does not fall, SUCCEEDED is never overwritten, no stored retry count falls |
| `Runs.OneInFlight` | cli/bridge/bridge.go:253-302 | at most one transaction is in flight per deposit, none for one stored as SUCCEEDED |
| `Runs.HandledOnce` | cli/bridge/bridge.go:183-191 | over any run, handled confirmations are of distinct deposits, and these are the ones stored as SUCCEEDED |
| `Runs.RetriesBounded` | cli/bridge/bridge.go:288-297 | no stored retry count passes 3, and no fetch sends a deposit more than four times |
| `Runs.RegisteredOnce` | cli/bridge/bridge.go:304-348 | a hash not called back for is in exactly one map, and an entry is never overwritten |
| `Runs.RangesMeet` | cli/bridge/bridge.go:131-152 | every block up to what a state has reached was in the range of a fetch that did begin |
| `Drain.CallbacksEnd` | cli/bridge/bridge.go:277-302 | over any stretch, whatever falls in between, there are at most eight half callbacks for each transaction in flight at its start and each log handled on the way |
| `Drain.Drained` | cli/bridge/bridge.go:124-129 | when no callback is left, the maps hold just the transactions the queue refused: empty if and only if it refused none |
| `Runs.StuckForever` | cli/bridge/bridge.go:223-227 | a transaction the queue refused keeps its map from emptying, and the watermark where it is, until the process ends |
| `Drain.NotStillMoves` | cli/bridge/bridge.go:253-302 | until then a callback can come or finish |
| `Totals.EachMintIsOneDeposit` | cli/bridge/bridge.go:230-275 | each handled confirmation is of one logged deposit and no other's, pays its sender, and its value unless the token id is 2^63 or more |
| `Totals.AmountsConserved` | cli/bridge/bridge.go:253-275 | for any set of deposits, what was minted for them is the sum of those stored as SUCCEEDED, and at most what was logged |
| `Totals.DestinationConserved` | cli/bridge/bridge.go:203-228 | per destination contract, mints handled equal the deposits sent there that are stored as SUCCEEDED, and are at most what was logged of those, whatever becomes of the pairs |
| `Totals.PairConserved` | cli/bridge/bridge.go:203-228 | and with the same pairs in every process, they equal those of the tokens paired with it, and are at most all that was logged of these |
| `Totals.BankBooks` | contracts/Bank.sol:76-95 | in every state of every run the Bank's balance is accounted for |
| `Hazards.EveryReasonLoses` | cli/bridge/bridge.go:99-115 | for each reason a run that leaves a deposit below the watermark, where no fetch will look again, with nothing in flight and no outcome |
| `Hazards.TickDuringCallbackForgets` | cli/bridge/bridge.go:264-268 | a concrete run in which a tick during the callback of a confirmed transaction, and a crash, leave its deposit below the watermark with no record |
| `Hazards.OldDropHidesALoss` | cli/bridge/bridge.go:191-196 | the same where the deposit was once passed by for want of a pair, which it has when it is sent and confirmed |
| `Hazards.OldRecordHidesALoss` | cli/bridge/bridge.go:286-294 | the same where an earlier transaction had failed for good, so that the record says FAILED of a confirmed deposit |
| `Hazards.TickDuringCallbackMintsTwice` | cli/bridge/bridge.go:183-191 | a concrete run in which such a tick does not even write the watermark, and the deposit's second confirmation is handled beside the first |
| `Bridge.Bridge.constructor` | cli/bridge/bridge.go:45-76 | a process starts from the store with empty maps and the persisted watermarks |
| `Bridge.Bridge.WriteEventMap` | cli/bridge/bridge.go:304-316 | the event is entered under its hash in the map of its kind |
| `Bridge.Bridge.ReadEventMap` | cli/bridge/bridge.go:318-331 | the event of a hash, from the ERC20 map first |
| `Bridge.Bridge.DeleteEventMap` | cli/bridge/bridge.go:333-348 | what a read returned is deleted, and nothing else |
| `Bridge.Bridge.Mint` | cli/bridge/bridge.go:230-251 | the transaction is the one specified for the event |
| `Bridge.Bridge.GetPair` | cli/pb/pair.go:17-28 | the pair's contract, or nothing, for a missing pair and for any error alike |
| `Bridge.Bridge.Send` | cli/bridge/bridge.go:203-228 | each outcome, what it means, and what it leaves in the maps: an entry is written even if the queue refuses |
| `Bridge.Bridge.HandleLog` | cli/bridge/bridge.go:180-197 | one iteration is one `Handle` step, and fails, leaving the store as it was, if and only if the log is to be sent and its transaction is not built or not taken |
| `Bridge.Bridge.HandleLogs` | cli/bridge/bridge.go:179-201 | the loop takes a `Handle` step for each log, with halves of callbacks and blocks between, up to the first log that fails, and comes to its end if and only if there is none |
| `Process.FirstBlockedIs` | cli/bridge/bridge.go:191-196 | and that first one is the first whose transaction, sent from where the steps before it lead, is not built or not taken |
| `Bridge.Bridge.Fetch` | cli/bridge/bridge.go:139-152 | the filter and the loop of a fetch, as far as its logs can be sent; where the filter stops short, the rest is given up |
| `Bridge.Bridge.Take` | cli/bridge/bridge.go:260-264 | the first half of a callback: the event leaves its map, or there is none and nothing changes |
| `Bridge.Bridge.Conclude` | cli/bridge/bridge.go:266-268 | a last action that ends the deposit: status and store, whether or not the store takes it |
| `Bridge.Bridge.EndErr` | cli/bridge/bridge.go:288-301 | the last action after a failure: give up or send again |
| `Bridge.Bridge.Happen` | cli/bridge/bridge.go:253-302 | either half of a callback, by itself |
| `Bridge.Bridge.ConfirmedHandler` | cli/bridge/bridge.go:253-275 | both halves of a confirmation, or nothing for a hash not in the maps |
| `Bridge.Bridge.ConfirmerErrHandler` | cli/bridge/bridge.go:277-302 | both halves of a failure: give up or send again |
| `Bridge.Bridge.Close` | cli/bridge/bridge.go:84-122 | over empty maps no wait, else round after round up to the first that leaves both empty, or the one after the limit; then both watermarks if asked to, and the end; whether the maps were empty is said |
| `Bridge.Bridge.Wait` | cli/bridge/bridge.go:92-107 | the waiting itself |
| `Bridge.Bridge.CanClose` | cli/bridge/bridge.go:124-129 | both maps are empty |
| `Bridge.Bridge.PutBlock` | cli/pb/block.go:48-63 | only this kind's watermark changes, and an error is dropped |
| `Process.TakeTarget` | cli/bridge/bridge.go:260-264 | the first half of a callback is a step of the machine, and leaves memory and store as specified |
| `Process.ConcludeTarget` | cli/bridge/bridge.go:266-268 | so is a last action that ends the deposit |
| `Process.RetryTarget` | cli/bridge/bridge.go:297-301 | and one that sends it again, or cannot |
| `Process.CloseTarget` | cli/bridge/bridge.go:107-115 | two watermark writes take the store to where the machine's `Close` is |
| `Process.CrashTarget` | cli/cmd/bridgecli/serve.go:125-128 | a crash at any moment leaves a store the next process can start from |
| `Serve.SlotsInTurn` | cli/bridge/rotator.go:20-26 | every slot comes round once in a round |
| `Serve.Rotator.Rotate` | cli/bridge/rotator.go:20-26 | the slot moves on by one, and back to 1 after the last |
| `Serve.TurnsAlternate` | cli/bridge/rotator.go:20-26 | the first turn is the NFT arm's, and of any two in a row one is its and one the ERC20 arm's |
| `Serve.Turn` | cli/cmd/bridgecli/serve.go:119-141 | an arm does nothing over a map that holds something, else takes the steps of watermark, fetch and end; it fails if and only if the latest block cannot be read or a log cannot be sent, and stops there |
| `Process.EmptyStores` | cli/bridge/bridge.go:45-76 | over a fresh chain, an empty store is what a first process needs to start |
| `Runs.FromFresh` | cli/cmd/bridgecli/serve.go:112-144 | the lives of processes, one after the other on the same store, are a run: what holds of runs holds of them |
| `Serve.Start` | cli/cmd/bridgecli/serve.go:86-145 | a process, from an old store on, answers each input in its turn: a tick of the timer by the arm whose turn it is, the signal by waiting for up to four rounds and a close with both watermarks. It ends if and only if the signal comes or an arm fails, and else uses up its inputs; its steps are a stretch of a run |

## Left out

- `Events.EventERC20Deposited.Unmarshal`: says nothing of the fields after an error, because the callers drop the object then; the same holds for the NFT message.
- `Events.EventERC20Deposited.UnmarshalField`: likewise.
- `Message.UnmarshalIsFold`: takes field 7 whatever its bytes are, where the external time library can refuse them.
- `Bridge.Bridge.Close`: the confirmer's shutdown is not modelled; callbacks that still run when the process ends are cut off there. Closing the store is not modelled either.
- `Bridge.Bridge.ConfirmedHandler`: a custom handler, which may return first, is not modelled.
- `Bridge.Bridge.ConfirmerErrHandler`: neither is a custom error handler.
- `Bridge.Bridge.Fetch`: the filter's goroutine and the loop share one error variable in the code; the model keeps their errors apart.
- `Encoding.RoundTrip`: timestamps are opaque bytes, kept when there; the time format is an external library's, and so are its errors.
- `Totals.DestinationConserved`: counts confirmations that were handled to the end. Whether a transaction mined twice across a crash mints twice is not decided by this code.
- `Bank.FundsAccounted`: forced transfers of native coin are not modelled, and neither are counters near 2^256.
- The varint loops that the generator repeats inline are one method, and so is each of the two fetches, with the kind as an argument. The event interface is a datatype over the two classes.
- Pairs and block numbers are kept in the store as values, not bytes: their generated codecs repeat that of the events. Reads of events and blocks that fail with an error of the store's own end the process and are a `Crash`.
- `WRAPPED` pairs: the arm is a TODO, and the code would dereference a nil transaction.
- Chain reorganisations, the transaction confirmer, nonces, gas, signing, RPC, configuration, logging, access control, whitelists, wrapped tokens and migrations.
