# chainlogs, modelled and verified in Dafny

chainlogs turns Bitcoin Cash transactions into a virtual EVM chain. A scanner collects EGTX transactions from
main-chain blocks and the mempool, derives one EVM transaction with one log from each, and writes them in
virtual blocks. RPC clients query the logs or follow them through filters and subscriptions. This project models
that path and proves what holds over all inputs, all runs and all interleavings. `dafny verify dfyconfig.toml`
checks everything.

| file | what it models |
|---|---|
| `Bytes.dfy`, `LogAbi.dfy`, `Schema.dfy`, `Packing.dfy` | byte strings, the ABI coding of the log data and its bytes by position, the packed value and token words |
| `Egtx.dfy`, `Derivations.dfy`, `TxBuilder.dfy` | deriving a transaction, what every part of the derived log means, and the command-line builder that prints the format |
| `ChainTypes.dfy`, `Confirmations.dfy` | blocks, transactions, logs; refreshing the confirmation word |
| `Scanner.dfy`, `Completion.dfy`, `Origins.dfy` | one round of `GetNewTxs` as a function, what it must collect, when it panics, and what its transactions carry |
| `Runs.dfy`, `ChainTheorems.dfy`, `Restart.dfy` | scanner, chain and store as a state machine with crashes and restarts |
| `PanicLoop.dfy` | when panics stop the scan for good |
| `Adapter.dfy` | the objects that change in place: store, scanner, virtual chain and its feeds |
| `Filters.dfy`, `Queries.dfy`, `PushPull.dfy` | matching logs, `eth_getLogs`, and its agreement with what subscribers get |
| `EventSystem.dfy`, `EventTheorems.dfy` | event loop, subscriptions, polling filters and unsubscribers as interleaved steps |
| `EndToEnd.dfy` | from a published block to what a polling client gets and what a query returns |

The main theorems are `ExactlyOnce`, `StoredOnceIff`, `RestartTransparent`, `CacheTransparent`, `RoundForm`,
`ChainShape`, `RoundPanicsIff`, `StuckIff`, `DeliveryConserved`, `NoSendAfterReturn`, `UnsubscribeFinishesIff`,
`StuckExactlyWhenDeadlocked`, `GetLogs`, `FilterSeesChain`, `ProcessServes`, `RoundTrip`, `PatchIsReencode`,
`ConvertUtxoInfoToTx`, `DerivedValues`, `DerivedTokens`, `BchStored` and `ScannerReadsBuilder`.

## Assumptions

- Whether a transaction derives depends only on its id, and a derivation has at most four topics (`Consistent`);
  `BchConsistent` shows both for the EGTX rules when an id names one list of outputs. Confirmation counts may change.
- A mempool answer names no id twice (`Fair`). Nothing is assumed about ids that occur twice among the blocks and the
  mempool of a round: `StoredOnceIff` says exactly when such a run stores something twice.
- A block given to the store is found by the next round, and writing a block is atomic.
- SHA-256 does not collide and never yields the zero hash (`IdealHash`); only `ChainShape`, `ParentOfSession` and
  what uses them need it.
- The log index finds, in chain order and once, at least the transactions with a matching log (`IndexSound`), hands
  out at most as many as its limit and then the mark that there are more (`Entries`). A height without a block has no
  transactions. Stored transactions may fail to decode.
- Chain events carry the logs of the block in order, and a feed delivers in order. Amounts are whole satoshi.
- Genesis is not negative and is the same in every session.

## Where the code differs from its documentation or intent

- The scanner panics on an EGTX transaction with an input that is not P2PKH or P2SH, while the project's README only
  says such inputs are not listed. A panic ends the process (`Derive`, `Apply`), and recovery starts again at the same
  height, so one such transaction stops the scan as long as the node serves its block (`BchNeverPasses`), and in the
  mempool it stops every round that gets to it (`NothingWritten`). `StuckIff` says exactly when the scan stops for good
  with an unchanging node, and `BuiltPanicsIff` which transactions of the builder have this effect.
- A cached id can hide a panic that a restarted process runs into (`CacheHidesPanic`).
- A transaction without outputs is not rejected (`AcceptsExactlyDerivable`).
- A transaction seen in a block and in the mempool of one round is stored twice (`SeenTwiceStoredTwice`,
  `StoredOnceIff`).
- `ParentHash` is the tip hash at the last recovery and links consecutive blocks only right after one
  (`ParentOfSession`).
- The transaction index does not advance over mempool transactions (`Shaped`).
- Errors raised inside the log-query callback are overwritten, so a query that is cut short looks complete
  (`SilentlyCutShort`); `AnsweredIff` says exactly when `GetLogs` still gives the right answer.
- `timeoutLoop` unsubscribes while it holds `filtersMu`; `DeadlockReachable` runs into the resulting deadlock,
  `StuckExactlyWhenDeadlocked` says exactly when a blocked send is stuck, and `UnsubscribeFinishesIff` when a pending
  `Unsubscribe` can never return, which is also the case after the event loop has stopped.
- The builder conserves value only for payments that are not negative and sums that do not overflow (`BuildEGTX`,
  `ValueFromNowhere`).

## Model

| member | source | states |
|---|---|---|
| `Bytes.Copy` | bch/egtx.go:65-91 | Go's copy on a buffer overwrites exactly the bytes that fit and leaves the others |
| `LogAbi.RoundTrip` | bch/abi.go:192-209 | unpacking packed log data gives back all six fields, for every value whose words and offsets fit 256 bits |
| `LogAbi.PackInjective` | bch/abi.go:203-209 | different contents never share log data |
| `LogAbi.Layout` | bch/abi.go:10-98 | each dynamic field stands exactly between its offset and the next one, after the six head words, up to the end of the data |
| `LogAbi.HeadWords` | bch/abi.go:10-98 | the six head words decode to the confirmation count and the five field offsets |
| `LogAbi.PaddedWithZeros` | bch/abi.go:10-98 | a byte string is padded with the fewest zero bytes to whole words |
| `LogAbi.WordAligned` | bch/abi.go:203-209 | every field offset and the whole data are multiples of 32 bytes |
| `Schema.HeadAt` | bch/abi.go:10-98 | the first six words are the confirmation count and where the five arrays start |
| `Schema.ValuesAt` | bch/abi.go:22-33 | at the first two offsets stand outputs and inputs, each as its length and its words in order |
| `Schema.TokensAt` | bch/abi.go:34-87 | at the next two offsets stand output tokens and input tokens, each entry as the four words of its tuple in the declared order |
| `Schema.StringsAt` | bch/abi.go:88-93 | at the last offset stand the byte strings, each behind an offset counted from the first offset word: length, bytes, zeros up to a whole word |
| `Packing.ValueWordExact` | scanner/bch.go:225-228 | the 20+12 byte word gives back address and wei amount if and only if satoshi is at most 7922816251426433759, and the amount modulo 2^96 otherwise |
| `Packing.ValueWordInjective` | bch/egtx.go:93-108 | within the bound, different address and amount pairs stay different as big integers |
| `Packing.TokenRoundTrip` | scanner/bch.go:146-194 | the four token words give back address, signed amount, category, commitment including its head and tail split, and the capability as 1, 2, 3 or 0 |
| `Packing.BuildTokenInfo` | scanner/bch.go:146-194 | filling the four buffers in place succeeds exactly for a 64-bit amount, a 32-byte category and a commitment of at most 40 bytes, and puts every byte where it belongs; the capability byte is 1, 2, 3 exactly for none, mutable, minting and 0 for anything else |
| `Packing.CapabilityTold` | scanner/bch.go:172-183 | words shared by two tokens mean equal amount, category and commitment, and equal capability or two unknown ones |
| `Egtx.ConvertTo` | bch/egtx.go:65-91 | short elements are zero-padded on the left, long ones keep their first bytes |
| `Egtx.FitKeepsValue` | bch/egtx.go:65-77 | a padded element keeps its big-endian value |
| `Egtx.ExtractEGTXNullData` | bch/egtx.go:28-53 | the loop splits the pushed elements by position into contract address, topics and data, or fails when hex or script do not decode |
| `Egtx.ElementPlaced` | bch/egtx.go:39-51 | every pushed element lands in its one place, in order; only empty elements at positions 1 to 4 are dropped; there are no other topics and no other data |
| `Egtx.FourTopics` | bch/egtx.go:44-47 | at most four topics result from any script |
| `Egtx.ExtractInputInfos` | scanner/bch.go:328-354 | the sender words and tokens of all inputs in order, and a panic exactly when some spent output cannot be read as P2PKH or P2SH |
| `Egtx.ReadOutput` | scanner/bch.go:220-235 | one output's address and amount word and its token words |
| `Egtx.LaterDataPlaced` | scanner/bch.go:236-256 | what a later OP_RETURN output pushes stands unbroken in the log's data list, after the payload's own data and after the earlier outputs' pushes |
| `Egtx.FirstObjection` | scanner/bch.go:204-224 | the first output the loop objects to decides the outcome, whatever the later outputs hold |
| `Egtx.ReadOutputs` | scanner/bch.go:203-244 | the loop stops early exactly for the declared reasons, and otherwise has collected all address words, token words and later data in order |
| `Egtx.ConvertUtxoInfoToTx` | scanner/bch.go:196-257 | the pass over outputs, inputs and payload yields the declarative derivation: which check rejects, when it panics, and every field of the result |
| `Egtx.AcceptsExactlyDerivable` | scanner/bch.go:203-255 | unless it panics, a transaction is accepted if and only if it meets the EGTX output rules or has no output |
| `Egtx.DerivedDataDecodes` | scanner/bch.go:245-257 | the log data of every derived transaction decodes to exactly what was derived |
| `Egtx.HexRoundTrip` | bch/egtx.go:28-33 | decoding hexadecimal text undoes encoding it |
| `Derivations.HexDecodes` | bch/egtx.go:28-33 | hexadecimal text decodes exactly when it is digits in pairs, in either case |
| `Derivations.ScriptRoundTrip` | bch/egtx.go:34-38 | reading a script gives back the elements printed into it, whatever push opcodes are used |
| `Derivations.OutcomeTable` | scanner/bch.go:203-255 | the outcome of every transaction in the order of the checks: four rejections, the panics, or a derivation |
| `Derivations.DerivedValues` | scanner/bch.go:225-251 | confirmations start at 0; outputs has one word, byte by byte, for each P2PKH or P2SH output and inputs one for each input, in order; sender and recipient are the first of them |
| `Derivations.DerivedTokens` | scanner/bch.go:229-257 | outputTokens has one entry, byte by byte, for each such output with well-formed token data and inputTokens for each such output spent, in order, and there are no others |
| `Derivations.DerivedPayload` | scanner/bch.go:252-257 | contract address, topics and data list come from the pushes after the flag, then from the later outputs |
| `Derivations.DataByOutput` | scanner/bch.go:236-242 | the data list grows, output by output, by exactly the pushes of each later OP_RETURN output that decodes |
| `TxBuilder.BuildEGTX` | cmd/txbuilder/main.go:163-201 | in wrapped 64-bit arithmetic, outputs plus fee equal the input exactly when the payment is not negative and the change does not overflow (or in one degenerate case); payment and change are positive; it fails exactly when the wrapped guard fails, the payee is missing or signing fails |
| `TxBuilder.ValueFromNowhere` | cmd/txbuilder/main.go:163-168 | a witness: a payment near 2^63 wraps the guard and is paid by a thousand satoshi |
| `TxBuilder.ScriptHex` | cmd/txbuilder/main.go:256-273 | the printed script carries the EGTX flag and pushes contract, payer, payee, file id and an empty element |
| `TxBuilder.ScannerReadsBuilder` | cmd/txbuilder/main.go:163-201 | every accepted transaction is derivable and gives back contract, three topics, no other data, sender, recipient, every output word and the input word |
| `TxBuilder.BuiltPanicsIff` | scanner/bch.go:328-344 | deriving a built transaction panics if and only if the output it spends cannot be read as P2PKH or P2SH |
| `Confirmations.Flip` | api/backend.go:73-75 | the two-index swap loop is a full reversal |
| `Confirmations.AskNode` | api/backend.go:100-105 | the confirmation lookup is for the very transaction id the log was derived from, and gives the node's count, or -1 when the node does not know it |
| `Confirmations.ConfirmationWord` | api/backend.go:106-109 | the word is the count, all ones exactly for -1 |
| `Confirmations.PatchIsReencode` | api/backend.go:97-112 | overwriting the first data word equals encoding again with the new count, so no other field changes |
| `Confirmations.RefreshLogs` | api/backend.go:97-112 | the in-place loop refreshes every log with a full first word and no other log |
| `Confirmations.RefreshTxs` | api/backend.go:68-84 | the nested loops do the same for every log of every transaction |
| `Confirmations.RefreshedMeans` | scanner/bch.go:315-326 | a refreshed log differs in the decoded count only: the node's count when it knows the transaction, and 2^256-1 exactly when it does not |
| `Scanner.MainForm` | scanner/bch.go:105-144 | the main-chain part takes, in order, exactly the derivable ids not stored yet from consecutive heights after the last scanned one |
| `Scanner.RoundForm` | scanner/bch.go:64-103 | a completed round collects those ids and then as many wanted mempool ids as fit, and positions are min(p, number of main-chain transactions) |
| `Scanner.RoundCache` | scanner/bch.go:296-309 | only collected or underivable ids with a successful lookup enter the cache, which never exceeds its limit plus one |
| `Scanner.CachesAgree` | scanner/bch.go:64-144 | two caches holding only stored or underivable ids, with any evictions, lead to the same transactions and scan height when both rounds complete |
| `Completion.CacheTransparent` | scanner/bch.go:64-144 | if a round completes with an empty cache, it completes with every such cache and any evictions, with the same transactions and scan height |
| `Completion.RoundPanicsIff` | scanner/bch.go:64-144 | with any cache a round panics only if, and with one that hides no panic if and only if, the block count is missing, a block it asks for is missing or holds a panic, or, while the batch is not full, the mempool is missing or an id it gets to panics |
| `Scanner.BatchBound` | scanner/bch.go:98-100 | a batch above the limit is all main-chain and below the limit without the last scanned block |
| `Origins.RoundOrigins` | scanner/bch.go:258-289 | every transaction of a round is the derivation of a raw transaction with its id from a block it scanned or the mempool: sender, recipient, contract address, topics and packed content |
| `Origins.RoundRemembers` | scanner/bch.go:296-309 | unless the batch fills up or the cache nears its limit, a round remembers every mempool id it looked up and forgets none |
| `Runs.RunKeepsInv` | chains/adapter.go:108-160 | every sequence of collecting, writing, crashing and recovering keeps the chain invariant |
| `Runs.DecimalInjective` | chains/adapter.go:124 | the decimal rendering in the hashed name distinguishes all heights |
| `Runs.BlockHashInjective` | chains/adapter.go:124 | different heights have different block hashes |
| `Runs.BlockHashText` | chains/adapter.go:124 | the hash of the block after height k is that of the text name:k, with k in decimal digits |
| `ChainTheorems.ExactlyOnce` | chains/adapter.go:122-157 | over every run with crashes and restarts, each derivable transaction up to the persisted scan height is stored, only derivable ones are, none is in two blocks, and each is there exactly once when the written rounds are clean |
| `ChainTheorems.StoredOnceIff` | scanner/bch.go:120-136 | over every run, nothing is stored twice if and only if in every written round the new derivable block ids are distinct and none is among the mempool ids that fit |
| `ChainTheorems.DistinctIsClean` | scanner/bch.go:124-135 | a round is clean when its fetched blocks and its mempool hold pairwise distinct ids |
| `ChainTheorems.CoveredServed` | scanner/bch.go:105-144 | every covered main-chain block was served, for its height, by the node of some round of the run |
| `ChainTheorems.RoundResumes` | scanner/bch.go:105-144 | a written round covers exactly the next heights, with the blocks the node served, and persists the last |
| `ChainTheorems.ScanNeverGoesBack` | store/store.go:148-171 | stored blocks never change and the persisted scan height never decreases |
| `ChainTheorems.ChainShape` | chains/adapter.go:122-157 | blocks are numbered 1..n with distinct hashes of the text name:number-1, carry the clock of their round, and hold exactly the new block ids and then the fitting mempool ids of their round; transactions and logs carry number and hash of their block, the position min(p, number of main-chain transactions) and what their raw transaction derives to |
| `ChainTheorems.StoredIsDerived` | scanner/bch.go:258-289 | every stored transaction of a run is the derivation of a raw transaction with its id that a node served to the round that wrote it |
| `ChainTheorems.WritesIff` | chains/adapter.go:126-129 | a completed round leads to a block if and only if it scanned or found something |
| `ChainTheorems.ParentOfSession` | chains/adapter.go:108-137 | the parent hash is the tip hash at the last recovery and names the previous block if and only if nothing was written since |
| `ChainTheorems.RecoveryResumes` | chains/adapter.go:108-120 | after a crash, recovery gives back the height and hash the process had, timestamp 0 once something is stored, and its scan height if and only if that is not 0, genesis is 0 or nothing is stored |
| `ChainTheorems.SeenTwiceStoredTwice` | scanner/bch.go:120-136 | any derivable transaction served in a block and in the mempool of one round is stored twice |
| `Restart.RestartTransparent` | chains/adapter.go:108-157 | inserting restarts and lost rounds, panicking ones included, anywhere leaves all blocks the same except their parent hashes, if the written rounds complete with an empty cache |
| `Restart.CacheHidesPanic` | scanner/bch.go:78-101 | a witness: a mempool id that panics is skipped by a process that has cached it and panics in a restarted one |
| `PanicLoop.NeverPasses` | scanner/bch.go:105-144 | while the node serves a block with a panicking transaction at the next height, no run of rounds, crashes and restarts scans past it or stores that transaction |
| `PanicLoop.NothingWritten` | scanner/bch.go:78-101 | while every node has a panicking id in its mempool that a scanning round gets to, scanning and mempool-only rounds all panic and no run writes a block |
| `PanicLoop.StuckIff` | scanner/bch.go:64-144 | after a crash, with an unchanging node that gives one transaction per id, no continuation moves the scan height if and only if there is no new block or the next scanning round panics; mempool rounds in between do not help |
| `PanicLoop.BchNeverPasses` | scanner/bch.go:328-344 | one EGTX transaction spending an output that is neither P2PKH nor P2SH stops the scan below its block |
| `PanicLoop.BchOneTx` | scanner/bch.go:196-257 | nodes whose blocks and lookups agree on inputs and outputs give one outcome per id, whatever the confirmations |
| `PanicLoop.BuiltJams` | scanner/bch.go:328-344 | a witness: a built transaction that spends such an output jams the block it is in |
| `Adapter.ChainLogDB.IsTxMined` | store/store.go:142-146 | true if and only if some stored block holds a transaction with this hash |
| `Adapter.ChainLogDB.AddBlock` | store/store.go:148-150 | appends one block |
| `Adapter.ChainLogDB.GetLatestBlockInfo` | store/store.go:156-171 | the tip's number, timestamp, hash and scan height, zeros and the clock for an empty store |
| `Adapter.BchScanner.AddKnownTx` | scanner/bch.go:296-304 | evicts one entry above the limit and adds the id |
| `Adapter.BchScanner.CollectMainChainBlockTxs` | scanner/bch.go:105-144 | the two loops compute the main-chain part and the new scan height, panicking exactly where the function does |
| `Adapter.BchScanner.CollectMempoolTxs` | scanner/bch.go:78-102 | the mempool loop computes the mempool part and the new cache |
| `Adapter.BchScanner.GetNewTxs` | scanner/bch.go:64-103 | the method refines the round function: transactions, scan height and cache |
| `Adapter.VirtualChain.RecoveryFromDB` | chains/adapter.go:108-120 | the memory after recovery is the state machine's recovered memory |
| `Adapter.VirtualChain.GenerateNewBlock` | chains/adapter.go:122-160 | the method is the state machine's collecting step and, when there is something to write, its committing step; a panic leaves the store unchanged; the feeds carry exactly the blocks written since recovery |
| `Adapter.VirtualChain.PublishNewBlock` | chains/adapter.go:174-183 | one header per block, and one batch of logs if the block has any |
| `Adapter.VirtualChain.Start` | chains/adapter.go:82-101 | a session, scanning in its first and every twelfth round, writes what the state machine writes for the same events after the earlier sessions, and its feeds carry exactly those blocks |
| `Adapter.SessionShape` | chains/adapter.go:90-100 | a session is a recovery and then rounds, of which the first and every twelfth after it scan |
| `Adapter.BchConsistent` | scanner/bch.go:196-257 | the EGTX derivation meets the assumption of the run theorems when an id names one list of outputs, whatever else the node reports |
| `Adapter.BchExactlyOnce` | scanner/bch.go:64-144 | exactly-once coverage with the EGTX rules in place of an abstract derivation |
| `Adapter.BchStored` | scanner/bch.go:196-294 | every stored transaction shows the EGTX derivation of a raw transaction with its id that a node gave out: sender, recipient, contract address, topics, and log data that decodes to the derived content |
| `Filters.Includes` | rpc/api/filters/geth_filter.go:29-37 | true if and only if the address is listed |
| `Filters.FilterFunc` | rpc/api/filters/geth_filter.go:39-60 | true if and only if address and every topic position match, empty lists being wildcards |
| `Filters.FilterLogs` | rpc/api/filters/geth_filter.go:63-78 | exactly the logs within the bounds that match, in order |
| `Filters.FilterConcat` | rpc/api/filters/geth_filter.go:63-78 | filtering batches and joining equals filtering the joined logs |
| `Filters.FilterPlaces` | rpc/api/filters/geth_filter.go:39-78 | a log comes right after the selected logs before it if it is within the bounds, its address is listed or none is, and each position with a list has one of its topics; any other log is left out |
| `Queries.GetLogsByBlockNumberRange` | rpc/api/filters/filter_api.go:302-322 | all logs of the closed height range in chain order, refreshed; an error exactly when a height the loop gets to does not decode, and otherwise when they exceed 2000 |
| `Queries.OneMoreHeight` | rpc/api/filters/filter_api.go:306-314 | the height loop adds exactly the transactions stored at each height |
| `Queries.FilterTx` | store/store.go:128-136 | with at most four topics the fixed topic array is never overrun and filters the same logs |
| `Queries.StoreQueryLogs` | store/store.go:111-140 | the matching logs of what the callback saw before it stopped, with the index's own error whatever stopped it |
| `Queries.SilentlyCutShort` | store/store.go:118-125 | a witness: whatever two transactions match, if the index hands out one entry, the answer is the logs of the first without an error |
| `Queries.AnsweredIff` | store/store.go:118-139 | the answer is the plain filter of the chain if and only if the range path gets to no height that does not decode, or the index does not fail and no candidate from the first one cut off on has a matching log; an error is reported exactly for such a height or such a failure |
| `Queries.EntriesShape` | store/store.go:118-122 | up to its limit the index hands over every candidate in order, and beyond it one mark |
| `Queries.PathsAgree` | rpc/api/filters/filter_api.go:289-300 | without addresses and topics both paths agree if and only if both report an error, or neither does, at most 2000 logs result and no log is cut off |
| `Queries.LatestAnswered` | rpc/api/filters/filter_api.go:263-287 | a query whose bounds are absent or negative answers with the matching logs of the last block |
| `Queries.HeightsAnswered` | rpc/api/filters/filter_api.go:263-287 | a query without a block hash answers with the matching logs from its lower to its upper bound, each standing for the newest block when absent or negative |
| `Queries.HashAnswered` | rpc/api/filters/filter_api.go:272-280 | a query with a block hash answers with the matching logs of that block, and fails exactly when no block has the hash |
| `Queries.ThinnedSame` | store/store.go:118-138 | an index that leaves out only transactions without matches changes nothing |
| `Queries.QueryLogs` | api/backend.go:92-114 | the matching logs with refreshed confirmations, or the index's error |
| `Queries.BlockByHash` | store/store.go:63-77 | the block with this hash, or none |
| `Queries.GetLogs` | rpc/api/filters/filter_api.go:259-300 | for heights below 2^32-1, both paths return the plain filter of the whole chain over the normalised range exactly for queries that are not cut off |
| `PushPull.PushPullAgree` | chains/adapter.go:174-183 | querying a block by hash or number returns what the event loop matches for subscribers when the block's logs arrive, except the first data word |
| `PushPull.RunsAreProper` | chains/adapter.go:122-157 | every chain a run leaves behind meets what the query theorems ask |
| `EventSystem.RunKeepsInv` | rpc/api/filters/geth_filter_system.go:444-503 | every interleaving keeps the subscription invariant |
| `EventTheorems.MatchedTogether` | rpc/api/filters/geth_filter_system.go:311-321 | matching event by event is filtering all handled logs at once |
| `EventTheorems.DeliveryConserved` | rpc/api/filters/filter_api.go:103-140 | for every live filter, past results, buffer, batch in hand and unsent matches concatenate to the filter over all events since install, without loss or duplicate |
| `EventTheorems.ClosedAtMostOnce` | rpc/api/filters/geth_filter_system.go:472-490 | the installed and err channels are closed at most once in every run |
| `EventTheorems.NoSendAfterReturn` | rpc/api/filters/geth_filter_system.go:156-178 | once Unsubscribe has returned, no continuation sends to that subscription again |
| `EventTheorems.SendCompletes` | rpc/api/filters/geth_filter_system.go:160-171 | a blocked send completes within four internal steps, through the reader or the draining unsubscriber |
| `EventTheorems.BroadcastEnds` | rpc/api/filters/geth_filter_system.go:311-321 | a broadcast that does not wait for a held mutex ends within a bounded number of internal steps |
| `EventTheorems.UnsubscribeFinishes` | rpc/api/filters/geth_filter_system.go:156-178 | unless the broadcast in progress waits for a mutex that is held, a pending Unsubscribe can finish within a bounded number of internal steps |
| `EventTheorems.UnsubscribeProgress` | rpc/api/filters/filter_api.go:186-199 | the same, with its bound, for every run without the timeout sweep |
| `EventTheorems.UnsubscribeFinishesIff` | rpc/api/filters/geth_filter_system.go:156-178 | in every state, a pending Unsubscribe can return if and only if its err channel is closed, or the loop has not stopped and is not deadlocked with the sweep, blocked on a receiver or about to be |
| `EventTheorems.StuckExactlyWhenDeadlocked` | rpc/api/filters/filter_api.go:71-88 | a blocked broadcast stays blocked in every continuation if and only if the sweep waits with the mutex for the loop while the receiver waits for the mutex |
| `EventTheorems.DeadlockReachable` | rpc/api/filters/filter_api.go:71-88 | a concrete run of two block filters and one sweep reaches that deadlock |
| `EndToEnd.HandledIsSuffix` | rpc/api/filters/geth_filter_system.go:444-480 | an installed subscription has been shown every event the loop has taken up since, in order |
| `EndToEnd.FilterSeesChain` | rpc/api/filters/filter_api.go:103-140 | in every interleaving, what a live log filter was and will be given is the filter over the blocks published since its installation, and a query for these blocks returns the same logs except the first data word |
| `EndToEnd.BlockFilterSeesChain` | rpc/api/filters/filter_api.go:142-184 | the same for block filters: their path is the hashes of the blocks published since installation |
| `EndToEnd.ProcessServes` | chains/adapter.go:82-101 | one process after any history of sessions: what its feeds carry reaches every live filter exactly, and queries over the same blocks agree |

## Left out

- Event system form: the event loop, goroutines and filters are modelled as steps on values, not as objects with methods; each critical section of `filtersMu` and each channel rendezvous is one step.
- Timers and deadlines of filters: which filter the sweep takes is left open, and `GetFilterChanges` resetting a timer is not modelled.
- `SubscribeLogs` checking the combination of bounds, `GetFilterLogs` and the RPC notifier's own connection handling.
- Buffered feeds between the virtual chain and the event loop: events arrive at the loop in an arbitrary order and number; only the theorems of `EndToEnd.dfy` ask that log batches and headers come in the order published.
- EventTheorems.UnsubscribeProgress: excludes the timeout sweep, because with it the claim is false as `DeadlockReachable` shows.
- Restart.RestartTransparent: written rounds that panic are excluded, because with them the claim is false as `CacheHidesPanic` shows.
- Queries.GetLogs: heights from 2^32-1 on are excluded, because the code truncates heights to 32 bits.
- TxBuilder.BuildEGTX: what a signature is, and address types other than P2PKH and P2SH, are not modelled.
- Adapter.VirtualChain.Start: waiting for the next tick and the check of the clock against the recovered timestamp, which is always 0, are not modelled.
- Floating-point amounts: satoshi are integers here.
- Address decoding, hashing, message marshalling, the on-disk index and the HTTP client: inputs or assumed contracts.
- RPC listeners, TLS, configuration and command-line flags: easy facts only.
