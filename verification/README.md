# ANYToken distribution: endpoint gateway, transaction builder and reward batch

This project models in Dafny the core of the ANYToken reward distributor.
That core is three pieces:

- **The API caller** (`callapi.APICaller`). It holds an ordered list of
  Ethereum-style RPC clients, a retry count and a retry interval.
  - Every RPC asks the clients in list order and keeps the first success.
  - When every client fails, the call returns the last client's error.
  - Balance and contract queries wrap this failover in a counted retry loop.
  - The contract queries build ABI call data (`packBytes`, 4-byte selectors)
    and decode the first 32-byte word of the answer.
- **The syncer's client list.** This is a second copy of the dial, close and
  failover loops, for headers, blocks and receipts.
- **The distributor.** It has two parts:
  - `BuildTxArgs` checks the sender against the keystore (with a dry-run
    escape). It fills the chain ID, nonce and gas price by retrying until
    each query succeeds, and defaults the gas limit to 90000. It builds,
    signs and submits 68-byte ERC-20 `transfer` transactions, reconciling
    the cached nonce with the live one.
  - The reward batch (`Option`) checks the ledger's title line and the
    sender's balance, writes the output title, then sends one transfer per
    positive ledger entry in order. It stops at the first failed send.

Endpoints are not computed. Each operation takes the replies the clients give
as parameters: one reply per client, in list order, and one such list per
retry attempt. This covers RPC results, dial errors, the keystore's outcome,
the signer's outcome and the outcome of each send. The things that change
in place are classes:

| class | updated in place |
|---|---|
| `APICaller` | its client list |
| `SyncClients` | its client list |
| `BuildTxArgs` | its nonce, gas parameters, chain ID and identity |
| `Option` | its `byWhat`, its total value and its output lines |
| `Gateway` | its reply streams and its log of accepted transactions |

`Gateway` is the distributor's view of the package-level API caller.

Modules:

| module | contents |
|---|---|
| `Wrappers` | `Option`, `Result`, and `Reply` (Go's `(value, err)` pair) |
| `Bytes` | byte strings, 20-byte addresses, big-endian values, left/right padding, `uint64` |
| `Abi` | selectors, `packBytes`, `balanceOf` call data, word decoding, the 68-byte transfer payload |
| `Hex` | hex address syntax, parsing, the lower-case `0x` text form, case-insensitive comparison |
| `Endpoints` | dialled clients, the dial, close, failover and counted-retry loops, and their laws |
| `CallApi` | the `APICaller` class |
| `Syncer` | the syncer's `SyncClients` list |
| `SendTx` | `BuildTxArgs`, the distributor's `Gateway`, the pure sender check, nonce arithmetic |
| `TitleLine` | comma split and join, `addTxHashFieldToTitleLine` and its read-back laws |
| `Batch` | the batch specification `Run`, its laws, and the `Option` class |

The batch is specified by the function `Batch.Run`. It gives the transfers,
the amount sent and the failing entry for a ledger and the send outcomes.
The method `Option.SendRewardsFromFile` is proved to produce exactly
`Run`'s transfers as output rows and `Run`'s total as the amount sent. The
lemmas about `Run` state what the distributor promises:

- only positive entries are sent;
- entries are sent in ledger order;
- nothing at or after a failure is attempted;
- the amount sent is the sum of the sent rewards;
- the run fails exactly at the first failed send.

Two consequences of the code are easy to miss, and the model states them:

- **The chain ID can stay nil.** With an empty client list `GetChainID`
  returns a nil value and a nil error. `setDefaults` takes that as a
  success, builds the signer for chain 0 and goes on with a nil chain ID.
  `SendTx.BuildTxArgs.SetDefaults` therefore promises that each nil
  parameter holds the value of the last reply consumed for it, which was a
  success. That value may be nil for the chain ID and the gas price, but
  not for the nonce.
- **A sender without `0x` never passes.** `common.IsHexAddress` accepts a
  sender with no `0x` prefix. `Address.String()` always has the prefix, so
  the case-insensitive comparison in `Check` then always fails. Lemma
  `SendTx.UnprefixedSenderNeverPasses` states this.

## Model

| member | source | states |
|---|---|---|
| Endpoints.DialAll | callapi/callapi.go:42-55 | one fresh client per URL in input order; stops at the first failing URL with its error, keeping the clients dialled before it and none for the failing URL |
| Endpoints.CloseAll | callapi/callapi.go:58-64 | every non-nil client of the list is closed; nil entries are skipped and nothing else changes |
| Endpoints.Client.Close | callapi/callapi.go:61 | closing a client marks it closed; closing twice is harmless |
| Endpoints.FirstSuccess | callapi/callapi.go:152-160 | the position of the first successful reply, all earlier replies failed, or the list length when none succeeds |
| Endpoints.CallInOrder | callapi/callapi.go:152-160 | the failover loop returns the first success in client order, else the last client's reply, else (no clients) the zero value with nil error; it asks exactly the clients up to the first success |
| Endpoints.FirstHealthyWins | callapi/callapi.go:152-160 | when client i is the first healthy one, its reply is returned and exactly i + 1 clients are asked |
| Endpoints.AllFailLastError | callapi/callapi.go:152-160 | when every client fails the last client's error is returned after asking all of them |
| Endpoints.FailoverIsSomeReply | callapi/callapi.go:152-160 | the result is one of the clients' replies (zero and nil with no clients), and it is a failure exactly when every client failed |
| Endpoints.RetryInOrder | callapi/callapi.go:67-79 | the counted retry loop is failover over the attempts' outcomes: first successful attempt, else the last attempt's reply; counts attempts and failed attempts |
| Endpoints.SucceedsOnAttempt | callapi/callapi.go:253-267 | when the first n - 1 attempts fail and the n-th succeeds, the n-th attempt's reply is returned after exactly n attempts |
| Endpoints.RetryBound | callapi/callapi.go:253-267 | at most retryCount attempts are made, and a failed retried call made all of them |
| CallApi.APICaller.Default | callapi/callapi.go:24-30 | a new caller has no clients, three attempts and a one-second interval |
| CallApi.APICaller.constructor | callapi/callapi.go:33-39 | a new caller has no clients and the given retry count and interval |
| CallApi.APICaller.DialServer | callapi/callapi.go:42-55 | clients are appended in URL order after the existing ones, each fresh and open and only for a URL whose dial succeeded; the first failed dial stops the loop, is the error, and its URL gets no client; success means every URL got a client |
| CallApi.APICaller.CloseClient | callapi/callapi.go:58-64 | every non-nil client is closed |
| CallApi.APICaller.BalanceAt | callapi/callapi.go:152-160 | the balance query's result is the failover of the clients' replies |
| CallApi.APICaller.GetAccountNonce | callapi/callapi.go:163-171 | the nonce query's result is the failover of the clients' replies |
| CallApi.APICaller.SendTransaction | callapi/callapi.go:174-182 | the transaction is offered to clients in order until one accepts; the error is the last client's when none does, nil with no clients |
| CallApi.APICaller.GetChainID | callapi/callapi.go:185-193 | the chain-ID query's result is the failover of the clients' replies |
| CallApi.APICaller.SuggestGasPrice | callapi/callapi.go:196-204 | the gas-price query's result is the failover of the clients' replies |
| CallApi.APICaller.SyncProgress | callapi/callapi.go:207-215 | the sync-state query's result is the failover of the clients' replies |
| CallApi.APICaller.DoCall | callapi/callapi.go:218-226 | the contract call's result is the failover of the clients' replies |
| CallApi.APICaller.HeaderByNumber | callapi/callapi.go:229-237 | the header query's result is the failover of the clients' replies |
| CallApi.APICaller.GetCoinBalance | callapi/callapi.go:67-79 | up to retryCount balance queries, stopping at the first success; a failure gives a nil balance and the last attempt's error; a retry count of zero or less gives nil and nil |
| CallApi.APICaller.CallContract | callapi/callapi.go:253-267 | the call message targets the contract with the given data; up to retryCount attempts, the first success or the last attempt's result; one sleep after every failed attempt |
| CallApi.APICaller.GetTokenTotalSupply | callapi/callapi.go:87-95 | calls `totalSupply()` (0x18160ddd) on the token; on success the supply is the number in word 0, on failure nil and the error |
| CallApi.APICaller.GetExchangeLiquidity | callapi/callapi.go:82-84 | the exchange's liquidity is the exchange contract's own total supply |
| CallApi.APICaller.GetTokenBalance | callapi/callapi.go:110-119 | calls the token with 36 bytes of data: `balanceOf` (0x70a08231) then the account right-aligned in a word; on success the balance is word 0 as a number |
| CallApi.APICaller.GetExchangeTokenBalance | callapi/callapi.go:122-124 | asks the token contract for the exchange's balance (the arguments swapped) |
| CallApi.APICaller.GetLiquidityBalance | callapi/callapi.go:127-129 | asks the exchange contract for the account's balance |
| CallApi.APICaller.GetExchangeTokenAddress | callapi/callapi.go:132-139 | calls `tokenAddress()` (0x9d76ea58); the zero address on failure, else bytes 12..32 of the zero-padded word 0 |
| CallApi.APICaller.GetExchangeFactoryAddress | callapi/callapi.go:142-149 | calls `factoryAddress()` (0x966dae0e); the zero address on failure, else bytes 12..32 of the zero-padded word 0 |
| CallApi.APICaller.GetErc20Name | callapi/callapi.go:270-276 | calls `name()` (0x06fdde03); the empty string and the error on failure, else the string decoder's result |
| CallApi.APICaller.GetErc20Symbol | callapi/callapi.go:279-285 | calls `symbol()` (0x95d89b41); the empty string and the error on failure, else the string decoder's result |
| CallApi.APICaller.GetErc20Decimals | callapi/callapi.go:288-294 | calls `decimals()` (0x313ce567); 0 and the error on failure, else the last byte of word 0 (the value truncated to 64 and then 8 bits) |
| CallApi.APICaller.GetErc20TotalSupply | callapi/callapi.go:297-303 | calls `totalSupply()` on the token; word 0 as a number on success, nil and the error on failure |
| CallApi.APICaller.GetSyncProgress | callapi/callapi.go:240-250 | repeats the sync query, sleeping once per failed round, and returns the first round's success; with finite rounds, reports not found when all fail |
| Syncer.SyncClients.DialServer | syncer/clients.go:18-30 | clients are appended in URL order, each fresh and open and only for a URL whose dial succeeded; the first failed dial stops the loop and is returned, and its URL gets no client |
| Syncer.SyncClients.CloseClient | syncer/clients.go:32-38 | every non-nil client is closed, nil entries skipped |
| Syncer.SyncClients.GetHeaderByNumber | syncer/clients.go:40-48 | the first client's success in list order, else the last client's error; nil and nil with no clients |
| Syncer.SyncClients.GetBlockByNumber | syncer/clients.go:50-58 | the first client's success in list order, else the last client's error; nil and nil with no clients |
| Syncer.SyncClients.GetTransactionReceipt | syncer/clients.go:60-68 | the first client's success in list order, else the last client's error; nil and nil with no clients |
| Abi.PackBytes | callapi/callapi.go:97-107 | no slices give the empty result; otherwise the result starts with the first slice verbatim |
| Abi.PaddedWordsLength | callapi/callapi.go:103-105 | every later slice of at most 32 bytes takes exactly one 32-byte word |
| Abi.PaddedWordAt | callapi/callapi.go:103-105 | word i after the first slice is slice i + 1 right-aligned behind zeros |
| Abi.PackBytesLength | callapi/callapi.go:97-107 | packed length is the first slice's length plus 32 per later slice |
| Abi.BalanceOfCall | callapi/callapi.go:111-112 | `balanceOf` call data is 36 bytes: the selector, 12 zero bytes, the 20-byte account |
| Abi.GetData | callapi/callapi.go:138 | the word read from the reply has the requested size; byte i is the reply's byte at start + i when present and zero past the reply's end |
| Abi.WordValue | callapi/callapi.go:94 | the number held in the first 32-byte word of a call result, big-endian, zero-padded when the result is short; `GetTokenTotalSupply` and `GetTokenBalance` return it |
| Abi.WordAddress | callapi/callapi.go:138 | the address decoded from a reply is bytes 12..32 of its first word |
| Abi.WordUint8 | callapi/callapi.go:293 | the 64-then-8-bit truncation of word 0 is its last byte |
| Abi.AddressWord | distributer/sendtx.go:149 | the recipient word is 12 zero bytes followed by the address |
| Abi.AmountWordValue | distributer/sendtx.go:150 | a reward below 2^256 survives minimal encoding, left-padding and the 32-byte copy unchanged |
| Abi.TransferPayload | distributer/sendtx.go:147-150 | the transfer payload is 68 bytes: selector 0xa9059cbb, the recipient word, and the reward as a 32-byte big-endian number (for rewards below 2^256) |
| Bytes.LeftPad | callapi/callapi.go:104 | padding to l bytes keeps longer inputs and otherwise puts zeros in front of the input to make exactly l bytes |
| Bytes.BytesToAddress | callapi/callapi.go:138 | an address is the last 20 bytes of a longer input and the input left-padded with zeros to 20 bytes otherwise |
| Bytes.MinimalBytesValue | distributer/sendtx.go:150 | the minimal big-endian bytes of a number below 256^k take at most k bytes and read back as the number |
| Bytes.LeftPadValue | distributer/sendtx.go:150 | left-padding with zeros does not change the big-endian value |
| Hex.AddressString | distributer/sendtx.go:60 | the text form of an address is 42 characters, `0x`-prefixed, and a valid hex address |
| Hex.IsHexAddress | distributer/sendtx.go:49 | a sender is a hex address when, after an optional `0x`/`0X` prefix, it has exactly 40 hex digits of either case |
| Hex.HexToAddress | distributer/sendtx.go:58 | a valid hex address decodes two digits per byte, high digit first; `AddressStringRoundTrip` and `PrefixedSenderMatches` state its relation to the text form |
| Hex.EqualFold | distributer/sendtx.go:64 | two strings are equal ignoring ASCII case: same length and equal character by character after lower-casing |
| Hex.AddressStringRoundTrip | distributer/sendtx.go:58-64 | parsing an address's text form gives the address back |
| Hex.PrefixedSenderMatches | distributer/sendtx.go:57-64 | a `0x`-prefixed hex sender equals, ignoring case, the text form of the address it parses to |
| Hex.UnprefixedSenderMismatches | distributer/sendtx.go:64-66 | a hex sender without `0x` never equals an address's text form, ignoring case |
| SendTx.Gateway.GetAccountNonce | callapi/callapi.go:163-171 | the nonce query consumes and returns the next scripted reply |
| SendTx.Gateway.GetChainID | distributer/sendtx.go:106 | the chain-ID query consumes the next scripted reply and returns it |
| SendTx.Gateway.SuggestGasPrice | distributer/sendtx.go:125 | the gas-price query consumes the next scripted reply and returns it |
| SendTx.Gateway.SendTransaction | callapi/callapi.go:174-182 | a submission consumes the next scripted outcome and is logged as accepted exactly when that outcome has no error |
| SendTx.Reconcile | distributer/sendtx.go:152-157 | the nonce used is at least the cached one; with a live nonce it is the larger of the two; on a failed live query it is the cached one |
| SendTx.NextNonce | distributer/sendtx.go:175 | the nonce advances by one, wrapping to 0 past the `uint64` maximum |
| SendTx.CheckIdentity | distributer/sendtx.go:49-66 | the sender check in source order: a malformed sender is refused first; a keystore failure is fatal outside dry run; in dry run the sender (or the from-address when empty) stands in; then the sender must equal the from-address's text ignoring case; the six lemmas below state its cases |
| SendTx.MalformedSenderRefusedFirst | distributer/sendtx.go:49-51 | a non-empty sender that is not a hex address is refused, whatever the keystore holds |
| SendTx.AcceptedSenderMatches | distributer/sendtx.go:64-66 | whenever the check passes, the sender equals the from-address's text ignoring case |
| SendTx.KeystoreFailureFatal | distributer/sendtx.go:52-56 | outside dry run a keystore failure is the check's error |
| SendTx.KeystoreWithoutSenderPasses | distributer/sendtx.go:52-66 | a readable keystore with no sender given passes; the key and its address are taken |
| SendTx.DryRunSenderStandsIn | distributer/sendtx.go:54-64 | in dry run with an unreadable keystore a `0x` sender passes and becomes the from-address; an unprefixed one is a sender mismatch |
| SendTx.UnprefixedSenderNeverPasses | distributer/sendtx.go:49-66 | a non-empty sender without `0x` never passes the check |
| SendTx.QueriedWhileNilTrans | distributer/sendtx.go:104-130 | the query-while-nil relation between a parameter and its replies composes across loop passes |
| SendTx.NonceQueriedWhileNilTrans | distributer/sendtx.go:114-121 | as above, for the nonce |
| SendTx.LastConsumedOkTrans | distributer/sendtx.go:104-130 | replies consumed before a parameter's last successful reply do not change which reply that was |
| SendTx.TrackedTrans | distributer/sendtx.go:104-130 | a parameter queried only while nil, and holding its last successful reply once set, stays so across loop passes |
| SendTx.NonceTrackedTrans | distributer/sendtx.go:114-121 | as above, for the nonce |
| SendTx.AskChainIDLaw | distributer/sendtx.go:105-112 | the chain-ID step asks only while the chain ID is nil; a success stores the reply and builds the signer from it, a failure consumes the reply and ends the pass; nonce, gas price and their replies are untouched |
| SendTx.AskNonceLaw | distributer/sendtx.go:114-122 | the nonce step asks only while the nonce is nil; a success sets it, a failure consumes the reply and ends the pass; chain ID, signer, gas price and their replies are untouched |
| SendTx.AskGasPriceLaw | distributer/sendtx.go:124-130 | the gas-price step asks only while the gas price is nil; a success stores the reply, a failure consumes it and ends the pass; chain ID, signer, nonce and their replies are untouched |
| SendTx.AskRestLaw | distributer/sendtx.go:114-130 | the nonce step followed by the gas-price step keeps the loop invariant; when both complete the nonce is set and a nil gas price holds the reply just consumed; chain ID and signer are untouched |
| SendTx.PassLaw | distributer/sendtx.go:104-136 | every pass of the loop keeps supplied values and their replies untouched; `Retry` consumes a reply; `Exhausted` leaves a nil parameter without replies; `Done` leaves the nonce set and each nil parameter holding the successful reply just consumed, with the signer built from the chain ID |
| SendTx.ProgressTrans | distributer/sendtx.go:104-136 | the loop invariant composes across passes |
| SendTx.FinishedTrans | distributer/sendtx.go:104-136 | the pass that completes leaves every parameter that was nil at the start of the loop holding its last consumed reply, a success |
| SendTx.AskChainID | distributer/sendtx.go:105-112 | the chain-ID step: skipped when set; with no reply left the pass is exhausted; a failure consumes the reply and retries; a success stores the value and builds the signer from it (`AskChainIDLaw`) |
| SendTx.AskRest | distributer/sendtx.go:114-130 | the nonce step and then, if it completed, the gas-price step, each with the chain-ID step's shape (`AskRestLaw`) |
| SendTx.Pass | distributer/sendtx.go:104-137 | one iteration of the `setDefaults` loop on values: the chain-ID step, then the rest, stopping at the first step that does not complete (`PassLaw`) |
| SendTx.Resolve | distributer/sendtx.go:104-137 | the whole `setDefaults` loop on values: passes repeat while one retries, ending with the parameters, the replies left and whether all were filled (`ResolveLaw`) |
| SendTx.BuildTxArgs.constructor | distributer/sendtx.go:21-35 | the arguments start with the given sender, nonce and gas values and nothing resolved |
| SendTx.BuildTxArgs.Check | distributer/sendtx.go:48-70 | the identity fields and error are those of the sender check; an error leaves the parameters and the gateway untouched; on success the sender matches the from-address and the parameters, the replies left and the outcome are exactly `Resolve` of the values and replies on entry |
| SendTx.BuildTxArgs.SetDefaults | distributer/sendtx.go:101-139 | the parameters, the replies left and the outcome are exactly `Resolve` of those on entry, so `ResolveLaw` holds of them; the gas limit defaults to 90000 once resolved and is otherwise kept |
| SendTx.ResolveLaw | distributer/sendtx.go:101-139 | repeating passes while one ends in `Retry`: chain ID, nonce and gas price are queried only while nil and never overwritten; each set value is the first non-nil success among its replies; once resolved, every parameter that was nil was queried until a query succeeded and holds that last reply's value, the nonce is set and the signer is built from the chain ID; unresolved means a nil parameter ran out of replies |
| SendTx.BuildTxArgs.DefaultsRound | distributer/sendtx.go:104-136 | one loop pass queries each nil parameter in turn and ends at the first failed query; the parameters, the replies left and the round are exactly `Pass` of those on entry, so `PassLaw` holds of them |
| SendTx.BuildTxArgs.QueryChainID | distributer/sendtx.go:105-111 | one chain-ID query stores the reply's value even on error and builds the signer only on success |
| SendTx.BuildTxArgs.QueryNonce | distributer/sendtx.go:114-121 | one nonce query sets the nonce only on success |
| SendTx.BuildTxArgs.QueryGasPrice | distributer/sendtx.go:124-129 | one gas-price query stores the reply's value even on error |
| SendTx.BuildTxArgs.SendRewardsTransaction | distributer/sendtx.go:141-181 | dry run asks nothing and changes nothing; otherwise the live nonce is reconciled, a transfer of the payload to the token with value 0 is signed and submitted once; only an accepted submission returns its hash and advances the nonce by exactly one |
| TitleLine.LastCommaIndex | distributer/sendtx.go:184 | the last comma's position, with no comma after it, or -1 when there is none |
| TitleLine.SplitCommas | distributer/sendtx.go:184 | the fields of a line cut at every comma, always at least one; `SplitJoin` shows it inverts `JoinCommas` on comma-free fields |
| TitleLine.JoinCommas | distributer/sendtx.go:189 | the fields joined with single commas, empty for no fields; `JoinOneMore` and `JoinTwoMore` state how it grows |
| TitleLine.SplitJoin | distributer/sendtx.go:189 | splitting comma-joined, comma-free fields gives the fields back |
| TitleLine.JoinOneMore | distributer/sendtx.go:189 | joining fields with one more appended adds a comma and that field |
| TitleLine.JoinTwoMore | distributer/sendtx.go:189-191 | joining the fields before the last, then `,txhash,` and the last field, is the join of the fields with `txhash` inserted before the last |
| TitleLine.TxHashBeforeLastField | distributer/sendtx.go:183-193 | with two or more fields the new title reads back as the old fields with `txhash` inserted before the last |
| TitleLine.TxHashAppendedToSingleField | distributer/sendtx.go:183-187 | with at most one field the new title reads back as the title followed by `txhash` |
| TitleLine.AddTxHashField | distributer/sendtx.go:183-193 | `,txhash` is appended to a title with at most one field; otherwise `txhash` goes in as a new field before the last (`TxHashBeforeLastField`, `TxHashAppendedToSingleField`) |
| Batch.PositionsArePositiveEntries | distributer/sendtx.go:271-276 | the positions of the positive entries: increasing, each positive, and every positive entry included |
| Batch.Run | distributer/sendtx.go:271-292 | the send loop on values: entries in ledger order, non-positive rewards skipped, each positive one sent and recorded with its hash and added to the total, the first failed send stopping the run; the Run lemmas below state its properties |
| Batch.RunRowsMatchEntries | distributer/sendtx.go:271-291 | every transfer carries its own ledger entry and the hash that entry's send returned |
| Batch.RunSendsPositiveEntries | distributer/sendtx.go:271-281 | the transfers are exactly the positive entries before the stopping point, in ledger order |
| Batch.RunTotalIsSumOfSent | distributer/sendtx.go:285 | the amount sent is the sum of the transferred rewards |
| Batch.RunFailsAtFirstFailedSend | distributer/sendtx.go:277-281 | the run fails exactly when some positive entry's send fails, at the first such entry, with every earlier positive entry sent |
| Batch.FailureEndsRun | distributer/sendtx.go:277-281 | once a prefix has failed, later entries never change the outcome |
| Batch.SkipsNonPositiveRewards | distributer/sendtx.go:274-277 | rewards 0, 5, -1 send one transfer, of 5, and total 5 |
| Batch.ThirdFailureKeepsTwo | distributer/sendtx.go:277-281 | five positive entries whose third send fails leave two transfers and a failure at entry 2 |
| Batch.Option.CheckTitleLine | distributer/sendtx.go:195-213 | a title is accepted exactly when it is a comment with at least five fields whose third sets an empty `byWhat` or matches the chosen one; the new `byWhat` follows |
| Batch.Option.CheckSendRewardsFromFile | distributer/sendtx.go:215-259 | checks in order: input file, ledger, empty ledger (no-op success), title, total value then balance, database; a refused title keeps `byWhat` and the total value; the batch may start exactly when every check passes, and only then is its title written (original, with `txhash`, or three-column) |
| Batch.Option.SendRewardsFromFile | distributer/sendtx.go:262-296 | an empty ledger is a success that sends nothing and keeps `byWhat` and the total value; the batch starts exactly when every check passes; then the amount sent and the rows written are those of `Run`, and the batch fails exactly when `Run` does |

## Left out

- Network I/O, the RPC client library and the `context` are not modelled. Each endpoint's answer is a parameter. Block numbers, accounts and contexts only select those answers, so they do not appear.
- `LoopGetLatestBlockHeader`, started at the end of `DialServer`, is not part of this model. It is a background goroutine.
- Sleeps are not modelled. `CallContract` and `GetSyncProgress` count the sleeps they would take, without the duration.
- CallApi.APICaller.GetSyncProgress: the source retries forever. The model takes a finite list of rounds and reports "not found" when all fail.
- SendTx.BuildTxArgs.SetDefaults: the source retries forever. The model consumes finite reply streams and reports "not resolved" when they run out where the source would keep asking.
- Keystore reading, password files and decryption are reduced to the keystore's outcome, a key or an error. On a decrypt failure the source also sets the key to nil; the model leaves the key as it was.
- Transaction signing and hashing are the signer's outcome, a parameter. The EIP-155 signer is reduced to its chain ID.
- The dry-run branch at distributer/sendtx.go:161-164 is not modelled. It cannot be reached, because dry run returns at line 142.
- Hex.AddressString: the lower-case text form stands in for go-ethereum's EIP-55 mixed-case checksum form. Because the comparison ignores case, this changes no outcome of `Check`.
- Hex.EqualFold: Unicode case folding is reduced to ASCII folding. Hex addresses are ASCII.
- The string decoder `UnpackABIEncodedStringInIndex`, the ledger reader, `WriteOutput`, `CalcTotalReward`, `CheckSenderRewardTokenBalance`, `CheckBasic`, `SetByWhat`, `GetStandardByWhat`, `isCommentedLine` and the blank-or-comma splitter are not part of this model. They are taken as given functions or outcomes.
- Batch.Option.CheckTitleLine: when `SetByWhat` fails, the model keeps the previous `byWhat`.
- The `txhash` read-back lemmas split on commas only. The source's splitter also splits on blanks; the lemmas assume fields without commas.
- `deinit` (deferred in `SendRewardsFromFile`), logging, the database and the output file's encoding are left out. Output is a list of lines.
- `GetSender` and `GetChainID` on `BuildTxArgs` are plain field reads and are not modelled separately.
