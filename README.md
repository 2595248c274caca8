# Benchmark transaction generator, modelled in Dafny

The Libra benchmarker drives a network with load produced by a *load
generator*. A generator creates accounts from a wallet, produces setup
transactions (minting coins from a faucet to the accounts), and then produces
the load of each round as a list of load requests. A load request is either a
write (a signed transaction submitted to admission control) or a read (a
ledger query). This project models `benchmark/src/txn_generator.rs`:

- the account helpers: `gen_next_account` and `gen_accounts_from_wallet`;
- the request helpers: `gen_submit_transaction_request`, `gen_mint_txn_request`,
  `gen_transfer_txn_request`, `gen_mint_txn_requests` and
  `convert_load_to_txn_requests`;
- the three generators: `RingTransferTxnGenerator` (account i pays account
  (i+1) mod N one coin), `PairwiseTransferTxnGenerator` (every account pays
  every account one coin, itself included) and `AccountStorm` (N genesis
  accounts each pay FREE_LUNCH/N coins to N fresh round-1 accounts).

How the model is built:

- `AccountData` is a value. A Rust `&mut AccountData` parameter becomes an
  account passed in plus the updated account returned.
- The wallet is a class with a child-key counter. Addresses are counter
  values, so the wallet never hands out an address twice. Signing is an
  oracle `Signer = RawTxn -> bool` that either succeeds or fails on each raw
  transaction. A faucet key pair is modelled by the signer it provides.
- The process-wide `OP_COUNTER` becomes an `OpCounter` object that each
  generating method receives and updates (`requested`, `created`,
  `signFailed`).
- Each generator is a class with the source's fields. Its methods are proved
  against pure specification functions:
  - `Submit` is one generation attempt.
  - `SubmitAll` is one sender running a batch of programs in order, with
    failed attempts dropped.
  - `RunPlans` is a round where sender i runs its own batch, senders in
    order.
- The ring, pairwise and storm rounds are instances of `RunPlans`. The lemmas
  state what each round contains.
- Panics in the source become preconditions where the caller can rule them
  out: `rotate_left(1)` on no accounts, `step_by(0)`, division by zero, an
  empty `round_accounts`, and a faucet without a key pair. The failed mint
  `expect` in `gen_mint_txn_requests` becomes an `Err` result that names the
  transaction that could not be signed.

Files: `types.dfy` (values), `seqs.dfy` (rotate, step-by, chunks, flatten),
`wallet.dfy`, `metrics.dfy`, `txn_generator.dfy` (helpers), `generators.dfy`
(the three generators).

## Model

| member | source | states |
|---|---|---|
| Wallets.Wallet.NewAddress | benchmark/src/txn_generator.rs:60-62 | the address returned is the wallet's next child index, and the index advances by one, so no address is returned twice |
| TxnGenerator.NewAccounts | benchmark/src/txn_generator.rs:71-76 | n accounts, each with sequence number 0, no key pair and status Local; their addresses are new (in [start, start+n)) and strictly increasing, so pairwise distinct |
| TxnGenerator.GenNextAccount | benchmark/src/txn_generator.rs:58-69 | the account at the wallet's next address, with no key pair, sequence number 0 and status Local; the wallet advances by one |
| TxnGenerator.GenAccountsFromWallet | benchmark/src/txn_generator.rs:71-76 | exactly the n fresh accounts `NewAccounts` describes, drawn from the wallet's next child index; the wallet advances by n |
| TxnGenerator.Submit | benchmark/src/txn_generator.rs:82-109 | the attempt succeeds iff signing succeeds; on success the write request carries the sender's current sequence number and the sender's number goes up by one; on failure the signing error is returned and the sender is unchanged |
| TxnGenerator.GenSubmitTransactionRequest | benchmark/src/txn_generator.rs:82-109 | outcome and updated sender are those of `Submit`; requested grows by one, and exactly one of created / sign-failed grows by one according to the outcome; requested = created + sign-failed is preserved |
| TxnGenerator.GenMintTxnRequest | benchmark/src/txn_generator.rs:111-123 | a `Submit` of a mint of FREE_LUNCH coins to the receiver, signed with the faucet's key pair, whose presence is required |
| TxnGenerator.GenTransferTxnRequest | benchmark/src/txn_generator.rs:125-134 | a `Submit` of a transfer of the given coins to the receiver, signed by the wallet |
| TxnGenerator.SubmitAll | benchmark/src/txn_generator.rs:265-277 | a sender running a batch emits at most one request per program, and its sequence number grows by exactly the number of requests emitted |
| TxnGenerator.SubmitAllNoGaps | benchmark/src/txn_generator.rs:88-106 | request k of a batch is the sender's transaction numbered seqNum + k, with no gap where attempts failed, and runs one of the batch's programs |
| TxnGenerator.SubmitAllCount | benchmark/src/txn_generator.rs:88-108 | a batch emits one request per program iff every signing succeeds |
| TxnGenerator.SubmitAllExact | benchmark/src/txn_generator.rs:88-108 | when every signing succeeds, request k is program k signed by the sender at seqNum + k |
| TxnGenerator.GenTransfers | benchmark/src/txn_generator.rs:266-276 | one sender's transfers to each receiver in turn are exactly the `SubmitAll` batch; requested grows by the number of receivers, created by the number of requests, sign-failed by the rest |
| TxnGenerator.GenMintTxnRequests | benchmark/src/txn_generator.rs:136-148 | the result is Ok iff every mint signs; when Ok, the requests and the faucet are the `SubmitAll` batch of one FREE_LUNCH mint per account; the counters grow by one request and one creation per account; a failure counts one sign failure |
| TxnGenerator.MintRequestsShape | benchmark/src/txn_generator.rs:136-148 | when every mint signs: one request per account, in account order, request i minting FREE_LUNCH to account i at faucet sequence number seqNum + i, and the faucet advances by the number of accounts |
| TxnGenerator.ConvertLoadToTxnRequests | benchmark/src/txn_generator.rs:153-160 | the output is no longer than the input; every output element is the payload of a write request of the input; nothing is dropped iff every request is a write |
| TxnGenerator.ConvertAppend | benchmark/src/txn_generator.rs:153-160 | conversion distributes over concatenation, so the write payloads keep their order |
| TxnGenerator.ConvertOfWrites | benchmark/src/txn_generator.rs:153-160 | wrapping submissions as write requests and converting them back returns them unchanged |
| TxnGenerator.ConvertOfReads | benchmark/src/txn_generator.rs:153-160 | read requests contribute nothing |
| Seqs.RotateLeft | benchmark/src/txn_generator.rs:205 | `rotate_left(mid)`: position i holds element i + mid, wrapping around to the front; length unchanged |
| Seqs.RotateLeftInverse | benchmark/src/txn_generator.rs:205 | rotating left by mid and then by len - mid restores the sequence |
| Seqs.StepBy | benchmark/src/txn_generator.rs:331-334 | `step_by(k)` keeps the first element and is no longer than its input |
| Seqs.StepByAt | benchmark/src/txn_generator.rs:331-334 | sample i of `step_by(k)` is input element i*k |
| Seqs.Chunks | benchmark/src/txn_generator.rs:357 | `chunks(k)` pieces concatenate back to the input; every piece is non-empty and at most k long, and all but the last are exactly k long |
| Seqs.ChunksUniformLength | benchmark/src/txn_generator.rs:357 | n*k elements split into exactly n chunks of length k |
| Seqs.ChunkAt | benchmark/src/txn_generator.rs:357 | with n*k elements, element j of chunk i is input element i*k + j |
| Seqs.StepByChunkHeads | benchmark/src/txn_generator.rs:329-334 | the `step_by(k)` samples are the first elements of the `chunks(k)`, one per group |
| LoadGenerators.RunPlansSenders | benchmark/src/txn_generator.rs:265-277 | after a round, sender i is exactly as its own batch left it |
| LoadGenerators.RunPlansBlocks | benchmark/src/txn_generator.rs:264-278 | a round's requests are the senders' batches concatenated in sender order |
| LoadGenerators.RunPlansAllSign | benchmark/src/txn_generator.rs:264-278 | when every plan has m programs and all sign, the round has n*m requests, request i*m + j is sender i's program j at seqNum + j, and every sender advances by m |
| LoadGenerators.Succ | benchmark/src/txn_generator.rs:205 | the ring successor of index i is (i + 1) mod N |
| LoadGenerators.RingPlanAt | benchmark/src/txn_generator.rs:200-212 | sender i's ring plan is one transfer of one coin to account (i+1) mod N |
| LoadGenerators.RingRoundSenders | benchmark/src/txn_generator.rs:208-219 | after a ring round, sender i has advanced by one iff its transfer signed, and is unchanged otherwise |
| LoadGenerators.RingRoundRequests | benchmark/src/txn_generator.rs:200-220 | the ring round's requests are, in sender order, sender i's one-coin transfer to account (i+1) mod N where that signing succeeds; a failed signing contributes nothing |
| LoadGenerators.RingRoundAllSign | benchmark/src/txn_generator.rs:166-168 | when every ring transfer signs, the round is A1->A2, ..., AN->A1, one coin each, in sender order, N requests |
| LoadGenerators.RingTransferTxnGenerator.constructor | benchmark/src/txn_generator.rs:175-183 | a new wallet signing with `signer`, at child index 0, and no accounts |
| LoadGenerators.RingTransferTxnGenerator.GenAccounts | benchmark/src/txn_generator.rs:186-190 | the accounts are replaced by n fresh accounts from the wallet and returned |
| LoadGenerators.RingTransferTxnGenerator.GenSetupTxnRequests | benchmark/src/txn_generator.rs:195-197 | the mints of `GenMintTxnRequests` for the stored accounts: Ok iff every mint signs, then the `SubmitAll` batch of one FREE_LUNCH mint per account; requested and created grow by the number of accounts and sign-failed is unchanged; on `Err`, one sign failure is counted and requested grows by created plus one |
| LoadGenerators.RingTransferTxnGenerator.GenRoundLoad | benchmark/src/txn_generator.rs:199-221 | the requests and the updated accounts are the ring round of the old accounts; requested grows by N, created by the number of requests, sign-failed by the rest; requires at least one account |
| LoadGenerators.PairwisePlanAt | benchmark/src/txn_generator.rs:259-266 | every sender's pairwise plan has N transfers, transfer j paying account j one coin |
| LoadGenerators.PairwiseRoundNoGaps | benchmark/src/txn_generator.rs:264-278 | the pairwise round is the senders' blocks in sender order; within sender i's block the transactions are numbered consecutively from its sequence number, with no gap, and the sender advances by the block's length |
| LoadGenerators.PairwiseRoundAllSign | benchmark/src/txn_generator.rs:224-226 | when every transfer signs, the round has N*N requests, request i*N + j is account i paying account j one coin at seqNum + j (self transfers included), and every sender advances by N |
| LoadGenerators.PairwiseTransferTxnGenerator.constructor | benchmark/src/txn_generator.rs:233-241 | a new wallet signing with `signer`, at child index 0, and no accounts |
| LoadGenerators.PairwiseTransferTxnGenerator.GenAccounts | benchmark/src/txn_generator.rs:244-248 | the accounts are replaced by n fresh accounts from the wallet and returned |
| LoadGenerators.PairwiseTransferTxnGenerator.GenSetupTxnRequests | benchmark/src/txn_generator.rs:254-256 | the mints of `GenMintTxnRequests` for the stored accounts: Ok iff every mint signs, then the `SubmitAll` batch of one FREE_LUNCH mint per account; requested and created grow by the number of accounts and sign-failed is unchanged; on `Err`, one sign failure is counted and requested grows by created plus one |
| LoadGenerators.PairwiseTransferTxnGenerator.GenRoundLoad | benchmark/src/txn_generator.rs:258-279 | the requests and the updated accounts are the pairwise round of the old accounts; requested grows by N*N, created by the number of requests, sign-failed by the rest |
| LoadGenerators.StormTransferAmount | benchmark/src/txn_generator.rs:354 | the split amount r satisfies r*N <= FREE_LUNCH < (r+1)*N, so N transfers never overspend FREE_LUNCH |
| LoadGenerators.StormWidth | benchmark/src/txn_generator.rs:355-357 | `zip` pairs as many genesis accounts with chunks as the shorter of the two |
| LoadGenerators.StormRound | benchmark/src/txn_generator.rs:348-351 | rounds numbered above 1 produce no requests; rounds 0 and 1 both produce the same load, built from `round_accounts[0]` |
| LoadGenerators.StormPlanAt | benchmark/src/txn_generator.rs:357-368 | with N*N round-1 addresses, genesis account a's plan has N transfers, the b-th paying round-1 address a*N + b the split amount |
| LoadGenerators.StormRoundFull | benchmark/src/txn_generator.rs:355-357 | with N genesis accounts and N*N round-1 addresses, all N genesis accounts send, each over one full chunk |
| LoadGenerators.StormRoundAllSign | benchmark/src/txn_generator.rs:345-372 | when every transfer signs, round 0 or 1 has N*N requests, and request i*N + j is genesis account i's transaction numbered j from a fresh sequence number 0, paying the split amount to round-1 address i*N + j |
| LoadGenerators.StormSamples | benchmark/src/txn_generator.rs:329-334 | after `gen_accounts(N)` exactly N round-1 accounts are sampled, sample i being round-1 account i*N, the first of group i |
| LoadGenerators.AccountStorm.constructor | benchmark/src/txn_generator.rs:290-300 | a new wallet signing with `signer`, at child index 0, zero accounts and empty lists |
| LoadGenerators.AccountStorm.GenAccounts | benchmark/src/txn_generator.rs:304-337 | N is stored; the genesis accounts are N fresh accounts; the N*N round-1 addresses that follow are appended to the round accounts; the sampled accounts are every N-th round-1 account; the wallet advances by N + N*N; requires N > 0 |
| LoadGenerators.AccountStorm.GenSetupTxnRequests | benchmark/src/txn_generator.rs:341-343 | the mints of `GenMintTxnRequests` for the genesis accounts: Ok iff every mint signs, then the `SubmitAll` batch of one FREE_LUNCH mint per genesis account; requested and created grow by the number of genesis accounts and sign-failed is unchanged; on `Err`, one sign failure is counted and requested grows by created plus one |
| LoadGenerators.AccountStorm.GenRoundLoad | benchmark/src/txn_generator.rs:345-372 | the requests are `StormRound` of the stored state; only the counters change, so the genesis accounts are untouched; created grows by the number of requests and requested by created plus sign-failed |

## Left out

- state_synchronizer/src/synchronizer.rs is not part of this model: it is runtime and channel plumbing outside the generator.
- The `LoadGenerator` trait is not declared as such. The three classes implement its methods under the same names.
- `mut_accounts` only exposes a field by mutable reference. The classes' fields are public in the model, so it has no member of its own.
- `WalletLibrary::new()` draws a random mnemonic. The generators' constructors take a `signer` parameter instead, which stands for the keys of that random wallet.
- Key derivation and signing cryptography are not modelled. Signing is an oracle that succeeds or fails on each raw transaction. A wallet address is its child index.
- `new_address` is treated as never failing, so the wallet's `expect` has no counterpart.
- Move program encoding and protobuf conversion are not modelled. A program is a `Mint` or `Transfer` value, and a signed transaction carries its raw transaction.
- MAX_GAS_AMOUNT, GAS_UNIT_PRICE and TXN_EXPIRATION are constants handed to the signer, and they are not part of a raw transaction here.
- `error!` logging of failed generations is not modelled. Those failures are dropped, as in the source.
- Integers are unbounded. The model does not cover u64 overflow of sequence numbers or of `num_accounts * num_accounts`, or truncation in `as usize`.
- The global `OP_COUNTER` is an `OpCounter` object passed to each generating method.
- TxnGenerator.GenMintTxnRequests: a failed mint signing panics in the source. Here it returns `Err`, and on that path only the counters are promised, not the faucet or the partial requests.
- LoadGenerators.AccountStorm.GenRoundLoad: the counters are only promised to stay balanced (requested grows by created plus sign-failed). The exact number of attempts is not stated.
- The `round` argument is ignored by the ring and pairwise generators, as in the source.
- `AccountStorm.gen_round_load` always reads `round_accounts[0]`, even after repeated `gen_accounts` calls. The model does the same.
