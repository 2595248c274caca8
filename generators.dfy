/** The three load generators: a ring of transfers, pairwise transfers, and
    the account storm. Each round is an instance of one scheme: sender i runs
    its own plan of programs in order, failed attempts dropped. */
module LoadGenerators {
  import opened TxnTypes
  import opened Seqs
  import opened Wallets
  import opened Metrics
  import opened TxnGenerator

  // ------------------------------------------------------------------
  // Rounds: every sender runs its plan
  // ------------------------------------------------------------------

  /** The requests of a round, and every sender as it is afterwards. */
  datatype Round = Round(requests: seq<LoadRequest>, senders: seq<AccountData>)

  /** Sender i runs plans[i] through `SubmitAll`, senders in order; the
      requests are collected in that order. */
  function RunPlans(senders: seq<AccountData>, plans: seq<seq<Program>>, signer: Signer): (r: Round)
    requires |senders| == |plans|
    ensures |r.senders| == |senders|
    decreases |senders|
  {
    if senders == [] then Round([], [])
    else
      var n := |senders|;
      var prev := RunPlans(senders[..n - 1], plans[..n - 1], signer);
      var b := SubmitAll(plans[n - 1], senders[n - 1], signer);
      Round(prev.requests + b.requests, prev.senders + [b.sender])
  }

  /** Running one more sender extends the round by that sender's batch. */
  lemma RunPlansStep(senders: seq<AccountData>, plans: seq<seq<Program>>, signer: Signer, i: nat)
    requires |senders| == |plans| && i < |senders|
    ensures RunPlans(senders[..i + 1], plans[..i + 1], signer) ==
      Round(RunPlans(senders[..i], plans[..i], signer).requests + SubmitAll(plans[i], senders[i], signer).requests,
            RunPlans(senders[..i], plans[..i], signer).senders + [SubmitAll(plans[i], senders[i], signer).sender])
  {
    assert senders[..i + 1][..i] == senders[..i];
    assert plans[..i + 1][..i] == plans[..i];
  }

  /** After a round, sender i is as its own batch left it. */
  lemma {:induction false} RunPlansSenders(senders: seq<AccountData>, plans: seq<seq<Program>>, signer: Signer, i: nat)
    requires |senders| == |plans| && i < |senders|
    ensures RunPlans(senders, plans, signer).senders[i] == SubmitAll(plans[i], senders[i], signer).sender
    decreases |senders|
  {
    var n := |senders|;
    if i < n - 1 {
      RunPlansSenders(senders[..n - 1], plans[..n - 1], signer, i);
    }
  }

  /** The requests each sender contributes, one block per sender. */
  function Blocks(senders: seq<AccountData>, plans: seq<seq<Program>>, signer: Signer): (bs: seq<seq<LoadRequest>>)
    requires |senders| == |plans|
    ensures |bs| == |senders|
  {
    seq(|senders|, i requires 0 <= i < |senders| => SubmitAll(plans[i], senders[i], signer).requests)
  }

  /** A round's requests are the senders' blocks concatenated in sender order. */
  lemma {:induction false} RunPlansBlocks(senders: seq<AccountData>, plans: seq<seq<Program>>, signer: Signer)
    requires |senders| == |plans|
    ensures RunPlans(senders, plans, signer).requests == Flatten(Blocks(senders, plans, signer))
    decreases |senders|
  {
    if senders != [] {
      var n := |senders|;
      RunPlansBlocks(senders[..n - 1], plans[..n - 1], signer);
      var bs := Blocks(senders, plans, signer);
      assert Blocks(senders[..n - 1], plans[..n - 1], signer) == bs[..n - 1];
      assert bs == bs[..n - 1] + [bs[n - 1]];
      FlattenAppend(bs[..n - 1], bs[n - 1]);
    }
  }

  /** When every plan has m programs and every signing succeeds, every sender's
      block has m requests. */
  lemma BlocksUniform(senders: seq<AccountData>, plans: seq<seq<Program>>, signer: Signer, m: nat)
    requires |senders| == |plans|
    requires forall k :: 0 <= k < |plans| ==> |plans[k]| == m
    requires forall k :: 0 <= k < |plans| ==> AllSign(plans[k], senders[k], signer)
    ensures forall k :: 0 <= k < |senders| ==> |Blocks(senders, plans, signer)[k]| == m
  {
    forall k | 0 <= k < |senders|
      ensures |Blocks(senders, plans, signer)[k]| == m
    {
      SubmitAllCount(plans[k], senders[k], signer);
    }
  }

  /** When sender i's plan all signs, its block's j-th request is its j-th
      program at its sequence number plus j. */
  lemma BlockAt(senders: seq<AccountData>, plans: seq<seq<Program>>, signer: Signer, i: nat, j: nat)
    requires |senders| == |plans| && i < |senders| && j < |plans[i]|
    requires AllSign(plans[i], senders[i], signer)
    ensures |Blocks(senders, plans, signer)[i]| == |plans[i]|
    ensures Blocks(senders, plans, signer)[i][j] ==
      WriteOf(senders[i].address, senders[i].seqNum + j, plans[i][j])
  {
    SubmitAllExactAt(plans[i], senders[i], signer, j);
  }

  /** When every plan has m programs and every signing succeeds, the round has
      n*m requests and request p = i*m + j is sender i's j-th program, numbered
      from sender i's sequence number; every sender advances by m. */
  lemma RunPlansAllSign(senders: seq<AccountData>, plans: seq<seq<Program>>, signer: Signer, m: nat, i: nat, j: nat, p: nat)
    requires |senders| == |plans|
    requires forall k :: 0 <= k < |plans| ==> |plans[k]| == m
    requires forall k :: 0 <= k < |plans| ==> AllSign(plans[k], senders[k], signer)
    requires i < |senders| && j < m && p == i * m + j
    ensures |RunPlans(senders, plans, signer).requests| == |senders| * m
    ensures p < |senders| * m
    ensures RunPlans(senders, plans, signer).requests[p] ==
      WriteOf(senders[i].address, senders[i].seqNum + j, plans[i][j])
    ensures RunPlans(senders, plans, signer).senders[i].seqNum == senders[i].seqNum + m
  {
    var bs := Blocks(senders, plans, signer);
    BlocksUniform(senders, plans, signer, m);
    BlockAt(senders, plans, signer, i, j);
    FlattenUniformLength(bs, m);
    FlattenUniformAt(bs, m, i, j, p);
    RunPlansBlocks(senders, plans, signer);
    RunPlansSenders(senders, plans, signer, i);
  }

  // ------------------------------------------------------------------
  // Ring of transfers
  // ------------------------------------------------------------------

  /** Sender i's plan in the ring: one coin to the next account, the last
      account paying the first (the receivers are the addresses rotated left by one). */
  function RingPlans(accounts: seq<AccountData>): (plans: seq<seq<Program>>)
    requires |accounts| > 0
    ensures |plans| == |accounts|
  {
    var receivers := RotateLeft(Addresses(accounts), 1);
    seq(|accounts|, i requires 0 <= i < |accounts| => [Transfer(receivers[i], 1)])
  }

  function RingRound(accounts: seq<AccountData>, signer: Signer): Round
    requires |accounts| > 0
  {
    RunPlans(accounts, RingPlans(accounts), signer)
  }

  /** The transaction sender i of the ring signs: one coin to account (i+1) mod N. */
  function RingTxn(accounts: seq<AccountData>, i: nat): RawTxn
    requires i < |accounts|
  {
    RawTxn(accounts[i].address, accounts[i].seqNum, Transfer(accounts[Succ(i, |accounts|)].address, 1))
  }

  /** The index after i in a ring of n accounts: (i + 1) mod n. */
  function Succ(i: nat, n: nat): (r: nat)
    requires i < n
    ensures r < n
    ensures r == (i + 1) % n
  {
    if i + 1 < n then i + 1 else 0
  }

  /** Sender i's plan in the ring is the one transfer of `RingTxn`. */
  lemma RingPlanAt(accounts: seq<AccountData>, i: nat)
    requires i < |accounts|
    ensures RingPlans(accounts)[i] == [RingTxn(accounts, i).program]
  {
  }

  /** Sender i of the ring pays account (i+1) mod N one coin; it advances by
      one exactly when that signing succeeds and is unchanged otherwise. */
  lemma RingRoundSenders(accounts: seq<AccountData>, signer: Signer, i: nat)
    requires i < |accounts|
    ensures RingRound(accounts, signer).senders[i] ==
      if signer(RingTxn(accounts, i))
      then accounts[i].(seqNum := accounts[i].seqNum + 1)
      else accounts[i]
  {
    RingPlanAt(accounts, i);
    RunPlansSenders(accounts, RingPlans(accounts), signer, i);
    SubmitAllSingle(RingTxn(accounts, i).program, accounts[i], signer);
  }

  /** What each ring sender contributes: its one transfer when that signs,
      nothing when it fails. */
  function RingEmitted(accounts: seq<AccountData>, signer: Signer): (bs: seq<seq<LoadRequest>>)
    ensures |bs| == |accounts|
  {
    seq(|accounts|, i requires 0 <= i < |accounts| =>
      Emitted(Submit(RingTxn(accounts, i).program, accounts[i], signer).outcome))
  }

  /** The ring round's requests are, in sender order, each sender's transfer
      to account (i+1) mod N where it signed; failed generations are dropped. */
  lemma RingRoundRequests(accounts: seq<AccountData>, signer: Signer)
    requires |accounts| > 0
    ensures RingRound(accounts, signer).requests == Flatten(RingEmitted(accounts, signer))
  {
    var plans := RingPlans(accounts);
    var bs := Blocks(accounts, plans, signer);
    assert bs == RingEmitted(accounts, signer) by {
      forall i | 0 <= i < |accounts|
        ensures bs[i] == RingEmitted(accounts, signer)[i]
      {
        RingPlanAt(accounts, i);
        SubmitAllSingle(RingTxn(accounts, i).program, accounts[i], signer);
      }
    }
    RunPlansBlocks(accounts, plans, signer);
  }

  /** Every ring plan is one transfer, and it signs when the ring's transactions do. */
  lemma RingPlansSign(accounts: seq<AccountData>, signer: Signer)
    requires |accounts| > 0
    requires forall k :: 0 <= k < |accounts| ==> signer(RingTxn(accounts, k))
    ensures forall k :: 0 <= k < |accounts| ==>
      |RingPlans(accounts)[k]| == 1 && AllSign(RingPlans(accounts)[k], accounts[k], signer)
  {
    forall k | 0 <= k < |accounts|
      ensures |RingPlans(accounts)[k]| == 1 && AllSign(RingPlans(accounts)[k], accounts[k], signer)
    {
      RingPlanAt(accounts, k);
      assert signer(RingTxn(accounts, k));
    }
  }

  /** When every sender's transfer signs, the ring round is exactly
      A1->A2, A2->A3, ..., AN->A1, one coin each, in sender order. */
  lemma RingRoundAllSign(accounts: seq<AccountData>, signer: Signer, i: nat)
    requires forall k :: 0 <= k < |accounts| ==> signer(RingTxn(accounts, k))
    requires i < |accounts|
    ensures |RingRound(accounts, signer).requests| == |accounts|
    ensures RingRound(accounts, signer).requests[i] ==
      WriteOf(accounts[i].address, accounts[i].seqNum, Transfer(accounts[Succ(i, |accounts|)].address, 1))
  {
    var plans := RingPlans(accounts);
    RingPlansSign(accounts, signer);
    RingPlanAt(accounts, i);
    RunPlansAllSign(accounts, plans, signer, 1, i, 0, i);
  }

  /** A batch of one program is a single attempt. */
  lemma SubmitAllSingle(p: Program, sender: AccountData, signer: Signer)
    ensures SubmitAll([p], sender, signer) ==
      Batch(Emitted(Submit(p, sender, signer).outcome), Submit(p, sender, signer).sender)
  {
    assert [p][..0] == [];
  }

  class RingTransferTxnGenerator {
    const wallet: Wallet
    var accounts: seq<AccountData>

    constructor (signer: Signer)
      ensures fresh(wallet) && wallet.signer == signer && wallet.nextChild == 0
      ensures accounts == []
    {
      wallet := new Wallet(signer);
      accounts := [];
    }

    /** Replaces the accounts with `n` fresh ones from the wallet. */
    method GenAccounts(n: nat) returns (r: seq<AccountData>)
      modifies this, wallet
      ensures accounts == NewAccounts(old(wallet.nextChild), n) && r == accounts
      ensures wallet.nextChild == old(wallet.nextChild) + n
    {
      accounts := GenAccountsFromWallet(wallet, n);
      r := accounts;
    }

    /** Mints FREE_LUNCH to every account. */
    method GenSetupTxnRequests(faucet: AccountData, metrics: OpCounter)
      returns (r: Result<seq<LoadRequest>, SignError>, faucet': AccountData)
      requires |accounts| > 0 ==> faucet.keyPair.Some?
      modifies metrics
      ensures r.Ok? <==> AllSign(MintPrograms(accounts), faucet, MintSigner(faucet))
      ensures r.Ok? ==>
        Batch(r.value, faucet') == SubmitAll(MintPrograms(accounts), faucet, MintSigner(faucet))
      ensures r.Ok? ==>
        metrics.requested == old(metrics.requested) + |accounts| &&
        metrics.created == old(metrics.created) + |accounts| &&
        metrics.signFailed == old(metrics.signFailed)
      ensures r.Err? ==>
        metrics.signFailed == old(metrics.signFailed) + 1 &&
        metrics.requested == old(metrics.requested) + (metrics.created - old(metrics.created)) + 1
    {
      r, faucet' := GenMintTxnRequests(faucet, accounts, metrics);
    }

    /** One round: account i sends one coin to account (i+1) mod N. Failed
        generations are dropped and leave their sender as it was. Rust's
        `rotate_left(1)` panics on no accounts, hence the precondition. */
    method GenRoundLoad(round: nat, metrics: OpCounter) returns (reqs: seq<LoadRequest>)
      requires |accounts| > 0
      modifies this, metrics
      ensures Round(reqs, accounts) == RingRound(old(accounts), wallet.signer)
      ensures metrics.requested == old(metrics.requested) + |accounts|
      ensures metrics.created == old(metrics.created) + |reqs|
      ensures metrics.signFailed == old(metrics.signFailed) + (|accounts| - |reqs|)
    {
      var senders := accounts;
      var receivers := RotateLeft(Addresses(senders), 1);
      ghost var plans := RingPlans(senders);
      ghost var signer := wallet.signer;
      var done: seq<AccountData> := [];
      reqs := [];
      var i := 0;
      while i < |senders|
        modifies metrics
        invariant 0 <= i <= |senders|
        invariant Round(reqs, done) == RunPlans(senders[..i], plans[..i], signer)
        invariant metrics.requested == old(metrics.requested) + i
        invariant metrics.created == old(metrics.created) + |reqs|
        invariant metrics.signFailed == old(metrics.signFailed) + (i - |reqs|)
      {
        var r, sender' := GenTransferTxnRequest(senders[i], receivers[i], wallet, 1, metrics);
        assert plans[i] == [Transfer(receivers[i], 1)];
        SubmitAllSingle(plans[i][0], senders[i], signer);
        RunPlansStep(senders, plans, signer, i);
        reqs := reqs + Emitted(r);
        done := done + [sender'];
        i := i + 1;
      }
      assert senders[..i] == senders && plans[..i] == plans;
      accounts := done;
    }
  }

  // ------------------------------------------------------------------
  // Pairwise transfers
  // ------------------------------------------------------------------

  /** Every sender's plan in the pairwise round: one coin to each account, itself included. */
  function PairwisePlans(accounts: seq<AccountData>): (plans: seq<seq<Program>>)
    ensures |plans| == |accounts|
  {
    var receivers := Addresses(accounts);
    seq(|accounts|, i requires 0 <= i < |accounts| => TransferPrograms(receivers, 1))
  }

  function PairwiseRound(accounts: seq<AccountData>, signer: Signer): Round
  {
    RunPlans(accounts, PairwisePlans(accounts), signer)
  }

  /** Within each sender's block of the pairwise round the transactions carry
      consecutive sequence numbers from the sender's own, with no gap even
      where generations failed, and the sender advances by the block's length. */
  lemma PairwiseRoundNoGaps(accounts: seq<AccountData>, signer: Signer, i: nat, k: nat)
    requires i < |accounts|
    requires k < |Blocks(accounts, PairwisePlans(accounts), signer)[i]|
    ensures PairwiseRound(accounts, signer).requests == Flatten(Blocks(accounts, PairwisePlans(accounts), signer))
    ensures IsTxnOf(Blocks(accounts, PairwisePlans(accounts), signer)[i][k], accounts[i].address, accounts[i].seqNum + k)
    ensures PairwiseRound(accounts, signer).senders[i].seqNum ==
      accounts[i].seqNum + |Blocks(accounts, PairwisePlans(accounts), signer)[i]|
  {
    RunPlansBlocks(accounts, PairwisePlans(accounts), signer);
    RunPlansSenders(accounts, PairwisePlans(accounts), signer, i);
    SubmitAllNoGaps(PairwisePlans(accounts)[i], accounts[i], signer, k);
  }

  /** When every signing succeeds, the pairwise round is the N x N cross
      product in sender-major, receiver-minor order, self transfers included,
      one coin each, and every sender advances by N. */
  lemma PairwiseRoundAllSign(accounts: seq<AccountData>, signer: Signer, i: nat, j: nat, p: nat)
    requires forall a, b :: 0 <= a < |accounts| && 0 <= b < |accounts| ==>
      signer(RawTxn(accounts[a].address, accounts[a].seqNum + b, Transfer(accounts[b].address, 1)))
    requires i < |accounts| && j < |accounts| && p == i * |accounts| + j
    ensures |PairwiseRound(accounts, signer).requests| == |accounts| * |accounts|
    ensures p < |accounts| * |accounts|
    ensures PairwiseRound(accounts, signer).requests[p] ==
      WriteOf(accounts[i].address, accounts[i].seqNum + j, Transfer(accounts[j].address, 1))
    ensures PairwiseRound(accounts, signer).senders[i].seqNum == accounts[i].seqNum + |accounts|
  {
    var n := |accounts|;
    var plans := PairwisePlans(accounts);
    forall a | 0 <= a < n
      ensures |plans[a]| == n && AllSign(plans[a], accounts[a], signer)
    {
      PairwisePlanSigns(accounts, signer, a);
    }
    PairwisePlanAt(accounts, i, j);
    RunPlansAllSign(accounts, plans, signer, n, i, j, p);
  }

  /** Program j of every sender's pairwise plan pays account j one coin. */
  lemma PairwisePlanAt(accounts: seq<AccountData>, i: nat, j: nat)
    requires i < |accounts| && j < |accounts|
    ensures |PairwisePlans(accounts)[i]| == |accounts|
    ensures PairwisePlans(accounts)[i][j] == Transfer(accounts[j].address, 1)
  {
    var receivers := Addresses(accounts);
    assert PairwisePlans(accounts)[i] == TransferPrograms(receivers, 1);
    assert receivers[j] == accounts[j].address;
  }

  lemma PairwisePlanSigns(accounts: seq<AccountData>, signer: Signer, a: nat)
    requires forall a, b :: 0 <= a < |accounts| && 0 <= b < |accounts| ==>
      signer(RawTxn(accounts[a].address, accounts[a].seqNum + b, Transfer(accounts[b].address, 1)))
    requires a < |accounts|
    ensures |PairwisePlans(accounts)[a]| == |accounts|
    ensures AllSign(PairwisePlans(accounts)[a], accounts[a], signer)
  {
    PairwisePlanAt(accounts, a, 0);
    forall b | 0 <= b < |accounts|
      ensures signer(RawTxn(accounts[a].address, accounts[a].seqNum + b, PairwisePlans(accounts)[a][b]))
    {
      PairwisePlanAt(accounts, a, b);
    }
  }

  class PairwiseTransferTxnGenerator {
    const wallet: Wallet
    var accounts: seq<AccountData>

    constructor (signer: Signer)
      ensures fresh(wallet) && wallet.signer == signer && wallet.nextChild == 0
      ensures accounts == []
    {
      wallet := new Wallet(signer);
      accounts := [];
    }

    /** Replaces the accounts with `n` fresh ones from the wallet. */
    method GenAccounts(n: nat) returns (r: seq<AccountData>)
      modifies this, wallet
      ensures accounts == NewAccounts(old(wallet.nextChild), n) && r == accounts
      ensures wallet.nextChild == old(wallet.nextChild) + n
    {
      accounts := GenAccountsFromWallet(wallet, n);
      r := accounts;
    }

    /** Mints FREE_LUNCH to every account. */
    method GenSetupTxnRequests(faucet: AccountData, metrics: OpCounter)
      returns (r: Result<seq<LoadRequest>, SignError>, faucet': AccountData)
      requires |accounts| > 0 ==> faucet.keyPair.Some?
      modifies metrics
      ensures r.Ok? <==> AllSign(MintPrograms(accounts), faucet, MintSigner(faucet))
      ensures r.Ok? ==>
        Batch(r.value, faucet') == SubmitAll(MintPrograms(accounts), faucet, MintSigner(faucet))
      ensures r.Ok? ==>
        metrics.requested == old(metrics.requested) + |accounts| &&
        metrics.created == old(metrics.created) + |accounts| &&
        metrics.signFailed == old(metrics.signFailed)
      ensures r.Err? ==>
        metrics.signFailed == old(metrics.signFailed) + 1 &&
        metrics.requested == old(metrics.requested) + (metrics.created - old(metrics.created)) + 1
    {
      r, faucet' := GenMintTxnRequests(faucet, accounts, metrics);
    }

    /** One round: every account sends one coin to every account, itself
        included, senders in order; failed generations are dropped. */
    method GenRoundLoad(round: nat, metrics: OpCounter) returns (reqs: seq<LoadRequest>)
      modifies this, metrics
      ensures Round(reqs, accounts) == PairwiseRound(old(accounts), wallet.signer)
      ensures metrics.requested == old(metrics.requested) + |accounts| * |accounts|
      ensures metrics.created == old(metrics.created) + |reqs|
      ensures metrics.signFailed == old(metrics.signFailed) + (|accounts| * |accounts| - |reqs|)
    {
      var senders := accounts;
      var receivers := Addresses(senders);
      ghost var plans := PairwisePlans(senders);
      ghost var signer := wallet.signer;
      var n := |senders|;
      var done: seq<AccountData> := [];
      reqs := [];
      var i := 0;
      while i < n
        modifies metrics
        invariant 0 <= i <= n
        invariant Round(reqs, done) == RunPlans(senders[..i], plans[..i], signer)
        invariant metrics.requested == old(metrics.requested) + i * n
        invariant metrics.created == old(metrics.created) + |reqs|
        invariant metrics.signFailed == old(metrics.signFailed) + (i * n - |reqs|)
      {
        var batch, sender' := GenTransfers(senders[i], receivers, wallet, 1, metrics);
        assert plans[i] == TransferPrograms(receivers, 1);
        RunPlansStep(senders, plans, signer, i);
        reqs := reqs + batch;
        done := done + [sender'];
        MulSucc(i, n);
        i := i + 1;
      }
      assert senders[..i] == senders && plans[..i] == plans;
      accounts := done;
    }
  }

  // ------------------------------------------------------------------
  // Account storm
  // ------------------------------------------------------------------

  /** Coins each genesis account sends to each of its recipients: FREE_LUNCH
      split N ways, rounded down, so the N transfers never exceed FREE_LUNCH
      and leave less than N coins over. Division by zero panics in the source. */
  function StormTransferAmount(n: nat): (r: nat)
    requires n > 0
    ensures r * n <= FREE_LUNCH < (r + 1) * n
  {
    FREE_LUNCH / n
  }

  /** The copy of a genesis account the storm signs from: same address, no
      key pair, sequence number 0, status Local. */
  function Detached(account: AccountData): AccountData
  {
    NewAccount(account.address)
  }

  /** The senders of a storm round: detached copies of the first m genesis accounts. */
  function StormSenders(genesis: seq<AccountData>, m: nat): (r: seq<AccountData>)
    requires m <= |genesis|
    ensures |r| == m
  {
    seq(m, i requires 0 <= i < m => Detached(genesis[i]))
  }

  /** The plans of a storm round: sender i pays `amount` to every address of chunk i. */
  function StormPlans(chunks: seq<seq<Address>>, m: nat, amount: nat): (r: seq<seq<Program>>)
    requires m <= |chunks|
    ensures |r| == m
  {
    seq(m, i requires 0 <= i < m => TransferPrograms(chunks[i], amount))
  }

  /** How many genesis accounts send in a storm round: `zip` stops at
      whichever of the genesis accounts and the chunks runs out first. */
  function StormWidth(genesis: seq<AccountData>, chunks: seq<seq<Address>>): (m: nat)
    ensures m <= |genesis| && m <= |chunks|
    ensures m == |genesis| || m == |chunks|
  {
    if |genesis| < |chunks| then |genesis| else |chunks|
  }

  /** A round of the storm. Rounds after the first produce nothing. Otherwise
      genesis account i, signing from a fresh copy of itself, sends the split
      amount to every address of the i-th chunk of N round-1 addresses. */
  function StormRound(round: nat, n: nat, genesis: seq<AccountData>, roundAccounts: seq<seq<Address>>, signer: Signer)
    : (r: seq<LoadRequest>)
    requires round <= 1 ==> n > 0 && |roundAccounts| > 0
    ensures round > 1 ==> r == []
  {
    if round > 1 then []
    else
      var chunks := Chunks(roundAccounts[0], n);
      var m := StormWidth(genesis, chunks);
      RunPlans(StormSenders(genesis, m), StormPlans(chunks, m, StormTransferAmount(n)), signer).requests
  }

  /** Transaction b of genesis account a in a storm over N genesis accounts
      and N*N round-1 addresses: numbered b from a fresh sequence number 0,
      paying the split amount to round-1 address a*N + b. */
  function StormTxn(genesis: seq<AccountData>, round1: seq<Address>, n: nat, a: nat, b: nat): RawTxn
    requires a < n && b < n && n <= |genesis| && |round1| == n * n
  {
    MulIndexBound(a, b, n, n);
    RawTxn(genesis[a].address, b, Transfer(round1[a * n + b], StormTransferAmount(n)))
  }

  /** With N*N round-1 addresses, sender a's storm plan has N transfers, the
      b-th paying round-1 address p = a*N + b. */
  lemma StormPlanAt(round1: seq<Address>, n: nat, a: nat, b: nat, p: nat)
    requires n > 0 && |round1| == n * n && a < n && b < n && p == a * n + b
    ensures |Chunks(round1, n)| == n && p < |round1|
    ensures |StormPlans(Chunks(round1, n), n, StormTransferAmount(n))[a]| == n
    ensures StormPlans(Chunks(round1, n), n, StormTransferAmount(n))[a][b] ==
      Transfer(round1[p], StormTransferAmount(n))
  {
    ChunkAt(round1, n, n, a, b, p);
    var chunks := Chunks(round1, n);
    var amount := StormTransferAmount(n);
    assert StormPlans(chunks, n, amount)[a] == TransferPrograms(chunks[a], amount);
  }

  /** Under the all-sign hypothesis, genesis account a's storm batch signs in full. */
  lemma StormPlanSigns(n: nat, genesis: seq<AccountData>, round1: seq<Address>, signer: Signer, a: nat)
    requires n > 0 && |genesis| == n && |round1| == n * n && a < n
    requires forall a, b :: 0 <= a < n && 0 <= b < n ==> signer(StormTxn(genesis, round1, n, a, b))
    ensures |Chunks(round1, n)| == n
    ensures |StormPlans(Chunks(round1, n), n, StormTransferAmount(n))[a]| == n
    ensures AllSign(StormPlans(Chunks(round1, n), n, StormTransferAmount(n))[a], StormSenders(genesis, n)[a], signer)
  {
    StormPlanAt(round1, n, a, 0, a * n);
    var plan := StormPlans(Chunks(round1, n), n, StormTransferAmount(n))[a];
    var sender := StormSenders(genesis, n)[a];
    assert sender == Detached(genesis[a]);
    forall b | 0 <= b < |plan|
      ensures signer(RawTxn(sender.address, sender.seqNum + b, plan[b]))
    {
      StormPlanAt(round1, n, a, b, a * n + b);
      assert RawTxn(sender.address, sender.seqNum + b, plan[b]) == StormTxn(genesis, round1, n, a, b);
    }
  }

  /** After `gen_accounts(N)` (N genesis accounts and N*N round-1 addresses),
      when every signing succeeds, a round-0 or round-1 storm has N*N requests
      and request p = i*N + j is genesis account i's j-th transaction
      (numbered from 0) sending the split amount to round-1 address p. */
  lemma StormRoundAllSign(round: nat, n: nat, genesis: seq<AccountData>, roundAccounts: seq<seq<Address>>,
                          signer: Signer, i: nat, j: nat, p: nat)
    requires round <= 1 && n > 0 && |genesis| == n
    requires |roundAccounts| > 0 && |roundAccounts[0]| == n * n
    requires forall a, b :: 0 <= a < n && 0 <= b < n ==> signer(StormTxn(genesis, roundAccounts[0], n, a, b))
    requires i < n && j < n && p == i * n + j
    ensures |StormRound(round, n, genesis, roundAccounts, signer)| == n * n
    ensures p < n * n
    ensures StormRound(round, n, genesis, roundAccounts, signer)[p] ==
      WriteOf(genesis[i].address, j, Transfer(roundAccounts[0][p], StormTransferAmount(n)))
  {
    var round1 := roundAccounts[0];
    var amount := StormTransferAmount(n);
    StormRoundFull(round, n, genesis, roundAccounts, signer);
    var senders := StormSenders(genesis, n);
    var plans := StormPlans(Chunks(round1, n), n, amount);
    var reqs := RunPlans(senders, plans, signer).requests;
    assert |reqs| == n * n && p < n * n && reqs[p] == WriteOf(genesis[i].address, j, plans[i][j]) by {
      StormPlansSign(n, genesis, round1, signer);
      assert senders[i] == Detached(genesis[i]);
      RunPlansAllSign(senders, plans, signer, n, i, j, p);
    }
    assert plans[i][j] == Transfer(round1[p], amount) by {
      StormPlanAt(round1, n, i, j, p);
    }
  }

  /** With N genesis accounts and N*N round-1 addresses, all N genesis
      accounts send, each over one full chunk. */
  lemma StormRoundFull(round: nat, n: nat, genesis: seq<AccountData>, roundAccounts: seq<seq<Address>>, signer: Signer)
    requires round <= 1 && n > 0 && |genesis| == n
    requires |roundAccounts| > 0 && |roundAccounts[0]| == n * n
    ensures |Chunks(roundAccounts[0], n)| == n
    ensures StormRound(round, n, genesis, roundAccounts, signer) ==
      RunPlans(StormSenders(genesis, n), StormPlans(Chunks(roundAccounts[0], n), n, StormTransferAmount(n)), signer).requests
  {
    ChunksUniformLength(roundAccounts[0], n, n);
  }

  lemma StormPlansSign(n: nat, genesis: seq<AccountData>, round1: seq<Address>, signer: Signer)
    requires n > 0 && |genesis| == n && |round1| == n * n
    requires forall a, b :: 0 <= a < n && 0 <= b < n ==> signer(StormTxn(genesis, round1, n, a, b))
    ensures |Chunks(round1, n)| == n
    ensures forall a :: 0 <= a < n ==>
      |StormPlans(Chunks(round1, n), n, StormTransferAmount(n))[a]| == n &&
      AllSign(StormPlans(Chunks(round1, n), n, StormTransferAmount(n))[a], StormSenders(genesis, n)[a], signer)
  {
    ChunksUniformLength(round1, n, n);
    forall a | 0 <= a < n
      ensures |StormPlans(Chunks(round1, n), n, StormTransferAmount(n))[a]| == n &&
        AllSign(StormPlans(Chunks(round1, n), n, StormTransferAmount(n))[a], StormSenders(genesis, n)[a], signer)
    {
      StormPlanSigns(n, genesis, round1, signer, a);
    }
  }

  /** The accounts the storm samples for verification after `gen_accounts(N)`
      (the round-1 accounts drawn from child index `start`): exactly N of
      them, sample i being round-1 account p = i*N, the first of group i. */
  lemma StormSamples(start: nat, n: nat, i: nat, p: nat)
    requires n > 0 && i < n && p == i * n
    ensures |StepBy(NewAccounts(start, n * n), n)| == n
    ensures StepBy(NewAccounts(start, n * n), n)[i] == NewAccount(start + p)
  {
    var round1 := NewAccounts(start, n * n);
    StepByChunkHeads(round1, n);
    ChunksUniformLength(round1, n, n);
    StepByAt(round1, n, i, p);
    assert round1[p] == NewAccount(start + p);
  }

  class AccountStorm {
    const wallet: Wallet
    var numAccounts: nat
    var genesisAccounts: seq<AccountData>
    var roundAccounts: seq<seq<Address>>
    var accountsToVerify: seq<AccountData>

    constructor (signer: Signer)
      ensures fresh(wallet) && wallet.signer == signer && wallet.nextChild == 0
      ensures numAccounts == 0 && genesisAccounts == [] && roundAccounts == [] && accountsToVerify == []
    {
      wallet := new Wallet(signer);
      numAccounts := 0;
      genesisAccounts, roundAccounts, accountsToVerify := [], [], [];
    }

    /** Creates N genesis accounts and N*N round-1 accounts, appends the
        round-1 addresses to `roundAccounts`, and samples every N-th round-1
        account (N of them) for verification. `step_by(0)` panics, hence N > 0. */
    method GenAccounts(n: nat) returns (r: seq<AccountData>)
      requires n > 0
      modifies this, wallet
      ensures numAccounts == n
      ensures genesisAccounts == NewAccounts(old(wallet.nextChild), n)
      ensures roundAccounts == old(roundAccounts) + [Addresses(NewAccounts(old(wallet.nextChild) + n, n * n))]
      ensures accountsToVerify == StepBy(NewAccounts(old(wallet.nextChild) + n, n * n), n)
      ensures r == accountsToVerify
      ensures wallet.nextChild == old(wallet.nextChild) + n + n * n
    {
      numAccounts := n;
      genesisAccounts := GenAccountsFromWallet(wallet, n);
      var round1 := GenAccountsFromWallet(wallet, n * n);
      roundAccounts := roundAccounts + [Addresses(round1)];
      accountsToVerify := StepBy(round1, n);
      r := accountsToVerify;
    }

    /** Mints FREE_LUNCH to every genesis account. */
    method GenSetupTxnRequests(faucet: AccountData, metrics: OpCounter)
      returns (r: Result<seq<LoadRequest>, SignError>, faucet': AccountData)
      requires |genesisAccounts| > 0 ==> faucet.keyPair.Some?
      modifies metrics
      ensures r.Ok? <==> AllSign(MintPrograms(genesisAccounts), faucet, MintSigner(faucet))
      ensures r.Ok? ==>
        Batch(r.value, faucet') == SubmitAll(MintPrograms(genesisAccounts), faucet, MintSigner(faucet))
      ensures r.Ok? ==>
        metrics.requested == old(metrics.requested) + |genesisAccounts| &&
        metrics.created == old(metrics.created) + |genesisAccounts| &&
        metrics.signFailed == old(metrics.signFailed)
      ensures r.Err? ==>
        metrics.signFailed == old(metrics.signFailed) + 1 &&
        metrics.requested == old(metrics.requested) + (metrics.created - old(metrics.created)) + 1
    {
      r, faucet' := GenMintTxnRequests(faucet, genesisAccounts, metrics);
    }

    /** One round of the storm (see `StormRound`). The stored accounts are
        left untouched: the method changes nothing but the counters. The
        division by `numAccounts` and the index into `roundAccounts` panic
        in the source when `gen_accounts` has not run, hence the precondition. */
    method GenRoundLoad(round: nat, metrics: OpCounter) returns (reqs: seq<LoadRequest>)
      requires round <= 1 ==> numAccounts > 0 && |roundAccounts| > 0
      modifies metrics
      ensures reqs == StormRound(round, numAccounts, genesisAccounts, roundAccounts, wallet.signer)
      ensures metrics.created == old(metrics.created) + |reqs|
      ensures metrics.requested - old(metrics.requested) ==
        (metrics.created - old(metrics.created)) + (metrics.signFailed - old(metrics.signFailed))
    {
      if round > 1 {
        return [];
      }
      var transfer := StormTransferAmount(numAccounts);
      var chunks := Chunks(roundAccounts[0], numAccounts);
      var genesis := genesisAccounts;
      var m := StormWidth(genesis, chunks);
      ghost var signer := wallet.signer;
      ghost var senders := StormSenders(genesis, m);
      ghost var plans := StormPlans(chunks, m, transfer);
      reqs := [];
      var i := 0;
      while i < m
        invariant 0 <= i <= m
        invariant reqs == RunPlans(senders[..i], plans[..i], signer).requests
        invariant metrics.created == old(metrics.created) + |reqs|
        invariant metrics.requested - old(metrics.requested) ==
          (metrics.created - old(metrics.created)) + (metrics.signFailed - old(metrics.signFailed))
      {
        var sender := Detached(genesis[i]);
        var batch, _ := GenTransfers(sender, chunks[i], wallet, transfer, metrics);
        RunPlansStep(senders, plans, signer, i);
        reqs := reqs + batch;
        i := i + 1;
      }
      assert senders[..i] == senders;
      assert plans[..i] == plans;
    }
  }
}
