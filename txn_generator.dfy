/** The helpers of the benchmark's transaction generator: creating accounts
    from a wallet, crafting signed transaction requests (one, or a batch from
    one sender), minting, and filtering load requests down to submissions. */
module TxnGenerator {
  import opened TxnTypes
  import opened Seqs
  import opened Wallets
  import opened Metrics

  // ------------------------------------------------------------------
  // Accounts from a wallet
  // ------------------------------------------------------------------

  /** The accounts `gen_accounts_from_wallet` yields when the wallet's next
      child index is `start`: n fresh local accounts whose addresses are new. */
  function NewAccounts(start: Address, n: nat): (r: seq<AccountData>)
    ensures |r| == n
    ensures forall i :: 0 <= i < n ==>
      r[i].seqNum == 0 && r[i].keyPair == None && r[i].status == Local
    ensures forall i :: 0 <= i < n ==> start <= r[i].address < start + n
    ensures forall i, j :: 0 <= i < j < n ==> r[i].address < r[j].address
  {
    var r := seq(n, i requires 0 <= i < n => NewAccount(start + i));
    assert forall i :: 0 <= i < n ==> r[i] == NewAccount(start + i);
    r
  }

  /** Creates one account without a key pair from the wallet. */
  method GenNextAccount(wallet: Wallet) returns (account: AccountData)
    modifies wallet
    ensures account == NewAccount(old(wallet.nextChild))
    ensures wallet.nextChild == old(wallet.nextChild) + 1
  {
    var address := wallet.NewAddress();
    account := NewAccount(address);
  }

  /** Creates `n` accounts without key pairs from the wallet. */
  method GenAccountsFromWallet(wallet: Wallet, n: nat) returns (accounts: seq<AccountData>)
    modifies wallet
    ensures accounts == NewAccounts(old(wallet.nextChild), n)
    ensures wallet.nextChild == old(wallet.nextChild) + n
  {
    accounts := [];
    var i := 0;
    while i < n
      invariant 0 <= i <= n
      invariant wallet.nextChild == old(wallet.nextChild) + i
      invariant accounts == NewAccounts(old(wallet.nextChild), i)
    {
      var account := GenNextAccount(wallet);
      accounts := accounts + [account];
      i := i + 1;
    }
  }

  // ------------------------------------------------------------------
  // One signed transaction request
  // ------------------------------------------------------------------

  /** Signing oracle standing in for `create_signed_txn`. */
  function CreateSignedTxn(signer: Signer, program: Program, sender: Address, seqNum: nat)
    : Result<SignedTxn, SignError>
  {
    var raw := RawTxn(sender, seqNum, program);
    if signer(raw) then Ok(SignedTxn(raw)) else Err(SignError(raw))
  }

  /** Outcome of one generation attempt, with the sender as it is afterwards. */
  datatype Submission = Submission(outcome: Result<LoadRequest, SignError>, sender: AccountData)

  /** What `gen_submit_transaction_request` does: sign `program` from `sender`
      at its current sequence number; on success the request carries that
      number and the sender's number goes up by one, on failure the sender is
      unchanged and the signing error is returned. */
  function Submit(program: Program, sender: AccountData, signer: Signer): (s: Submission)
    ensures s.outcome.Ok? <==> signer(RawTxn(sender.address, sender.seqNum, program))
    ensures s.outcome.Ok? ==>
      s.outcome.value == WriteOf(sender.address, sender.seqNum, program) &&
      s.sender == sender.(seqNum := sender.seqNum + 1)
    ensures s.outcome.Err? ==>
      s.outcome.error == SignError(RawTxn(sender.address, sender.seqNum, program)) &&
      s.sender == sender
  {
    match CreateSignedTxn(signer, program, sender.address, sender.seqNum)
    case Ok(signed) =>
      Submission(Ok(WriteRequest(SubmitTxnRequest(signed))), sender.(seqNum := sender.seqNum + 1))
    case Err(e) =>
      Submission(Err(e), sender)
  }

  /** Crafts a generic signed transaction request, counting the attempt. */
  method GenSubmitTransactionRequest(program: Program, sender: AccountData, signer: Signer, metrics: OpCounter)
    returns (r: Result<LoadRequest, SignError>, sender': AccountData)
    modifies metrics
    ensures Submission(r, sender') == Submit(program, sender, signer)
    ensures metrics.requested == old(metrics.requested) + 1
    ensures metrics.created == old(metrics.created) + (if r.Ok? then 1 else 0)
    ensures metrics.signFailed == old(metrics.signFailed) + (if r.Err? then 1 else 0)
    ensures old(metrics.Balanced()) ==> metrics.Balanced()
  {
    metrics.requested := metrics.requested + 1;
    var signed := CreateSignedTxn(signer, program, sender.address, sender.seqNum);
    if signed.Err? {
      metrics.signFailed := metrics.signFailed + 1;
      return Err(signed.error), sender;
    }
    var req := SubmitTxnRequest(signed.value);
    sender' := sender.(seqNum := sender.seqNum + 1);
    metrics.created := metrics.created + 1;
    r := Ok(WriteRequest(req));
  }

  /** The signer of the faucet's key pair. A faucet without one never gets to
      sign: `gen_mint_txn_request` panics first, which callers must rule out. */
  function MintSigner(faucet: AccountData): Signer
  {
    match faucet.keyPair
    case Some(kp) => kp.sign
    case None => (raw: RawTxn) => false
  }

  /** Crafts a request minting FREE_LUNCH coins to `receiver`, signed with the
      faucet's key pair (whose absence is a panic). */
  method GenMintTxnRequest(faucet: AccountData, receiver: Address, metrics: OpCounter)
    returns (r: Result<LoadRequest, SignError>, faucet': AccountData)
    requires faucet.keyPair.Some?
    modifies metrics
    ensures Submission(r, faucet') == Submit(Mint(receiver, FREE_LUNCH), faucet, MintSigner(faucet))
    ensures metrics.requested == old(metrics.requested) + 1
    ensures metrics.created == old(metrics.created) + (if r.Ok? then 1 else 0)
    ensures metrics.signFailed == old(metrics.signFailed) + (if r.Err? then 1 else 0)
  {
    var program := Mint(receiver, FREE_LUNCH);
    var signer := faucet.keyPair.value.sign;
    r, faucet' := GenSubmitTransactionRequest(program, faucet, signer, metrics);
  }

  /** Crafts a request transferring `amount` coins from `sender` to
      `receiver`, signed by the wallet. */
  method GenTransferTxnRequest(sender: AccountData, receiver: Address, wallet: Wallet, amount: nat, metrics: OpCounter)
    returns (r: Result<LoadRequest, SignError>, sender': AccountData)
    modifies metrics
    ensures Submission(r, sender') == Submit(Transfer(receiver, amount), sender, wallet.signer)
    ensures metrics.requested == old(metrics.requested) + 1
    ensures metrics.created == old(metrics.created) + (if r.Ok? then 1 else 0)
    ensures metrics.signFailed == old(metrics.signFailed) + (if r.Err? then 1 else 0)
  {
    var program := Transfer(receiver, amount);
    r, sender' := GenSubmitTransactionRequest(program, sender, wallet.signer, metrics);
  }

  // ------------------------------------------------------------------
  // A batch of requests from one sender
  // ------------------------------------------------------------------

  /** The requests an attempt contributes when failures are dropped
      (iterating a Rust `Result` yields its Ok value or nothing). */
  function Emitted(outcome: Result<LoadRequest, SignError>): seq<LoadRequest>
  {
    if outcome.Ok? then [outcome.value] else []
  }

  /** `req` is a write request for `sender`'s transaction number `seqNum`. */
  predicate IsTxnOf(req: LoadRequest, sender: Address, seqNum: nat)
  {
    req.WriteRequest? && req.submit.signedTxn.raw.sender == sender &&
    req.submit.signedTxn.raw.seqNum == seqNum
  }

  /** The program a write request runs. */
  function ProgramOf(req: LoadRequest): Program
    requires req.WriteRequest?
  {
    req.submit.signedTxn.raw.program
  }

  datatype Batch = Batch(requests: seq<LoadRequest>, sender: AccountData)

  /** One sender threaded through one attempt per program, in order, failed
      attempts dropped; the sender ends up advanced by exactly the number of
      requests emitted. */
  function SubmitAll(programs: seq<Program>, sender: AccountData, signer: Signer): (b: Batch)
    ensures |b.requests| <= |programs|
    ensures b.sender == sender.(seqNum := sender.seqNum + |b.requests|)
    decreases |programs|
  {
    if programs == [] then Batch([], sender)
    else
      var n := |programs|;
      var prev := SubmitAll(programs[..n - 1], sender, signer);
      var s := Submit(programs[n - 1], prev.sender, signer);
      Batch(prev.requests + Emitted(s.outcome), s.sender)
  }

  /** Extending a batch by one program is one more attempt from where the
      batch left the sender. */
  lemma SubmitAllStep(programs: seq<Program>, sender: AccountData, signer: Signer, i: nat)
    requires i < |programs|
    ensures SubmitAll(programs[..i + 1], sender, signer) ==
      var prev := SubmitAll(programs[..i], sender, signer);
      var s := Submit(programs[i], prev.sender, signer);
      Batch(prev.requests + Emitted(s.outcome), s.sender)
  {
    assert programs[..i + 1][..i] == programs[..i];
  }

  /** The emitted transactions carry consecutive sequence numbers starting at
      the sender's, with no gap even where an attempt failed, and each runs
      one of the batch's programs. */
  lemma {:induction false} SubmitAllNoGaps(programs: seq<Program>, sender: AccountData, signer: Signer, k: nat)
    requires k < |SubmitAll(programs, sender, signer).requests|
    ensures IsTxnOf(SubmitAll(programs, sender, signer).requests[k], sender.address, sender.seqNum + k)
    ensures ProgramOf(SubmitAll(programs, sender, signer).requests[k]) in programs
    decreases |programs|
  {
    var n := |programs|;
    var prev := SubmitAll(programs[..n - 1], sender, signer);
    if k < |prev.requests| {
      SubmitAllNoGaps(programs[..n - 1], sender, signer, k);
      assert programs[..n - 1] <= programs;
    } else {
      assert k == |prev.requests|;
    }
  }

  /** Signing succeeds for every program at the sequence number it would get
      if all before it succeeded. */
  predicate AllSign(programs: seq<Program>, sender: AccountData, signer: Signer)
  {
    forall k :: 0 <= k < |programs| ==>
      signer(RawTxn(sender.address, sender.seqNum + k, programs[k]))
  }

  /** A batch emits one request per program exactly when every signing
      succeeds. */
  lemma {:induction false} SubmitAllCount(programs: seq<Program>, sender: AccountData, signer: Signer)
    ensures |SubmitAll(programs, sender, signer).requests| == |programs| <==> AllSign(programs, sender, signer)
    decreases |programs|
  {
    if programs != [] {
      var n := |programs|;
      var init := programs[..n - 1];
      SubmitAllCount(init, sender, signer);
      AllSignSnoc(programs, sender, signer);
      var prev := SubmitAll(init, sender, signer);
      var s := Submit(programs[n - 1], prev.sender, signer);
      assert |SubmitAll(programs, sender, signer).requests| == |prev.requests| + |Emitted(s.outcome)|;
      if AllSign(init, sender, signer) {
        assert prev.sender.seqNum == sender.seqNum + (n - 1);
      } else {
        assert |prev.requests| < n - 1;
      }
    }
  }

  /** All of a batch signs exactly when all but its last program does and the
      last one signs at the sequence number that follows. */
  lemma AllSignSnoc(programs: seq<Program>, sender: AccountData, signer: Signer)
    requires programs != []
    ensures AllSign(programs, sender, signer) <==>
      AllSign(programs[..|programs| - 1], sender, signer) &&
      signer(RawTxn(sender.address, sender.seqNum + (|programs| - 1), programs[|programs| - 1]))
  {
    var init := programs[..|programs| - 1];
    assert forall k :: 0 <= k < |init| ==> init[k] == programs[k];
  }

  /** When every signing succeeds, request k runs program k at the sender's
      sequence number plus k. */
  lemma {:induction false} SubmitAllExact(programs: seq<Program>, sender: AccountData, signer: Signer)
    requires AllSign(programs, sender, signer)
    ensures |SubmitAll(programs, sender, signer).requests| == |programs|
    ensures forall k :: 0 <= k < |programs| ==>
      SubmitAll(programs, sender, signer).requests[k] == WriteOf(sender.address, sender.seqNum + k, programs[k])
    decreases |programs|
  {
    SubmitAllCount(programs, sender, signer);
    if programs != [] {
      var n := |programs|;
      var init := programs[..n - 1];
      assert AllSign(init, sender, signer) by {
        assert forall k :: 0 <= k < n - 1 ==> init[k] == programs[k];
      }
      SubmitAllExact(init, sender, signer);
      var prev := SubmitAll(init, sender, signer);
      assert prev.sender.seqNum == sender.seqNum + (n - 1);
      var s := Submit(programs[n - 1], prev.sender, signer);
      assert s.outcome.Ok?;
      var reqs := SubmitAll(programs, sender, signer).requests;
      assert reqs == prev.requests + [s.outcome.value];
      forall k | 0 <= k < n
        ensures reqs[k] == WriteOf(sender.address, sender.seqNum + k, programs[k])
      {
        if k < n - 1 {
          assert reqs[k] == prev.requests[k] && init[k] == programs[k];
        }
      }
    }
  }

  /** `SubmitAllExact` at one position. */
  lemma SubmitAllExactAt(programs: seq<Program>, sender: AccountData, signer: Signer, k: nat)
    requires AllSign(programs, sender, signer)
    requires k < |programs|
    ensures |SubmitAll(programs, sender, signer).requests| == |programs|
    ensures SubmitAll(programs, sender, signer).requests[k] == WriteOf(sender.address, sender.seqNum + k, programs[k])
  {
    SubmitAllExact(programs, sender, signer);
  }

  /** The batch that transfers `amount` coins to each receiver in turn. */
  function TransferPrograms(receivers: seq<Address>, amount: nat): (r: seq<Program>)
    ensures |r| == |receivers|
    ensures forall j :: 0 <= j < |r| ==> r[j] == Transfer(receivers[j], amount)
  {
    seq(|receivers|, j requires 0 <= j < |receivers| => Transfer(receivers[j], amount))
  }

  /** One sender transferring `amount` coins to each receiver in turn, failed
      attempts logged and dropped. */
  method GenTransfers(sender: AccountData, receivers: seq<Address>, wallet: Wallet, amount: nat, metrics: OpCounter)
    returns (reqs: seq<LoadRequest>, sender': AccountData)
    modifies metrics
    ensures Batch(reqs, sender') == SubmitAll(TransferPrograms(receivers, amount), sender, wallet.signer)
    ensures metrics.requested == old(metrics.requested) + |receivers|
    ensures metrics.created == old(metrics.created) + |reqs|
    ensures metrics.signFailed == old(metrics.signFailed) + (|receivers| - |reqs|)
  {
    ghost var programs := TransferPrograms(receivers, amount);
    reqs, sender' := [], sender;
    var j := 0;
    while j < |receivers|
      invariant 0 <= j <= |receivers|
      invariant Batch(reqs, sender') == SubmitAll(programs[..j], sender, wallet.signer)
      invariant metrics.requested == old(metrics.requested) + j
      invariant metrics.created == old(metrics.created) + |reqs|
      invariant metrics.signFailed == old(metrics.signFailed) + (j - |reqs|)
    {
      SubmitAllStep(programs, sender, wallet.signer, j);
      var r;
      r, sender' := GenTransferTxnRequest(sender', receivers[j], wallet, amount, metrics);
      if r.Ok? {
        reqs := reqs + [r.value];
      }
      j := j + 1;
    }
    assert programs[..j] == programs;
  }

  // ------------------------------------------------------------------
  // Minting
  // ------------------------------------------------------------------

  /** One mint of FREE_LUNCH coins per account, in order. */
  function MintPrograms(accounts: seq<AccountData>): (r: seq<Program>)
    ensures |r| == |accounts|
    ensures forall i :: 0 <= i < |r| ==> r[i] == Mint(accounts[i].address, FREE_LUNCH)
  {
    seq(|accounts|, i requires 0 <= i < |accounts| => Mint(accounts[i].address, FREE_LUNCH))
  }

  /** For each account, a mint request signed by the faucet. A signing failure
      makes the source panic; here it ends the run with `Err`. */
  method GenMintTxnRequests(faucet: AccountData, accounts: seq<AccountData>, metrics: OpCounter)
    returns (r: Result<seq<LoadRequest>, SignError>, faucet': AccountData)
    requires |accounts| > 0 ==> faucet.keyPair.Some?
    modifies metrics
    ensures r.Ok? <==> AllSign(MintPrograms(accounts), faucet, MintSigner(faucet))
    ensures r.Ok? ==>
      Batch(r.value, faucet') == SubmitAll(MintPrograms(accounts), faucet, MintSigner(faucet))
    ensures r.Ok? ==>
      metrics.requested == old(metrics.requested) + |accounts| &&
      metrics.created == old(metrics.created) + |accounts| &&
      metrics.signFailed == old(metrics.signFailed)
    ensures r.Err? ==>
      metrics.signFailed == old(metrics.signFailed) + 1 &&
      metrics.requested == old(metrics.requested) + (metrics.created - old(metrics.created)) + 1
  {
    ghost var programs := MintPrograms(accounts);
    ghost var signer := MintSigner(faucet);
    var reqs := [];
    faucet' := faucet;
    var i := 0;
    while i < |accounts|
      invariant 0 <= i <= |accounts|
      invariant |reqs| == i
      invariant Batch(reqs, faucet') == SubmitAll(programs[..i], faucet, signer)
      invariant faucet'.keyPair == faucet.keyPair
      invariant metrics.requested == old(metrics.requested) + i
      invariant metrics.created == old(metrics.created) + i
      invariant metrics.signFailed == old(metrics.signFailed)
    {
      SubmitAllStep(programs, faucet, signer, i);
      var res, f := GenMintTxnRequest(faucet', accounts[i].address, metrics);
      if res.Err? {
        SubmitAllCount(programs[..i + 1], faucet, signer);
        assert !AllSign(programs, faucet, signer);
        return Err(res.error), f;
      }
      reqs := reqs + [res.value];
      faucet' := f;
      i := i + 1;
    }
    assert programs[..i] == programs;
    SubmitAllCount(programs, faucet, signer);
    r := Ok(reqs);
  }

  /** When every mint signs: one request per account, in account order, each
      minting FREE_LUNCH to that account, and the faucet's sequence number
      grows by the number of accounts. */
  lemma MintRequestsShape(faucet: AccountData, accounts: seq<AccountData>, signer: Signer)
    requires AllSign(MintPrograms(accounts), faucet, signer)
    ensures |SubmitAll(MintPrograms(accounts), faucet, signer).requests| == |accounts|
    ensures forall i :: 0 <= i < |accounts| ==>
      SubmitAll(MintPrograms(accounts), faucet, signer).requests[i] ==
        WriteOf(faucet.address, faucet.seqNum + i, Mint(accounts[i].address, FREE_LUNCH))
    ensures SubmitAll(MintPrograms(accounts), faucet, signer).sender.seqNum == faucet.seqNum + |accounts|
  {
    SubmitAllExact(MintPrograms(accounts), faucet, signer);
  }

  // ------------------------------------------------------------------
  // Load requests to submissions
  // ------------------------------------------------------------------

  /** The payloads of the write requests, in order; read requests are dropped. */
  function ConvertLoadToTxnRequests(reqs: seq<LoadRequest>): (r: seq<SubmitTxnRequest>)
    ensures |r| <= |reqs|
    ensures forall i :: 0 <= i < |r| ==> WriteRequest(r[i]) in reqs
    ensures |r| == |reqs| <==> forall i :: 0 <= i < |reqs| ==> reqs[i].WriteRequest?
  {
    if reqs == [] then []
    else
      var rest := ConvertLoadToTxnRequests(reqs[1..]);
      assert forall i :: 0 <= i < |reqs| - 1 ==> reqs[1..][i] == reqs[i + 1];
      match reqs[0]
      case WriteRequest(submit) => [submit] + rest
      case ReadRequest(_) => rest
  }

  /** Filtering distributes over concatenation, so order is preserved. */
  lemma {:induction false} ConvertAppend(a: seq<LoadRequest>, b: seq<LoadRequest>)
    ensures ConvertLoadToTxnRequests(a + b) == ConvertLoadToTxnRequests(a) + ConvertLoadToTxnRequests(b)
  {
    if a != [] {
      assert (a + b)[1..] == a[1..] + b;
      ConvertAppend(a[1..], b);
    } else {
      assert a + b == b;
    }
  }

  /** Write requests round-trip: wrapping submissions and converting them back
      gives the submissions unchanged. */
  lemma {:induction false} ConvertOfWrites(xs: seq<SubmitTxnRequest>)
    ensures ConvertLoadToTxnRequests(seq(|xs|, i requires 0 <= i < |xs| => WriteRequest(xs[i]))) == xs
  {
    var ws := seq(|xs|, i requires 0 <= i < |xs| => WriteRequest(xs[i]));
    if xs != [] {
      ConvertOfWrites(xs[1..]);
      assert ws[1..] == seq(|xs[1..]|, i requires 0 <= i < |xs[1..]| => WriteRequest(xs[1..][i]));
    }
  }

  /** Read requests contribute nothing. */
  lemma {:induction false} ConvertOfReads(reqs: seq<LoadRequest>)
    requires forall i :: 0 <= i < |reqs| ==> reqs[i].ReadRequest?
    ensures ConvertLoadToTxnRequests(reqs) == []
  {
    if reqs != [] {
      ConvertOfReads(reqs[1..]);
    }
  }
}
