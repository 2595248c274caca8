/** The values the transaction generator builds and passes around:
    accounts, programs, raw and signed transactions, and load requests. */
module TxnTypes {

  /** The amount of coins minted to every generated account. */
  const FREE_LUNCH: nat := 1_000_000

  /** An account address. The wallet hands them out from a counter, so an
      address is modelled by a natural number. */
  type Address = nat

  /** What the client library knows about an account. The generator only
      ever creates `Local` accounts. */
  datatype AccountStatus = Local | Persisted | Unknown

  /** A raw, unsigned transaction: sender, sequence number and program.
      Gas limit, gas price and expiration are constants passed through to the
      signer and are not part of the model. */
  datatype RawTxn = RawTxn(sender: Address, seqNum: nat, program: Program)

  /** The two Move programs the generator encodes; their bytecode is opaque. */
  datatype Program =
    | Mint(receiver: Address, amount: nat)
    | Transfer(receiver: Address, amount: nat)

  /** Signing, as seen from the generator: for each raw transaction the
      signer either succeeds or fails. Cryptography is not modelled. */
  type Signer = RawTxn -> bool

  /** A key pair is modelled by the signing it performs. */
  datatype KeyPair = KeyPair(sign: Signer)

  /** A client-side account record. */
  datatype AccountData = AccountData(
    address: Address,
    keyPair: Option<KeyPair>,
    seqNum: nat,
    status: AccountStatus)

  datatype Option<+T> = None | Some(value: T)

  datatype Result<+T, +E> = Ok(value: T) | Err(error: E)

  /** A signed transaction; the signature itself is opaque, so it carries
      exactly the raw transaction that was signed. */
  datatype SignedTxn = SignedTxn(raw: RawTxn)

  /** The error `create_signed_txn` reports: the raw transaction it could not sign. */
  datatype SignError = SignError(raw: RawTxn)

  /** Admission control's submit request wrapping one signed transaction. */
  datatype SubmitTxnRequest = SubmitTxnRequest(signedTxn: SignedTxn)

  /** Query for the latest ledger state; its requested items are not modelled. */
  datatype LedgerRequest = LedgerRequest(clientKnownVersion: nat)

  /** Unifies the write and read requests a load generator produces. */
  datatype LoadRequest =
    | WriteRequest(submit: SubmitTxnRequest)
    | ReadRequest(query: LedgerRequest)

  /** The write request that carries `sender`'s transaction number `seqNum` running `program`. */
  function WriteOf(sender: Address, seqNum: nat, program: Program): LoadRequest
  {
    WriteRequest(SubmitTxnRequest(SignedTxn(RawTxn(sender, seqNum, program))))
  }

  /** A freshly generated account: no key pair, sequence number 0, status Local. */
  function NewAccount(address: Address): AccountData
  {
    AccountData(address, None, 0, Local)
  }

  /** The addresses of `accounts`, in order. */
  function Addresses(accounts: seq<AccountData>): (r: seq<Address>)
    ensures |r| == |accounts|
    ensures forall i :: 0 <= i < |r| ==> r[i] == accounts[i].address
  {
    seq(|accounts|, i requires 0 <= i < |accounts| => accounts[i].address)
  }
}
