/** The wallet the generators derive accounts from and sign transfers with.
    Key derivation is not modelled: the wallet hands out addresses from a
    counter, so every address it returns is one it never returned before. */
module Wallets {
  import opened TxnTypes

  class Wallet {
    /** Index of the next child key, and so the next address handed out. */
    var nextChild: nat
    /** What signing with this wallet's keys does. */
    const signer: Signer

    constructor (signer: Signer)
      ensures nextChild == 0 && this.signer == signer
    {
      nextChild := 0;
      this.signer := signer;
    }

    /** Derives the next address; addresses never repeat. */
    method NewAddress() returns (address: Address)
      modifies this
      ensures address == old(nextChild)
      ensures nextChild == old(nextChild) + 1
    {
      address := nextChild;
      nextChild := nextChild + 1;
    }
  }
}
