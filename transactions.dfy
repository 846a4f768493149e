/** What the scripts hand to the transaction builder, and the ambient inputs
    (wall-clock time, the wallet's key hash) they read. */
module Transactions {
  import opened PlutusData
  import opened Outcome

  /** An output at the contract address: an inline datum and its lovelace. */
  datatype ContractUtxo = ContractUtxo(datum: Data, lovelace: int)

  /** A transaction as far as the contract sees it: the contract outputs it
      spends, the redeemer they are spent with (none when nothing is spent),
      and the outputs it pays back to the contract address. Fees, change and
      signatures are the builder's business. */
  datatype Tx = Tx(inputs: seq<ContractUtxo>, redeemer: Option<Data>, outputs: seq<ContractUtxo>)

  const SecondsPerDay: int := 24 * 60 * 60

  /** The scripts' key-hash guard `if (!pkh) throw`: a missing hash and an
      empty hex string are both rejected. */
  predicate HasPkh(pkh: Option<ByteString>)
  {
    pkh.Some? && pkh.value != []
  }

  /** Whole seconds since the epoch from a millisecond clock reading, rounded
      down as `Math.floor(ms / 1000)` does for every sign of `ms`. */
  function UnixSeconds(nowMs: int): (t: int)
    ensures t * 1000 <= nowMs < t * 1000 + 1000
  {
    nowMs / 1000
  }
}
