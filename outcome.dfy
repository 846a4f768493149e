/** Option and Result, and the ways a run of one of the scripts can fail. */
module Outcome {

  datatype Option<+T> = None | Some(value: T)

  /** Each failure ends the script in its catch-and-log handler, with no transaction. */
  datatype ScriptError =
    | NoContractUtxo   // the contract address holds no output
    | MissingPkh       // no payment key hash could be derived from the wallet address
    | MalformedDatum   // a datum field is absent or of the wrong kind

  datatype Result<+T> = Success(value: T) | Failure(error: ScriptError)
}
