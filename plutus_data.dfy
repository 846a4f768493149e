/** The on-chain structured-data tree that datums and redeemers are written in.
    Only the shapes the campaign scripts build or read are modelled; the CBOR
    bytes a serialiser would produce from a tree are not. */
module PlutusData {

  /** A public-key hash or any other byte string. The scripts carry these as
      lower-case hex text; the model keeps the bytes the text denotes. */
  type ByteString = seq<bv8>

  datatype Data =
    | Constr(tag: nat, fields: seq<Data>)
    | Int(value: int)
    | Bytes(bytes: ByteString)
    | List(items: seq<Data>)
}
