/** Redeemers: the tagged evidence a spending transaction hands the on-chain script.
    The scripts build two of them, distinguished by constructor tag. */
module Redeemer {
  import opened PlutusData
  import opened Outcome

  datatype Action =
    | UserContribute(time: int, user: ByteString)   // tag 0: [time, contributor key hash]
    | OwnerWithdraw(time: int)                      // tag 2: [time]

  function EncodeAction(a: Action): (d: Data)
    ensures DecodeAction(d) == Some(a)
  {
    match a
    case UserContribute(t, u) => Constr(0, [Int(t), Bytes(u)])
    case OwnerWithdraw(t) => Constr(2, [Int(t)])
  }

  /** The inverse of `EncodeAction`: the tag picks the action, and the field
      list must have that action's arity and kinds. */
  function DecodeAction(d: Data): (r: Option<Action>)
  {
    if d.Constr? && d.tag == 0 && |d.fields| == 2 && d.fields[0].Int? && d.fields[1].Bytes? then
      Some(UserContribute(d.fields[0].value, d.fields[1].bytes))
    else if d.Constr? && d.tag == 2 && |d.fields| == 1 && d.fields[0].Int? then
      Some(OwnerWithdraw(d.fields[0].value))
    else
      None
  }

  /** Every tree `DecodeAction` reads is the encoding of the action it reads,
      so each action has exactly one encoding. */
  lemma DecodeActionCanonical(d: Data)
    requires DecodeAction(d).Some?
    ensures EncodeAction(DecodeAction(d).value) == d
  {
  }
}
