/** The admin-claim script: spends the campaign output with the withdraw
    redeemer and pays nothing back to the contract. */
module AdminClaimScript {
  import opened PlutusData
  import opened Outcome
  import opened Campaign
  import opened Redeemer
  import opened Transactions

  /** The redeemer's time is the current time moved eight days ahead. */
  const ClaimOffsetSeconds: int := 8 * SecondsPerDay

  /** The one datum field the claim reads: `raised`, at position 5, as an
      integer. It agrees with the full decoder wherever that succeeds. */
  function ReadRaised(x: Data): (r: Option<int>)
    ensures r.Some? ==> x.Constr? && |x.fields| > 5 && x.fields[5] == Int(r.value)
    ensures Decode(x).Success? ==> r == Some(Decode(x).value.raised)
    ensures x.Constr? && |x.fields| > 5 && x.fields[5].Int? ==> r.Some?
  {
    if x.Constr? && |x.fields| > 5 && x.fields[5].Int? then Some(x.fields[5].value) else None
  }

  /** The claim run. It fails when the contract holds no output, then when the
      wallet yields no key hash, then when `raised` cannot be read. Otherwise
      it spends the first output with redeemer `Constr 2 [now + 8 days]` and
      produces no contract output. */
  function Withdraw(utxos: seq<ContractUtxo>, ownerPkh: Option<ByteString>, nowMs: int): (r: Result<Tx>)
    ensures utxos == [] ==> r == Failure(NoContractUtxo)
    ensures utxos != [] && !HasPkh(ownerPkh) ==> r == Failure(MissingPkh)
    ensures utxos != [] && HasPkh(ownerPkh) && ReadRaised(utxos[0].datum).None? ==>
      r == Failure(MalformedDatum)
    ensures utxos != [] && HasPkh(ownerPkh) && ReadRaised(utxos[0].datum).Some? ==>
      && r.Success?
      && r.value.inputs == [utxos[0]]
      && r.value.outputs == []
      && r.value.redeemer == Some(Constr(2, [Int(UnixSeconds(nowMs) + 691200)]))
      && DecodeAction(r.value.redeemer.value) == Some(OwnerWithdraw(UnixSeconds(nowMs) + 691200))
  {
    if |utxos| == 0 then Failure(NoContractUtxo)
    else if !HasPkh(ownerPkh) then Failure(MissingPkh)
    else if ReadRaised(utxos[0].datum).None? then Failure(MalformedDatum)
    else
      var redeemer := EncodeAction(OwnerWithdraw(UnixSeconds(nowMs) + ClaimOffsetSeconds));
      Success(Tx([utxos[0]], Some(redeemer), []))
  }
}
