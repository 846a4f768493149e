/** The initialize script: builds the first campaign datum and locks it at the
    contract address with a fixed amount of lovelace. */
module InitializeScript {
  import opened PlutusData
  import opened Outcome
  import opened Campaign
  import opened Contributors
  import opened Transactions

  const CampaignSeconds: int := 7 * SecondsPerDay
  const InterestRate: int := 5
  const TargetAmount: int := 5_000_000
  /** Lovelace locked with the datum: the minimum an output must hold, not the target. */
  const InitialLovelace: int := 2_000_000

  /** A fresh campaign owned by `admin`, open for seven days from `startTime`. */
  function InitialDatum(admin: ByteString, startTime: int): (d: CampaignDatum)
    ensures d.owner == admin && d.startTime == startTime
    ensures d.endTime == startTime + 604800
    ensures d.raised == 0 && d.contributors == []
    ensures Consistent(d)
  {
    CampaignDatum(admin, startTime, startTime + CampaignSeconds, InterestRate, TargetAmount, 0, [])
  }

  /** The lovelace at a contract output is the initial deposit plus what the
      datum says was raised. */
  predicate LockedMatchesRaised(u: ContractUtxo)
  {
    Decode(u.datum).Success? && u.lovelace == InitialLovelace + Decode(u.datum).value.raised
  }

  /** The initialize run: fails without an admin key hash; otherwise one
      output to the contract, spending nothing, whose datum is the seven-field
      `Constr 0` of the initial campaign and whose value is 2 ADA. */
  function Initialize(adminPkh: Option<ByteString>, nowMs: int): (r: Result<Tx>)
    ensures !HasPkh(adminPkh) ==> r == Failure(MissingPkh)
    ensures HasPkh(adminPkh) ==>
      var t := UnixSeconds(nowMs);
      r == Success(Tx([], None, [ContractUtxo(
             Constr(0, [Bytes(adminPkh.value), Int(t), Int(t + 604800), Int(5),
                        Int(5_000_000), Int(0), List([])]),
             2_000_000)]))
    ensures r.Success? ==>
      && Decode(r.value.outputs[0].datum) == Success(InitialDatum(adminPkh.value, UnixSeconds(nowMs)))
      && LockedMatchesRaised(r.value.outputs[0])
  {
    if !HasPkh(adminPkh) then Failure(MissingPkh)
    else
      var d := InitialDatum(adminPkh.value, UnixSeconds(nowMs));
      RoundTrip(d);
      Success(Tx([], None, [ContractUtxo(Encode(d), InitialLovelace)]))
  }
}
