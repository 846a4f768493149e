/** The contribute script: spends the campaign output and pays it back with
    the contribution added, the contributor merged into the datum, and a
    redeemer naming the contributor and the time. */
module ContributeScript {
  import opened PlutusData
  import opened Outcome
  import opened Campaign
  import opened Contributors
  import opened Redeemer
  import opened Transactions
  import opened InitializeScript

  /** The script contributes a fixed 1 ADA. */
  const UserContribution: int := 1_000_000

  /** The datum after `user` contributes `amount`: `raised` grows by the
      amount, the contributor list is merged, every other field is copied in
      place. */
  function NextDatum(d: CampaignDatum, user: ByteString, amount: int): (n: CampaignDatum)
    ensures && n.owner == d.owner && n.startTime == d.startTime && n.endTime == d.endTime
            && n.interestRate == d.interestRate && n.target == d.target
    ensures n.raised == d.raised + amount
    ensures n.contributors == Merged(d.contributors, user, amount)
  {
    d.(raised := d.raised + amount, contributors := Merged(d.contributors, user, amount))
  }

  /** A positive contribution keeps the bookkeeping invariant: key hashes stay
      unique, amounts stay positive and `raised` still equals their sum. */
  lemma NextDatumConsistent(d: CampaignDatum, user: ByteString, amount: int)
    requires Consistent(d) && amount > 0
    ensures Consistent(NextDatum(d, user, amount))
  {
    MergedSum(d.contributors, user, amount);
    MergedUnique(d.contributors, user, amount);
    MergedPositive(d.contributors, user, amount);
  }

  /** One contribution in a series of script runs. */
  datatype Step = Step(user: ByteString, amount: int)

  function Replay(d: CampaignDatum, steps: seq<Step>): CampaignDatum
    decreases |steps|
  {
    if steps == [] then d
    else Replay(NextDatum(d, steps[0].user, steps[0].amount), steps[1..])
  }

  function Total(steps: seq<Step>): int
  {
    if steps == [] then 0 else steps[0].amount + Total(steps[1..])
  }

  /** Over any series of positive contributions the invariant holds after
      every run, and `raised` has grown by exactly what was contributed. */
  lemma {:induction false} ReplayConserves(d: CampaignDatum, steps: seq<Step>)
    requires Consistent(d)
    requires forall i :: 0 <= i < |steps| ==> steps[i].amount > 0
    ensures Consistent(Replay(d, steps))
    ensures Replay(d, steps).raised == d.raised + Total(steps)
    ensures Replay(d, steps).(raised := d.raised, contributors := d.contributors) == d
    decreases |steps|
  {
    if steps != [] {
      NextDatumConsistent(d, steps[0].user, steps[0].amount);
      ReplayConserves(NextDatum(d, steps[0].user, steps[0].amount), steps[1..]);
    }
  }

  /** The contribute run. It fails when the contract holds no output, when the
      first output's datum cannot be read, or when the wallet yields no key
      hash. Otherwise it spends the first output with redeemer
      `Constr 0 [time, pkh]` and pays one output back whose datum decodes to
      the merged campaign and whose lovelace grew by the contribution. */
  method Contribute(utxos: seq<ContractUtxo>, userPkh: Option<ByteString>, nowMs: int)
    returns (r: Result<Tx>)
    ensures utxos == [] ==> r == Failure(NoContractUtxo)
    ensures utxos != [] && Decode(utxos[0].datum).Failure? ==> r == Failure(MalformedDatum)
    ensures utxos != [] && Decode(utxos[0].datum).Success? && !HasPkh(userPkh) ==>
      r == Failure(MissingPkh)
    ensures utxos != [] && Decode(utxos[0].datum).Success? && HasPkh(userPkh) ==>
      var previous := Decode(utxos[0].datum).value;
      var next := NextDatum(previous, userPkh.value, UserContribution);
      && r.Success?
      && r.value.inputs == [utxos[0]]
      && r.value.redeemer == Some(Constr(0, [Int(UnixSeconds(nowMs)), Bytes(userPkh.value)]))
      && DecodeAction(r.value.redeemer.value) == Some(UserContribute(UnixSeconds(nowMs), userPkh.value))
      && |r.value.outputs| == 1
      && r.value.outputs[0].lovelace == utxos[0].lovelace + UserContribution
      && Canonical(r.value.outputs[0].datum)
      && Decode(r.value.outputs[0].datum) == Success(next)
      && (LockedMatchesRaised(utxos[0]) ==> LockedMatchesRaised(r.value.outputs[0]))
  {
    if |utxos| == 0 {
      return Failure(NoContractUtxo);
    }
    var spent := utxos[0];
    var previous := Decode(spent.datum);
    if previous.Failure? {
      return Failure(MalformedDatum);
    }
    if !HasPkh(userPkh) {
      return Failure(MissingPkh);
    }
    var user := userPkh.value;
    var redeemer := EncodeAction(UserContribute(UnixSeconds(nowMs), user));
    var d := previous.value;
    var raised := d.raised + UserContribution;
    var contributors := MergeContributors(d.contributors, user, UserContribution);
    var next := CampaignDatum(d.owner, d.startTime, d.endTime, d.interestRate, d.target,
                              raised, contributors);
    var datum := Encode(next);
    RoundTrip(next);
    r := Success(Tx([spent], Some(redeemer), [ContractUtxo(datum, spent.lovelace + UserContribution)]));
  }
}
