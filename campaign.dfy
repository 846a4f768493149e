/** The campaign datum: a record of seven positional fields and its codec to and
    from the structured-data tree. Field order is the wire contract with the
    validator. */
module Campaign {
  import opened PlutusData
  import opened Outcome

  /** One contributor entry: a key hash and the cumulative amount it gave. */
  datatype Contribution = Contribution(pkh: ByteString, amount: int)

  datatype CampaignDatum = CampaignDatum(
    owner: ByteString,
    startTime: int,
    endTime: int,
    interestRate: int,
    target: int,
    raised: int,
    contributors: seq<Contribution>)

  /** An entry is written as `Constr 0 [pkh, amount]`. */
  function EncodeContribution(c: Contribution): Data
  {
    Constr(0, [Bytes(c.pkh), Int(c.amount)])
  }

  function EncodeContributions(cs: seq<Contribution>): (xs: seq<Data>)
    ensures |xs| == |cs|
  {
    seq(|cs|, i requires 0 <= i < |cs| => EncodeContribution(cs[i]))
  }

  /** The datum is written as `Constr 0` over the seven fields in record order. */
  function Encode(d: CampaignDatum): (x: Data)
    ensures Canonical(x)
  {
    Constr(0, [Bytes(d.owner), Int(d.startTime), Int(d.endTime), Int(d.interestRate),
               Int(d.target), Int(d.raised), List(EncodeContributions(d.contributors))])
  }

  /** The exact shape the encoder emits. */
  predicate CanonicalContribution(x: Data)
  {
    x.Constr? && x.tag == 0 && |x.fields| == 2 && x.fields[0].Bytes? && x.fields[1].Int?
  }

  predicate Canonical(x: Data)
  {
    && x.Constr? && x.tag == 0 && |x.fields| == 7
    && x.fields[0].Bytes?
    && x.fields[1].Int? && x.fields[2].Int? && x.fields[3].Int? && x.fields[4].Int? && x.fields[5].Int?
    && x.fields[6].List?
    && forall i :: 0 <= i < |x.fields[6].items| ==> CanonicalContribution(x.fields[6].items[i])
  }

  /** Reads an entry the way the merge loop does: field 0 as bytes, field 1 as
      an integer. The constructor tag is not looked at and further fields are
      ignored. */
  function DecodeContribution(x: Data): (r: Option<Contribution>)
    ensures r.Some? ==> x.Constr? && |x.fields| >= 2
                        && x.fields[0] == Bytes(r.value.pkh) && x.fields[1] == Int(r.value.amount)
    ensures x.Constr? && |x.fields| >= 2 && x.fields[0].Bytes? && x.fields[1].Int? ==> r.Some?
  {
    if x.Constr? && |x.fields| >= 2 && x.fields[0].Bytes? && x.fields[1].Int? then
      Some(Contribution(x.fields[0].bytes, x.fields[1].value))
    else
      None
  }

  /** Reads a whole contributor list; one unreadable entry spoils it. */
  function DecodeContributions(xs: seq<Data>): (r: Option<seq<Contribution>>)
    ensures r.Some? ==> |r.value| == |xs|
    ensures r.Some? ==> forall i :: 0 <= i < |xs| ==> DecodeContribution(xs[i]) == Some(r.value[i])
    ensures r.None? ==> exists i :: 0 <= i < |xs| && DecodeContribution(xs[i]).None?
  {
    if xs == [] then Some([])
    else
      match DecodeContribution(xs[0])
      case None => None
      case Some(c) =>
        match DecodeContributions(xs[1..])
        case None => None
        case Some(rest) => Some([c] + rest)
  }

  /** Reads the datum by position: fields 0..6 as bytes, five integers and a
      list. The tag is not looked at and fields past the seventh are ignored;
      an absent field or a field of another kind is a failure. */
  function Decode(x: Data): (r: Result<CampaignDatum>)
    ensures r.Failure? ==> r.error == MalformedDatum
    ensures r.Success? ==>
      && x.Constr? && |x.fields| >= 7
      && x.fields[0] == Bytes(r.value.owner)
      && x.fields[1] == Int(r.value.startTime)
      && x.fields[2] == Int(r.value.endTime)
      && x.fields[3] == Int(r.value.interestRate)
      && x.fields[4] == Int(r.value.target)
      && x.fields[5] == Int(r.value.raised)
      && x.fields[6].List?
      && DecodeContributions(x.fields[6].items) == Some(r.value.contributors)
    ensures
      && x.Constr? && |x.fields| >= 7
      && x.fields[0].Bytes?
      && x.fields[1].Int? && x.fields[2].Int? && x.fields[3].Int? && x.fields[4].Int? && x.fields[5].Int?
      && x.fields[6].List? && DecodeContributions(x.fields[6].items).Some?
      ==> r.Success?
  {
    if && x.Constr? && |x.fields| >= 7
       && x.fields[0].Bytes?
       && x.fields[1].Int? && x.fields[2].Int? && x.fields[3].Int? && x.fields[4].Int? && x.fields[5].Int?
       && x.fields[6].List?
    then
      match DecodeContributions(x.fields[6].items)
      case None => Failure(MalformedDatum)
      case Some(cs) =>
        Success(CampaignDatum(x.fields[0].bytes, x.fields[1].value, x.fields[2].value,
                              x.fields[3].value, x.fields[4].value, x.fields[5].value, cs))
    else
      Failure(MalformedDatum)
  }

  lemma {:induction false} ContributionsRoundTrip(cs: seq<Contribution>)
    ensures DecodeContributions(EncodeContributions(cs)) == Some(cs)
  {
    if cs != [] {
      ContributionsRoundTrip(cs[1..]);
      assert EncodeContributions(cs)[1..] == EncodeContributions(cs[1..]);
      assert [cs[0]] + cs[1..] == cs;
    }
  }

  /** Decoding what was encoded gives back the same record. */
  lemma RoundTrip(d: CampaignDatum)
    ensures Decode(Encode(d)) == Success(d)
  {
    ContributionsRoundTrip(d.contributors);
  }

  lemma {:induction false} CanonicalContributionsRoundTrip(xs: seq<Data>)
    requires forall i :: 0 <= i < |xs| ==> CanonicalContribution(xs[i])
    ensures DecodeContributions(xs).Some?
    ensures EncodeContributions(DecodeContributions(xs).value) == xs
  {
    if xs != [] {
      CanonicalContributionsRoundTrip(xs[1..]);
      var cs := DecodeContributions(xs).value;
      assert forall i :: 0 <= i < |xs| ==> EncodeContributions(cs)[i] == xs[i] by {
        forall i | 0 <= i < |xs| ensures EncodeContributions(cs)[i] == xs[i] {
          assert DecodeContribution(xs[i]) == Some(cs[i]);
        }
      }
    }
  }

  /** On the shape the encoder emits, decoding succeeds and encoding restores
      the tree: the codec is a bijection between records and canonical trees. */
  lemma CanonicalRoundTrip(x: Data)
    requires Canonical(x)
    ensures Decode(x).Success? && Encode(Decode(x).value) == x
  {
    CanonicalContributionsRoundTrip(x.fields[6].items);
  }
}
