/** The contributor ledger: the ordered list of (key hash, cumulative amount)
    entries kept in the datum, and the merge a contribution performs on it. */
module Contributors {
  import opened PlutusData
  import opened Campaign

  /** One entry as the merge loop rewrites it: a matching entry gets the
      contribution added, any other entry is copied unchanged. */
  function Bump(c: Contribution, user: ByteString, amount: int): Contribution
  {
    if c.pkh == user then Contribution(user, c.amount + amount) else c
  }

  /** Every entry rewritten by `Bump`, in the original order. */
  function Bumped(cs: seq<Contribution>, user: ByteString, amount: int): (r: seq<Contribution>)
    ensures |r| == |cs|
    ensures forall i :: 0 <= i < |cs| ==> r[i] == Bump(cs[i], user, amount)
  {
    if cs == [] then [] else [Bump(cs[0], user, amount)] + Bumped(cs[1..], user, amount)
  }

  predicate Contains(cs: seq<Contribution>, user: ByteString)
  {
    exists i :: 0 <= i < |cs| && cs[i].pkh == user
  }

  /** The list a contribution leaves behind. If the contributor is already
      listed, every entry with its key hash grows by the amount and all other
      entries keep their place and value; otherwise a fresh entry is put at the
      head, since the validator's list push conses to the front. */
  function Merged(cs: seq<Contribution>, user: ByteString, amount: int): (r: seq<Contribution>)
    ensures Contains(cs, user) ==>
      && |r| == |cs|
      && forall i :: 0 <= i < |cs| ==>
           && r[i].pkh == cs[i].pkh
           && r[i].amount == (if cs[i].pkh == user then cs[i].amount + amount else cs[i].amount)
    ensures !Contains(cs, user) ==>
      && |r| == |cs| + 1
      && r[0] == Contribution(user, amount)
      && r[1..] == cs
  {
    if Contains(cs, user) then Bumped(cs, user, amount) else [Contribution(user, amount)] + cs
  }

  /** The merge loop: walks the list once, pushing each entry (bumped when it
      matches) onto a fresh list and remembering whether any matched; when none
      did, the new entry is prepended afterwards. */
  method MergeContributors(previous: seq<Contribution>, user: ByteString, amount: int)
    returns (next: seq<Contribution>)
    ensures next == Merged(previous, user, amount)
  {
    next := [];
    var isExist := false;
    for i := 0 to |previous|
      invariant |next| == i
      invariant forall k :: 0 <= k < i ==> next[k] == Bump(previous[k], user, amount)
      invariant isExist <==> exists k :: 0 <= k < i && previous[k].pkh == user
    {
      if previous[i].pkh == user {
        isExist := true;
        next := next + [Contribution(user, previous[i].amount + amount)];
      } else {
        next := next + [previous[i]];
      }
    }
    if !isExist {
      assert next == previous;
      next := [Contribution(user, amount)] + next;
    } else {
      assert next == Bumped(previous, user, amount);
    }
  }

  /** The sum of all entry amounts. */
  function Sum(cs: seq<Contribution>): int
  {
    if cs == [] then 0 else cs[0].amount + Sum(cs[1..])
  }

  /** How many entries carry the key hash `user`. */
  function Count(cs: seq<Contribution>, user: ByteString): nat
  {
    if cs == [] then 0 else (if cs[0].pkh == user then 1 else 0) + Count(cs[1..], user)
  }

  predicate Unique(cs: seq<Contribution>)
  {
    forall i, j :: 0 <= i < j < |cs| ==> cs[i].pkh != cs[j].pkh
  }

  predicate AllPositive(cs: seq<Contribution>)
  {
    forall i :: 0 <= i < |cs| ==> cs[i].amount > 0
  }

  /** The datum's bookkeeping invariant: a real window, one entry per
      contributor, positive amounts, and `raised` equal to their sum. */
  predicate Consistent(d: CampaignDatum)
  {
    && d.startTime < d.endTime
    && Unique(d.contributors)
    && AllPositive(d.contributors)
    && d.raised == Sum(d.contributors)
  }

  lemma {:induction false} CountContains(cs: seq<Contribution>, user: ByteString)
    ensures Contains(cs, user) <==> Count(cs, user) > 0
  {
    if cs != [] {
      CountContains(cs[1..], user);
      if Contains(cs[1..], user) {
        var i :| 0 <= i < |cs[1..]| && cs[1..][i].pkh == user;
        assert cs[i + 1].pkh == user;
      }
      if Contains(cs, user) && cs[0].pkh != user {
        var i :| 0 <= i < |cs| && cs[i].pkh == user;
        assert cs[1..][i - 1].pkh == user;
      }
    }
  }

  /** With unique key hashes a contributor is listed at most once. */
  lemma {:induction false} CountUnique(cs: seq<Contribution>, user: ByteString)
    requires Unique(cs)
    ensures Count(cs, user) <= 1
  {
    if cs != [] {
      CountUnique(cs[1..], user);
      if cs[0].pkh == user {
        CountContains(cs[1..], user);
        assert forall i :: 1 <= i < |cs| ==> cs[i].pkh != cs[0].pkh;
        assert !Contains(cs[1..], user);
      }
    }
  }

  /** Bumping adds the amount once per matching entry, so with duplicate key
      hashes the total grows by a multiple of the contribution. */
  lemma {:induction false} SumBumped(cs: seq<Contribution>, user: ByteString, amount: int)
    ensures Sum(Bumped(cs, user, amount)) == Sum(cs) + amount * Count(cs, user)
  {
    if cs != [] {
      var r := Bumped(cs, user, amount);
      assert r[1..] == Bumped(cs[1..], user, amount);
      SumBumped(cs[1..], user, amount);
      var c := if cs[0].pkh == user then 1 else 0;
      assert amount * (c + Count(cs[1..], user)) == amount * c + amount * Count(cs[1..], user);
    }
  }

  /** A contribution raises the sum of the entries by exactly its amount when
      key hashes are unique. */
  lemma MergedSum(cs: seq<Contribution>, user: ByteString, amount: int)
    requires Unique(cs)
    ensures Sum(Merged(cs, user, amount)) == Sum(cs) + amount
  {
    if Contains(cs, user) {
      CountContains(cs, user);
      CountUnique(cs, user);
      SumBumped(cs, user, amount);
    } else {
      var r := Merged(cs, user, amount);
      assert r[1..] == cs;
    }
  }

  /** The merge never duplicates a key hash, and after it the contributor is
      listed exactly once. */
  lemma MergedUnique(cs: seq<Contribution>, user: ByteString, amount: int)
    requires Unique(cs)
    ensures Unique(Merged(cs, user, amount))
    ensures Count(Merged(cs, user, amount), user) == 1
  {
    var r := Merged(cs, user, amount);
    if !Contains(cs, user) {
      forall i, j | 0 <= i < j < |r| ensures r[i].pkh != r[j].pkh {
        if i == 0 {
          assert r[j].pkh == cs[j - 1].pkh;
        } else {
          assert r[i].pkh == cs[i - 1].pkh && r[j].pkh == cs[j - 1].pkh;
        }
      }
    }
    CountContains(r, user);
    CountUnique(r, user);
    assert Contains(r, user) by {
      if Contains(cs, user) {
        var i :| 0 <= i < |cs| && cs[i].pkh == user;
        assert r[i].pkh == user;
      } else {
        assert r[0].pkh == user;
      }
    }
  }

  lemma MergedPositive(cs: seq<Contribution>, user: ByteString, amount: int)
    requires AllPositive(cs) && amount > 0
    ensures AllPositive(Merged(cs, user, amount))
  {
  }

  lemma {:induction false} BumpedTwice(cs: seq<Contribution>, user: ByteString, a: int, b: int)
    ensures Bumped(Bumped(cs, user, a), user, b) == Bumped(cs, user, a + b)
  {
    var lhs := Bumped(Bumped(cs, user, a), user, b);
    var rhs := Bumped(cs, user, a + b);
    forall i | 0 <= i < |cs| ensures lhs[i] == rhs[i] {
    }
  }

  /** Contributing `a` and then `b` from one key hash leaves the same list as
      contributing `a + b` once: a single entry, never two. */
  lemma MergeTwice(cs: seq<Contribution>, user: ByteString, a: int, b: int)
    ensures Merged(Merged(cs, user, a), user, b) == Merged(cs, user, a + b)
  {
    var once := Merged(cs, user, a);
    assert Contains(once, user) by {
      if Contains(cs, user) {
        var i :| 0 <= i < |cs| && cs[i].pkh == user;
        assert once[i].pkh == user;
      } else {
        assert once[0].pkh == user;
      }
    }
    if Contains(cs, user) {
      BumpedTwice(cs, user, a, b);
    } else {
      var twice := Merged(once, user, b);
      var target := Merged(cs, user, a + b);
      assert |twice| == |target|;
      forall i | 0 <= i < |twice| ensures twice[i] == target[i] {
        if i > 0 {
          assert once[i] == cs[i - 1];
        }
      }
    }
  }
}
