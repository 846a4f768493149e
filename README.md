# Crowdfunding campaign scripts: a Dafny model

Three Node scripts drive an on-chain crowdfunding validator on Cardano:

- `scripts/1-initialize.js` locks the first campaign datum at the contract address.
- `scripts/2-user-contribute.js` spends that output and pays it back with one contribution merged in.
- `scripts/3-admin-claim.js` spends it with the withdraw redeemer and pays nothing back to the contract.

Most of each script is wallet and network glue. This project models the deterministic core inside that glue and proves its properties:

- the seven-field campaign datum and its codec;
- the contributor merge loop;
- the redeemers;
- the transaction each script asks the builder for.

Files, one module each:

- `plutus_data.dfy`: the structured-data tree `Constr | Int | Bytes | List`.
- `outcome.dfy`: `Option`, `Result` and the three ways a run fails.
- `campaign.dfy`: the datum record `CampaignDatum` (owner, start, end, interest rate, target, raised, contributors) with `Encode`/`Decode` and both round trips.
- `contributors.dfy`: the contributor ledger. This holds the imperative merge loop `MergeContributors`, proved against the functional `Merged`, plus the sum, uniqueness and merge-twice lemmas.
- `redeemer.dfy`: the two redeemers as a tagged variant, with encoder and decoder.
- `transactions.dfy`: contract outputs, the transaction shape, the key-hash guard and the clock rounding.
- `initialize.dfy`, `user_contribute.dfy`, `admin_claim.dfy`: one module per script.

Ambient inputs are parameters:

- The clock `Date.now()` is `nowMs`.
- The key hash from `getAddressDetails(...).paymentCredential?.hash` is an `Option<ByteString>`.
- The contract's UTxO list is a `seq<ContractUtxo>`.

Hex strings are modelled as the bytes they denote. Both the wallet library and the chain index emit lower-case hex, so string equality is byte equality.

Points where the scripts' behaviour is easy to misread:

- **Duplicate contributors.** The merge loop adds the contribution to every entry whose key hash matches, not only the first. The sum invariant is therefore proved under a uniqueness precondition. `SumBumped` gives the general total: the old sum plus the amount times the number of matches.
- **Decoding.** The decoder does not look at the constructor tag and ignores fields past the seventh. The script reads `fields[i]` positionally and checks neither.
- **No guards in the scripts.** None of the three scripts checks the contribution window, the amount, the owner or a grace period, so the model adds no such checks.
- **Withdraw timestamp.** The withdraw timestamp is the current time plus eight days.
- **Withdraw redeemer fields.** The comment at `scripts/3-admin-claim.js:44` names two fields, a time and the owner address. The code at `:47` sends only the time. The model follows `:47`: `Constr 2` with one field.
- **Fixed parameters.** Initialize uses fixed parameters: interest 5, target 5 000 000, window 604 800 s, deposit 2 000 000. It has no failure cases beyond the missing key hash.

## Model

| member | source | states |
|---|---|---|
| `Campaign.Encode` | scripts/2-user-contribute.js:128-138 | the datum is written as `Constr 0` with exactly seven fields: bytes, five integers, and a list of `Constr 0 [bytes, int]` entries |
| `Campaign.DecodeContribution` | scripts/2-user-contribute.js:100-112 | an entry read successfully has its key hash at field 0 and its amount at field 1; conversely every `Constr` with bytes at 0 and an integer at 1 is read, whatever its tag and however many further fields it has |
| `Campaign.DecodeContributions` | scripts/2-user-contribute.js:99-116 | a list read successfully has one entry per element, each the element's reading; a failure means some element is unreadable |
| `Campaign.Decode` | scripts/2-user-contribute.js:44-62 | a successful read takes owner, start, end, interest, target and raised from positions 0..5 with kinds bytes, int, int, int, int, int, and the contributors from the list at 6; every failure is `MalformedDatum`; conversely every `Constr` of any tag with at least seven fields of those kinds and a readable list at 6 is read |
| `Campaign.RoundTrip` | scripts/2-user-contribute.js:128-138 | decoding the encoding of any record returns that record |
| `Campaign.CanonicalRoundTrip` | scripts/2-user-contribute.js:44-62 | every tree of the encoder's shape decodes, and re-encoding restores it, so the codec is a bijection on that shape |
| `Contributors.Bumped` | scripts/2-user-contribute.js:99-116 | the loop's pass keeps length and order, adds the amount to each matching entry and copies the others |
| `Contributors.Merged` | scripts/2-user-contribute.js:96-124 | for a listed contributor: same length, same key hashes in order, matching amounts grown by the contribution, others unchanged. For a new one: the fresh entry at the head, then the old list unchanged, length plus one |
| `Contributors.MergeContributors` | scripts/2-user-contribute.js:96-124 | the `forEach` loop with the `isExist` flag and the head insertion computes exactly `Merged` |
| `Contributors.SumBumped` | scripts/2-user-contribute.js:99-116 | the pass raises the total by the amount once per matching entry |
| `Contributors.CountUnique` | scripts/2-user-contribute.js:99-116 | with unique key hashes a contributor matches at most one entry |
| `Contributors.MergedSum` | scripts/2-user-contribute.js:93-124 | with unique key hashes the merge raises the entry total by exactly the contribution, as line 93 raises `raised` |
| `Contributors.MergedUnique` | scripts/2-user-contribute.js:118-124 | the merge keeps key hashes unique and leaves the contributor listed exactly once |
| `Contributors.MergedPositive` | scripts/2-user-contribute.js:99-124 | a positive contribution keeps every amount positive |
| `Contributors.MergeTwice` | scripts/2-user-contribute.js:99-124 | two contributions `a` then `b` by one key hash leave the same list as one contribution of `a + b` |
| `Redeemer.EncodeAction` | scripts/2-user-contribute.js:87-89 | the contribute redeemer `Constr 0 [time, pkh]` and the withdraw redeemer `Constr 2 [time]` decode back to their actions |
| `Redeemer.DecodeActionCanonical` | scripts/3-admin-claim.js:44-47 | every tree the inverse of the redeemer encoder reads is the encoding of the action it reads |
| `Transactions.UnixSeconds` | scripts/2-user-contribute.js:85 | the timestamp is the millisecond clock divided by 1000 and rounded down |
| `InitializeScript.InitialDatum` | scripts/1-initialize.js:27-32 | the fresh datum has the admin as owner, end = start + 604800 (so start < end), raised 0, no contributors, and satisfies the bookkeeping invariant |
| `InitializeScript.Initialize` | scripts/1-initialize.js:17-50 | fails with `MissingPkh` without an admin key hash. Otherwise it spends nothing and pays one contract output: the seven-field `Constr 0 [admin, t, t+604800, 5, 5000000, 0, []]` with 2 000 000 lovelace, independent of the target. That output decodes to the initial datum and its lovelace equals deposit plus raised |
| `ContributeScript.NextDatum` | scripts/2-user-contribute.js:128-138 | owner, start, end, interest and target are copied; raised grows by the contribution; contributors are merged |
| `ContributeScript.NextDatumConsistent` | scripts/2-user-contribute.js:93-124 | a positive contribution preserves uniqueness, positivity and raised = sum of entries |
| `ContributeScript.ReplayConserves` | scripts/2-user-contribute.js:93-138 | over any series of positive contributions the invariant holds, raised grows by exactly their total, and owner, start, end, interest and target are unchanged |
| `ContributeScript.Contribute` | scripts/2-user-contribute.js:37-153 | fails with no contract output, then with an unreadable datum, then without a key hash. Otherwise it spends the first output with `Constr 0 [time, pkh]` and pays one canonical output back, which decodes to `NextDatum` with lovelace grown by the contribution (value conservation), so deposit + raised = lovelace is preserved |
| `AdminClaimScript.ReadRaised` | scripts/3-admin-claim.js:41 | reads `raised` from position 5 as an integer, agreeing with the full decoder; conversely any `Constr` with an integer at position 5 is read, even one with fewer than seven fields |
| `AdminClaimScript.Withdraw` | scripts/3-admin-claim.js:25-56 | fails with no contract output, then without an owner key hash, then with an unreadable `raised`. Otherwise it spends the first output with `Constr 2 [now + 691200]` (one field) and produces no contract output |

## Left out

- Network and wallet access is not modelled: Blockfrost and Lucid setup, UTxO fetching, transaction building, balancing, signing and submission. The model returns the spent outputs, the redeemer and the contract outputs the builder is asked for.
- The two UTxO fetches are treated as one. Contribute and claim read the datum through one API and the spendable output through another, and take the first of each. The model assumes both name the same first output.
- Signers are not modelled: `addSigner` takes an address, and address parsing is foreign code. Change outputs and fees are not modelled either.
- Byte-level CBOR from `Data.to` and the JSON layout of the chain index's `json_value` are not modelled. The datum is modelled as a structured-data tree.
- Numbers the chain index returns as JavaScript numbers beyond 2^53 lose precision before `BigInt` sees them. The model uses unbounded integers.
- Contribute: the error kind is approximate when two failures coincide. In the script, two kinds of fault surface only after the key-hash check at `scripts/2-user-contribute.js:78`. One is a wrong field kind that shows only when `BigInt` or `Data.to` runs. The other is a malformed contributor entry, such as one with no `.fields` at `:100`, which throws inside the loop. The model reports `MalformedDatum` before `MissingPkh`; either way the run submits nothing.
- Contribute: the model assumes `Data.to` rejects `undefined` values. One comes from an owner field that is not bytes (`scripts/2-user-contribute.js:44`, `:130`). Another comes from a contributor entry whose key is not bytes, which `:111` pushes as `undefined`; `DecodeContribution` rejects that entry.
- The catch-and-log error handling and all console output are not modelled.
- The trailing UTxO refetch in `scripts/1-initialize.js:56-59` is not modelled; it has no effect on the result.
