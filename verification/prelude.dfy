/** The coin helpers of the core crate's prelude (`prelude.rs`). The `AnyClient` enum lives
    with the signing client, in the `Signing` module. */
module Prelude {
  import opened Wrappers
  import opened Text

  /** `cosmos.base.v1beta1.Coin`: a decimal amount string and a denomination. */
  datatype Coin = Coin(denom: string, amount: string)

  /** `new_coin`: the amount's and the denomination's `to_string`. */
  function NewCoin(amount: nat, denom: string): (r: Coin)
    ensures r.denom == denom
    ensures |r.amount| >= 1 && (r.amount == "0" <==> amount == 0)
  {
    Coin(denom, NatToString(amount))
  }

  /** The amount of a coin made by `new_coin` reads back as the same `u128`. */
  lemma {:induction false} NewCoinAmountRoundTrip(amount: nat, denom: string)
    requires amount < U128_LIMIT
    ensures ParseUnsigned(NewCoin(amount, denom).amount, U128_LIMIT) == Some(amount)
  {
    ParseNatToString(amount, U128_LIMIT);
  }

  /** `new_coins`: one coin per (amount, denomination) pair, in order. */
  function NewCoins(pairs: seq<(nat, string)>): (r: seq<Coin>)
    ensures |r| == |pairs|
    ensures forall i :: 0 <= i < |r| ==> r[i] == NewCoin(pairs[i].0, pairs[i].1)
  {
    seq(|pairs|, i requires 0 <= i < |pairs| => NewCoin(pairs[i].0, pairs[i].1))
  }
}
