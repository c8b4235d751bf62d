/** The part of the ledger the contracts act on: asset balances per account,
    and the asset transfers their inner transactions submit. */
module AssetLedger {
  import opened Common

  /** The balances after `amount` units of `asset` go from `from` to `to`. */
  function Move(b: Balances, asset: AssetId, from: Address, to: Address, amount: nat): (r: Balances)
    requires BalanceOf(b, from, asset) >= amount
    ensures from != to ==>
      && BalanceOf(r, from, asset) == BalanceOf(b, from, asset) - amount
      && BalanceOf(r, to, asset) == BalanceOf(b, to, asset) + amount
    ensures from == to ==> BalanceOf(r, from, asset) == BalanceOf(b, from, asset)
    ensures forall who: Address, a: AssetId :: (who, a) != (from, asset) && (who, a) != (to, asset) ==>
      BalanceOf(r, who, a) == BalanceOf(b, who, a)
  {
    if from == to then b
    else b[(from, asset) := BalanceOf(b, from, asset) - amount][(to, asset) := BalanceOf(b, to, asset) + amount]
  }

  /** A transfer creates and destroys nothing: the sum of all balances is kept. */
  lemma MoveConservesSupply(b: Balances, asset: AssetId, from: Address, to: Address, amount: nat)
    requires BalanceOf(b, from, asset) >= amount
    ensures SumValues(Move(b, asset, from, to, amount)) == SumValues(b)
  {
    if from != to {
      var x, y := BalanceOf(b, from, asset), BalanceOf(b, to, asset);
      var b1 := b[(from, asset) := x - amount];
      SumValuesUpdate(b, (from, asset), x - amount);
      assert Lookup(b, (from, asset)) == x;
      SumValuesUpdate(b1, (to, asset), y + amount);
      assert Lookup(b1, (to, asset)) == y;
    }
  }

  /** The ledger's asset balances, changed by the transfers submitted to it. */
  class Ledger {
    var balances: Balances

    constructor (initial: Balances)
      ensures balances == initial
    {
      balances := initial;
    }

    /** An asset transfer (an inner `AssetTransfer` transaction): it fails, and
        changes nothing, when the sender holds less than `amount`. */
    method AssetTransfer(asset: AssetId, from: Address, to: Address, amount: nat) returns (ok: bool)
      modifies this
      ensures ok <==> BalanceOf(old(balances), from, asset) >= amount
      ensures ok ==> balances == Move(old(balances), asset, from, to, amount)
      ensures !ok ==> balances == old(balances)
    {
      if BalanceOf(balances, from, asset) < amount {
        return false;
      }
      balances := Move(balances, asset, from, to, amount);
      return true;
    }
  }
}
