/** Small shared vocabulary: optional values, results of calls that can fail,
    the ledger's asset-balance map and sums over maps. */
module Common {

  datatype Option<+T> = None | Some(value: T) {
    function GetOr(default: T): T {
      match this
      case Some(v) => v
      case None => default
    }
  }

  /** The outcome of a call that either completes with a value or fails with a message
      (a thrown exception on the frontend, an aborted transaction on a contract). */
  datatype Result<+T> = Ok(value: T) | Fail(msg: string)

  /** An account address on the ledger. */
  type Address = string

  /** A ledger asset identifier; 0 is never a real asset and is used as "not configured". */
  type AssetId = nat

  /** Abstract view of the ledger's asset holdings; an absent entry holds nothing. */
  type Balances = map<(Address, AssetId), nat>

  const MaxUInt64: nat := 0xFFFF_FFFF_FFFF_FFFF

  /** The contracts' 64-bit unsigned integer; arithmetic that leaves the range
      aborts the call instead of wrapping. */
  type UInt64 = x: nat | x <= MaxUInt64

  /** The abort message of an `assert` written without message text. */
  const AssertFailed: string := "assert failed"

  /** The abort of an addition whose result does not fit in 64 bits. */
  const Overflow: string := "+ overflowed"

  function BalanceOf(ledger: Balances, who: Address, asset: AssetId): nat {
    if (who, asset) in ledger then ledger[(who, asset)] else 0
  }

  /** The sum of all values of a map. */
  ghost function SumValues<K>(m: map<K, nat>): nat
    decreases |m|
  {
    if m == map[] then 0
    else
      var k :| k in m;
      m[k] + SumValues(m - {k})
  }

  /** The value stored under `k`, 0 when the key is absent. */
  function Lookup<K>(m: map<K, nat>, k: K): nat {
    if k in m then m[k] else 0
  }

  /** The sum does not depend on which key is taken out first. */
  lemma {:induction false} SumValuesRemove<K>(m: map<K, nat>, k: K)
    requires k in m
    ensures SumValues(m) == m[k] + SumValues(m - {k})
    decreases |m|
  {
    var j :| j in m && SumValues(m) == m[j] + SumValues(m - {j});
    if j != k {
      var mj, mk := m - {j}, m - {k};
      assert k in mj && j in mk;
      assert |mj| < |m| by { assert mj.Keys == m.Keys - {j}; }
      assert |mk| < |m| by { assert mk.Keys == m.Keys - {k}; }
      SumValuesRemove(mj, k);
      SumValuesRemove(mk, j);
      assert mj - {k} == mk - {j};
    }
  }

  /** Every value is bounded by the sum. */
  lemma ValueAtMostSum<K>(m: map<K, nat>, k: K)
    requires k in m
    ensures m[k] <= SumValues(m)
  {
    SumValuesRemove(m, k);
  }

  /** Overwriting one entry changes the sum by the difference of the two values. */
  lemma SumValuesUpdate<K>(m: map<K, nat>, k: K, v: nat)
    ensures SumValues(m[k := v]) + Lookup(m, k) == SumValues(m) + v
  {
    var m' := m[k := v];
    SumValuesRemove(m', k);
    assert m' - {k} == m - {k};
    if k in m {
      SumValuesRemove(m, k);
    } else {
      assert m - {k} == m;
    }
  }
}
