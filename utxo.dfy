/**
 * Greedy selection of unspent outputs (UTXOs) to fund a payment, with the
 * rough fee estimate of a P2PKH transaction with two outputs.
 */
module Utxo {
  import opened Wrappers

  /** One unspent output as the ledger indexer reports it. */
  datatype Utxo = Utxo(txHash: string, txPos: int, value: int)

  /** What a successful selection returns: the chosen outputs, their value and the fee estimate. */
  datatype Selection = Selection(selected: seq<Utxo>, total: int, estFee: int)

  const InsufficientFunds: string := "Insufficient funds: cannot cover amount + fee"

  /** Estimated size in bytes: 180 per input, 34 per output (two outputs) and 10 of overhead. */
  const InputBytes: int := 180
  const OutputBytes: int := 34
  const Outputs: int := 2
  const OverheadBytes: int := 10

  /** Total value of a sequence of outputs. */
  function Sum(s: seq<Utxo>): int
  {
    if |s| == 0 then 0 else Sum(s[..|s| - 1]) + s[|s| - 1].value
  }

  /** Estimated fee of a transaction spending `inputs` outputs, at `feePerByte` satoshis a byte. */
  function EstFee(inputs: int, feePerByte: int): int
  {
    (inputs * InputBytes + Outputs * OutputBytes + OverheadBytes) * feePerByte
  }

  /** The first `k` outputs cover the target plus the fee of a transaction spending exactly them. */
  predicate Covers(utxos: seq<Utxo>, k: nat, target: int, feePerByte: int)
    requires k <= |utxos|
  {
    Sum(utxos[..k]) >= target + EstFee(k, feePerByte)
  }

  /** Some non-empty prefix of `utxos` covers the target plus its own fee. */
  predicate SomePrefixCovers(utxos: seq<Utxo>, target: int, feePerByte: int)
  {
    exists k :: 1 <= k <= |utxos| && Covers(utxos, k, target, feePerByte)
  }

  /** The selection made of the first `k` outputs. */
  function PrefixSelection(utxos: seq<Utxo>, k: nat, feePerByte: int): Selection
    requires k <= |utxos|
  {
    Selection(utxos[..k], Sum(utxos[..k]), EstFee(k, feePerByte))
  }

  /**
   * Recursive specification of the greedy walk: having found that no prefix
   * shorter than `k` covers, look at the prefix of length `k`.
   */
  function SelectFrom(utxos: seq<Utxo>, target: int, feePerByte: int, k: nat): Result<Selection, string>
    requires 1 <= k
    decreases |utxos| + 1 - k
  {
    if k > |utxos| then Failure(InsufficientFunds)
    else if Covers(utxos, k, target, feePerByte) then Success(PrefixSelection(utxos, k, feePerByte))
    else SelectFrom(utxos, target, feePerByte, k + 1)
  }

  /** The selection the source computes; the fee rate defaults to one satoshi a byte. */
  function Select(utxos: seq<Utxo>, target: int, feePerByte: int := 1): Result<Selection, string>
  {
    SelectFrom(utxos, target, feePerByte, 1)
  }

  lemma SumAppend(s: seq<Utxo>, k: nat)
    requires k < |s|
    ensures Sum(s[..k + 1]) == Sum(s[..k]) + s[k].value
  {
    assert s[..k + 1][..k] == s[..k];
  }

  /**
   * The recursive specification returns the shortest prefix, from `k` on,
   * that covers, and fails exactly when there is none.
   */
  lemma {:induction false} SelectFromIsFirstCover(utxos: seq<Utxo>, target: int, feePerByte: int, k: nat)
    requires 1 <= k
    ensures SelectFrom(utxos, target, feePerByte, k).Success?
        <==> exists j :: k <= j <= |utxos| && Covers(utxos, j, target, feePerByte)
    ensures SelectFrom(utxos, target, feePerByte, k).Failure? ==>
              SelectFrom(utxos, target, feePerByte, k).error == InsufficientFunds
    ensures SelectFrom(utxos, target, feePerByte, k).Success? ==>
              exists n :: k <= n <= |utxos| && Covers(utxos, n, target, feePerByte)
                       && (forall j :: k <= j < n ==> !Covers(utxos, j, target, feePerByte))
                       && SelectFrom(utxos, target, feePerByte, k).value == PrefixSelection(utxos, n, feePerByte)
    decreases |utxos| + 1 - k
  {
    if k > |utxos| {
    } else if Covers(utxos, k, target, feePerByte) {
      assert k <= k <= |utxos| && Covers(utxos, k, target, feePerByte);
    } else {
      SelectFromIsFirstCover(utxos, target, feePerByte, k + 1);
      if SelectFrom(utxos, target, feePerByte, k + 1).Success? {
        var n :| k + 1 <= n <= |utxos| && Covers(utxos, n, target, feePerByte)
               && (forall j :: k + 1 <= j < n ==> !Covers(utxos, j, target, feePerByte))
               && SelectFrom(utxos, target, feePerByte, k + 1).value == PrefixSelection(utxos, n, feePerByte);
        assert forall j :: k <= j < n ==> !Covers(utxos, j, target, feePerByte);
      } else {
        assert forall j :: k <= j <= |utxos| ==> !Covers(utxos, j, target, feePerByte) by {
          forall j | k <= j <= |utxos| ensures !Covers(utxos, j, target, feePerByte) {
            if j > k {
              assert k + 1 <= j <= |utxos|;
            }
          }
        }
      }
    }
  }

  /**
   * The selection is the minimal covering non-empty prefix, and it fails with
   * "Insufficient funds" exactly when no non-empty prefix covers.
   */
  lemma SelectIsMinimalCover(utxos: seq<Utxo>, target: int, feePerByte: int)
    ensures Select(utxos, target, feePerByte).Failure? <==> !SomePrefixCovers(utxos, target, feePerByte)
    ensures Select(utxos, target, feePerByte).Failure? ==>
              Select(utxos, target, feePerByte).error == InsufficientFunds
    ensures Select(utxos, target, feePerByte).Success? ==>
              exists n :: 1 <= n <= |utxos| && Covers(utxos, n, target, feePerByte)
                       && (forall j :: 1 <= j < n ==> !Covers(utxos, j, target, feePerByte))
                       && Select(utxos, target, feePerByte).value == PrefixSelection(utxos, n, feePerByte)
  {
    SelectFromIsFirstCover(utxos, target, feePerByte, 1);
  }

  /** With no outputs at all there is nothing to select: the selector always throws. */
  lemma EmptySelectionFails(target: int, feePerByte: int)
    ensures Select([], target, feePerByte) == Failure(InsufficientFunds)
  {
  }

  /**
   * `pickUTXOs`: walk the outputs in the order given, appending each to the
   * selection, and return at the first prefix whose value covers the target
   * plus the fee estimated for that many inputs.
   */
  method PickUtxos(utxos: seq<Utxo>, targetSatoshis: int, feePerByte: int := 1)
    returns (r: Result<Selection, string>)
    ensures r == Select(utxos, targetSatoshis, feePerByte)
    ensures r.Success? ==>
              && 1 <= |r.value.selected| <= |utxos|
              && r.value.selected == utxos[..|r.value.selected|]
              && r.value.total == Sum(r.value.selected)
              && r.value.estFee == EstFee(|r.value.selected|, feePerByte)
              && r.value.total >= targetSatoshis + r.value.estFee
              && forall k :: 1 <= k < |r.value.selected| ==> !Covers(utxos, k, targetSatoshis, feePerByte)
    ensures r.Failure? ==>
              && r.error == InsufficientFunds
              && forall k :: 1 <= k <= |utxos| ==> !Covers(utxos, k, targetSatoshis, feePerByte)
  {
    var selected: seq<Utxo> := [];
    var total := 0;
    for i := 0 to |utxos|
      invariant selected == utxos[..i]
      invariant total == Sum(selected)
      invariant forall k :: 1 <= k <= i ==> !Covers(utxos, k, targetSatoshis, feePerByte)
      invariant SelectFrom(utxos, targetSatoshis, feePerByte, i + 1) == Select(utxos, targetSatoshis, feePerByte)
    {
      SumAppend(utxos, i);
      selected := selected + [utxos[i]];
      total := total + utxos[i].value;
      assert selected == utxos[..i + 1];
      var estSize := |selected| * InputBytes + Outputs * OutputBytes + OverheadBytes;
      var estFee := estSize * feePerByte;
      if total >= targetSatoshis + estFee {
        return Success(Selection(selected, total, estFee));
      }
    }
    return Failure(InsufficientFunds);
  }

  /**
   * Two outputs of 500 and 700 satoshis do not fund 1000 at one satoshi a byte:
   * two inputs cost 438 bytes of fee and 1200 < 1438.
   */
  lemma TwoSmallOutputsAreInsufficient()
    ensures Select([Utxo("a", 0, 500), Utxo("b", 0, 700)], 1000) == Failure(InsufficientFunds)
  {
    assert [Utxo("a", 0, 500), Utxo("b", 0, 700)][..1] == [Utxo("a", 0, 500)];
    assert [Utxo("a", 0, 500), Utxo("b", 0, 700)][..2] == [Utxo("a", 0, 500), Utxo("b", 0, 700)];
  }
}
