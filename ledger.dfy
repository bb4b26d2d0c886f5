/** The sales ledger kept under the "sales" key of the device's key-value store:
    a list of records, newest first. */
module Ledger {
  import opened Wrappers
  import opened Sales

  /** The list read back from the store: an absent key reads as the empty list,
      a stored list reads back as it was written. */
  function LedgerOf(item: Option<seq<Sale>>): (r: seq<Sale>)
    ensures item.None? ==> r == []
    ensures item.Some? ==> r == item.value
  {
    item.GetOr([])
  }

  /** Recording one sale: it goes to the head, older records follow in their order. */
  function Prepend(sale: Sale, ledger: seq<Sale>): (r: seq<Sale>)
    ensures |r| == |ledger| + 1 && r[0] == sale
    ensures forall k :: 0 <= k < |ledger| ==> r[k + 1] == ledger[k]
  {
    [sale] + ledger
  }

  /** The ledger after recording `sales` one after another, first to last. */
  function SaveAll(ledger: seq<Sale>, sales: seq<Sale>): (r: seq<Sale>)
    ensures |r| == |ledger| + |sales|
    decreases |sales|
  {
    if sales == [] then ledger
    else Prepend(sales[|sales| - 1], SaveAll(ledger, sales[..|sales| - 1]))
  }

  /** After recording `sales` in order, the ledger lists them newest first,
      followed by the records that were there before, unchanged. */
  lemma {:induction false} SaveAllNewestFirst(ledger: seq<Sale>, sales: seq<Sale>)
    ensures |SaveAll(ledger, sales)| == |sales| + |ledger|
    ensures forall k :: 0 <= k < |sales| ==> SaveAll(ledger, sales)[k] == sales[|sales| - 1 - k]
    ensures forall k :: 0 <= k < |ledger| ==> SaveAll(ledger, sales)[|sales| + k] == ledger[k]
  {
    if sales != [] {
      var front := sales[..|sales| - 1];
      SaveAllNewestFirst(ledger, front);
      var r := SaveAll(ledger, sales);
      assert r == Prepend(sales[|sales| - 1], SaveAll(ledger, front));
      forall k | 0 <= k < |sales|
        ensures r[k] == sales[|sales| - 1 - k]
      {
        if k > 0 {
          assert r[k] == SaveAll(ledger, front)[k - 1];
          assert front[|front| - 1 - (k - 1)] == sales[|sales| - 1 - k];
        }
      }
      forall k | 0 <= k < |ledger|
        ensures r[|sales| + k] == ledger[k]
      {
        assert r[|sales| + k] == SaveAll(ledger, front)[|front| + k];
      }
    }
  }

  /** Recording one batch and then another is recording their concatenation. */
  lemma {:induction false} SaveAllConcat(ledger: seq<Sale>, first: seq<Sale>, rest: seq<Sale>)
    ensures SaveAll(SaveAll(ledger, first), rest) == SaveAll(ledger, first + rest)
    decreases |rest|
  {
    if rest == [] {
      assert first + rest == first;
    } else {
      var front, last := rest[..|rest| - 1], rest[|rest| - 1];
      var all := first + rest;
      assert all != [] && all[..|all| - 1] == first + front && all[|all| - 1] == last;
      SaveAllConcat(ledger, first, front);
      calc {
        SaveAll(SaveAll(ledger, first), rest);
        Prepend(last, SaveAll(SaveAll(ledger, first), front));
        Prepend(last, SaveAll(ledger, first + front));
        SaveAll(ledger, all);
      }
    }
  }

  /** Recording A, B and C into an empty ledger lists them as C, B, A. */
  lemma ThreeSalesNewestFirst(a: Sale, b: Sale, c: Sale)
    ensures SaveAll([], [a, b, c]) == [c, b, a]
  {
    SaveAllNewestFirst([], [a, b, c]);
  }
}
