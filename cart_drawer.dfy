/**
 * What the cart drawer (components/CartDrawer.tsx) derives from the
 * ordered list of items it is given: the subtotal, the header count, the
 * empty state, one row per item with its key and remove index, and
 * whether checkout is enabled. The drawer holds no state; the list and
 * its add/remove operations belong to its owner.
 */
module CartDrawer {
  import opened Types
  import opened Strings

  /** `items.reduce((sum, item) => sum + item.price, acc)`: a left fold. */
  function FoldPrices(acc: int, items: seq<Product>): int
    decreases |items|
  {
    if items == [] then acc else FoldPrices(acc + items[0].price, items[1..])
  }

  /** `total`: the fold started from 0. */
  function Total(items: seq<Product>): int {
    FoldPrices(0, items)
  }

  /** Reference definition: the sum of the prices, last item added last. */
  function SumPrices(items: seq<Product>): int {
    if items == [] then 0 else SumPrices(items[..|items| - 1]) + items[|items| - 1].price
  }

  lemma {:induction false} SumPricesPrepend(p: Product, items: seq<Product>)
    ensures SumPrices([p] + items) == p.price + SumPrices(items)
  {
    if items != [] {
      var all := [p] + items;
      assert all[..|all| - 1] == [p] + items[..|items| - 1];
      SumPricesPrepend(p, items[..|items| - 1]);
    }
  }

  /** The fold from `acc` adds the sum of the prices to `acc`. */
  lemma {:induction false} FoldIsSum(acc: int, items: seq<Product>)
    ensures FoldPrices(acc, items) == acc + SumPrices(items)
    decreases |items|
  {
    if items != [] {
      FoldIsSum(acc + items[0].price, items[1..]);
      SumPricesPrepend(items[0], items[1..]);
      assert [items[0]] + items[1..] == items;
    }
  }

  /** The subtotal is the sum of the prices; an empty cart totals 0. */
  lemma TotalIsSum(items: seq<Product>)
    ensures Total(items) == SumPrices(items)
    ensures items == [] ==> Total(items) == 0
  {
    FoldIsSum(0, items);
  }

  /** Adding an item raises the subtotal by exactly that item's price. */
  lemma TotalAppend(items: seq<Product>, p: Product)
    ensures Total(items + [p]) == Total(items) + p.price
  {
    TotalIsSum(items);
    TotalIsSum(items + [p]);
    assert (items + [p])[..|items|] == items;
  }

  /** The subtotal distributes over concatenation. */
  lemma {:induction false} TotalConcat(a: seq<Product>, b: seq<Product>)
    ensures Total(a + b) == Total(a) + Total(b)
  {
    if b == [] {
      assert a + b == a;
      TotalIsSum(b);
    } else {
      var init := b[..|b| - 1];
      var last := b[|b| - 1];
      TotalConcat(a, init);
      assert a + b == (a + init) + [last];
      assert b == init + [last];
      TotalAppend(a + init, last);
      TotalAppend(init, last);
    }
  }

  /** A cart of portfolio pieces priced 0 totals 0, duplicates or not. */
  lemma {:induction false} TotalOfFreeItems(items: seq<Product>)
    requires forall i :: 0 <= i < |items| ==> items[i].price == 0
    ensures Total(items) == 0
  {
    TotalIsSum(items);
    if items != [] {
      var init := items[..|items| - 1];
      TotalOfFreeItems(init);
      TotalIsSum(init);
    }
  }

  /** Prices that are never negative give a subtotal that is never negative. */
  lemma {:induction false} TotalNonNegative(items: seq<Product>)
    requires forall i :: 0 <= i < |items| ==> items[i].price >= 0
    ensures Total(items) >= 0
  {
    TotalIsSum(items);
    if items != [] {
      var init := items[..|items| - 1];
      TotalNonNegative(init);
      TotalIsSum(init);
    }
  }

  /** `Your Cart ({items.length})` */
  function HeaderTitle(items: seq<Product>): string {
    "Your Cart (" + NatToString(|items|) + ")"
  }

  /** The header shows the number of items, duplicates included. */
  lemma HeaderShowsCount(items: seq<Product>)
    ensures var t := HeaderTitle(items);
      && |t| > 12
      && t[..11] == "Your Cart ("
      && t[|t| - 1] == ')'
      && (forall i :: 11 <= i < |t| - 1 ==> IsDigit(t[i]))
      && ParseNat(t[11..|t| - 1]) == |items|
  {
    var t := HeaderTitle(items);
    assert t[11..|t| - 1] == NatToString(|items|);
    ParseNatToString(|items|);
  }

  /** The "Your cart is empty." message replaces the list. */
  predicate ShowsEmptyState(items: seq<Product>) {
    |items| == 0
  }

  /** `disabled={items.length === 0}` on the checkout button. */
  predicate CheckoutDisabled(items: seq<Product>) {
    |items| == 0
  }

  /** One rendered row: its React key, the index its Remove button passes,
      and the item it shows. */
  datatype Row = Row(key: string, removeIndex: nat, item: Product)

  /** `${item.id}-${idx}` */
  function RowKey(id: string, idx: nat): (key: string)
    ensures id + "-" <= key
    ensures key[|id| + 1..] == NatToString(idx)
  {
    id + "-" + NatToString(idx)
  }

  /** `items.map((item, idx) => ...)`, rendered only for a non-empty cart. */
  function Rows(items: seq<Product>): (rows: seq<Row>)
    ensures |rows| == |items|
    ensures forall i :: 0 <= i < |rows| ==>
      rows[i].item == items[i] && rows[i].removeIndex == i && rows[i].key == RowKey(items[i].id, i)
  {
    seq(|items|, i requires 0 <= i < |items| => Row(RowKey(items[i].id, i), i, items[i]))
  }

  /** Exactly one of the empty message and the rows is shown, and checkout
      is disabled exactly when the empty message is. */
  lemma EmptyStateExclusive(items: seq<Product>)
    ensures ShowsEmptyState(items) <==> Rows(items) == []
    ensures CheckoutDisabled(items) <==> ShowsEmptyState(items)
  {
  }

  /** Every Remove button passes a position that lies inside the list. */
  lemma RemoveIndexInBounds(items: seq<Product>, row: Row)
    requires row in Rows(items)
    ensures 0 <= row.removeIndex < |items|
    ensures items[row.removeIndex] == row.item
  {
  }

  /** The last '-' of a key is the one before the index. */
  lemma {:induction false} RowKeySuffix(id1: string, d1: string, id2: string, d2: string)
    requires '-' !in d1 && '-' !in d2
    requires id1 + "-" + d1 == id2 + "-" + d2
    ensures d1 == d2
  {
    var k := id1 + "-" + d1;
    if |d1| < |d2| {
      KeyCharAt(id1, d1, |id1|);
      assert false;
    } else if |d2| < |d1| {
      KeyCharAt(id2, d2, |id2|);
      assert false;
    } else {
      assert d1 == k[|k| - |d1|..] == d2;
    }
  }

  lemma KeyCharAt(id: string, d: string, p: nat)
    requires p < |id| + 1 + |d|
    ensures p == |id| ==> (id + "-" + d)[p] == '-'
    ensures p > |id| ==> (id + "-" + d)[p] == d[p - |id| - 1]
  {
  }

  /** Row keys are distinct even when the same photograph is in the cart
      twice, so duplicates render as separate rows. */
  lemma RowKeysDistinct(items: seq<Product>, i: nat, j: nat)
    requires i < |items| && j < |items| && i != j
    ensures Rows(items)[i].key != Rows(items)[j].key
  {
    var di, dj := NatToString(i), NatToString(j);
    if Rows(items)[i].key == Rows(items)[j].key {
      RowKeySuffix(items[i].id, di, items[j].id, dj);
      NatToStringInjective(i, j);
    }
  }
}
