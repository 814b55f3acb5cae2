/**
 * The document total (App.tsx, the `total` memo): a left fold over the three item
 * lists concatenated, where an item adds `item.value || 0`.
 */
module Totals {
  import opened Wrappers
  import opened QuoteTypes
  import opened Sections

  /** `item.value || 0`: what one item adds to the total; an absent value adds 0. */
  function Amount(item: QuoteItem): real
  {
    match item.value
    case None => 0.0
    case Some(x) => x
  }

  /** The reference sum of the amounts of a list, right to left. */
  function Sum(items: seq<QuoteItem>): real
  {
    if items == [] then 0.0 else Amount(items[0]) + Sum(items[1..])
  }

  /** `reduce((sum, item) => sum + (item.value || 0), acc)`, left to right. */
  function FoldValues(acc: real, items: seq<QuoteItem>): real
    decreases items
  {
    if items == [] then acc else FoldValues(acc + Amount(items[0]), items[1..])
  }

  /** The total of the document, as the editor computes it. */
  function Total(d: QuoteData): real
  {
    FoldValues(0.0, d.services + d.observations + d.details)
  }

  /** Every present value of the list is non-negative (what the number input's `min="0"` asks for). */
  predicate NonNegative(items: seq<QuoteItem>)
  {
    forall i :: 0 <= i < |items| ==> Amount(items[i]) >= 0.0
  }

  /** The left fold computes the reference sum. */
  lemma {:induction false} FoldIsSum(acc: real, items: seq<QuoteItem>)
    ensures FoldValues(acc, items) == acc + Sum(items)
    decreases items
  {
    if items != [] {
      FoldIsSum(acc + Amount(items[0]), items[1..]);
    }
  }

  /** The sum is additive over concatenation. */
  lemma {:induction false} SumAppend(a: seq<QuoteItem>, b: seq<QuoteItem>)
    ensures Sum(a + b) == Sum(a) + Sum(b)
  {
    if a == [] {
      assert a + b == b;
    } else {
      assert (a + b)[1..] == a[1..] + b;
      SumAppend(a[1..], b);
    }
  }

  /** The total is the sum over services, observations and details. */
  lemma TotalIsSectionSum(d: QuoteData)
    ensures Total(d) == Sum(d.services) + Sum(d.observations) + Sum(d.details)
  {
    FoldIsSum(0.0, d.services + d.observations + d.details);
    SumAppend(d.services + d.observations, d.details);
    SumAppend(d.services, d.observations);
  }

  /** A document whose three lists are empty totals 0. */
  lemma TotalOfEmptyLists(d: QuoteData)
    requires d.services == [] && d.observations == [] && d.details == []
    ensures Total(d) == 0.0
  {
    TotalIsSectionSum(d);
  }

  /** With non-negative values the sum is non-negative, and positive iff some item's amount is. */
  lemma {:induction false} SumPositiveIff(items: seq<QuoteItem>)
    requires NonNegative(items)
    ensures Sum(items) >= 0.0
    ensures Sum(items) > 0.0 <==> exists i :: 0 <= i < |items| && Amount(items[i]) > 0.0
  {
    if items != [] {
      assert NonNegative(items[1..]) by {
        forall i | 0 <= i < |items[1..]| ensures Amount(items[1..][i]) >= 0.0 {
          assert items[1..][i] == items[i + 1];
        }
      }
      SumPositiveIff(items[1..]);
      if exists i :: 0 <= i < |items| && Amount(items[i]) > 0.0 {
        var k :| 0 <= k < |items| && Amount(items[k]) > 0.0;
        if k > 0 {
          assert items[1..][k - 1] == items[k];
        }
      }
      if Sum(items) > 0.0 && Amount(items[0]) <= 0.0 {
        var k :| 0 <= k < |items[1..]| && Amount(items[1..][k]) > 0.0;
        assert items[k + 1] == items[1..][k];
      }
    }
  }

  /** With non-negative values the total is non-negative, and positive iff some item of some section has a positive amount. */
  lemma TotalPositiveIff(d: QuoteData)
    requires forall s :: NonNegative(ItemsOf(d, s))
    ensures Total(d) >= 0.0
    ensures Total(d) > 0.0 <==> exists s, i :: 0 <= i < |ItemsOf(d, s)| && Amount(ItemsOf(d, s)[i]) > 0.0
  {
    TotalIsSectionSum(d);
    assert ItemsOf(d, Services) == d.services && ItemsOf(d, Observations) == d.observations;
    assert ItemsOf(d, Details) == d.details;
    SumPositiveIff(d.services);
    SumPositiveIff(d.observations);
    SumPositiveIff(d.details);
  }

  /** Adding a blank item leaves the sum unchanged. */
  lemma SumAddItem(items: seq<QuoteItem>, newId: string)
    ensures Sum(AddItem(items, newId)) == Sum(items)
  {
    SumAppend(items, [Blank(newId)]);
  }

  /** Removing the one item that carries `id` takes exactly its amount off the sum. */
  lemma SumRemoveItem(items: seq<QuoteItem>, id: string, k: int)
    requires UniqueIds(items)
    requires 0 <= k < |items| && items[k].id == id
    ensures Sum(RemoveItem(items, id)) == Sum(items) - Amount(items[k])
  {
    var pre, post := items[..k], items[k + 1..];
    assert items == pre + [items[k]] + post;
    assert !HasId(pre, id) by {
      forall i | 0 <= i < |pre| ensures pre[i].id != id {
        assert pre[i] == items[i];
      }
    }
    assert !HasId(post, id) by {
      forall i | 0 <= i < |post| ensures post[i].id != id {
        assert post[i] == items[k + 1 + i];
      }
    }
    RemoveAppend(pre + [items[k]], post, id);
    RemoveAppend(pre, [items[k]], id);
    RemoveUnknownId(pre, id);
    RemoveUnknownId(post, id);
    assert RemoveItem([items[k]], id) == [];
    assert pre + [] == pre;
    SumAppend(pre + [items[k]], post);
    SumAppend(pre, [items[k]]);
    SumAppend(pre, post);
  }

  /** Two lists equal except at position k have sums that differ by the amounts at k. */
  lemma {:induction false} SumReplaceAt(a: seq<QuoteItem>, b: seq<QuoteItem>, k: int)
    requires |a| == |b| && 0 <= k < |a|
    requires forall i :: 0 <= i < |a| && i != k ==> a[i] == b[i]
    ensures Sum(b) == Sum(a) - Amount(a[k]) + Amount(b[k])
  {
    if k == 0 {
      assert a[1..] == b[1..];
    } else {
      SumReplaceAt(a[1..], b[1..], k - 1);
    }
  }

  /** Editing the one item that carries `id` replaces its amount in the sum by the parsed one. */
  lemma SumChangeItem(items: seq<QuoteItem>, id: string, text: string, raw: string,
                      parse: string -> Option<real>, k: int)
    requires UniqueIds(items)
    requires 0 <= k < |items| && items[k].id == id
    ensures Sum(ChangeItem(items, id, text, raw, parse)) ==
      Sum(items) - Amount(items[k]) + (match parse(raw) case None => 0.0 case Some(x) => x)
  {
    var r := ChangeItem(items, id, text, raw, parse);
    SumReplaceAt(items, r, k);
  }
}
