/** The pre-tax total of a quotation: every item contributes its quantity
    times its price, plus the quantity times the price of each of its
    sub-items. Both sums are left folds starting from zero, in the order the
    items and sub-items are listed. */
module InvoiceTotal {
  import opened Wrappers
  import opened NumberWords
  import opened WordsReader

  datatype SubItem = SubItem(quantity: int, price: int)

  datatype Item = Item(quantity: int, price: int, subItems: seq<SubItem>)

  /** The fold over an item's sub-items: the running sub-total plus the
      next sub-item's quantity times its price. It adds up the same amount
      as the sub-item lines, summed from the other end. */
  function SubItemsTotal(subs: seq<SubItem>): (r: int)
    ensures r == LineSum(SubLines(subs))
    decreases |subs|
  {
    if subs == [] then 0 else
      var init, last := subs[..|subs| - 1], subs[|subs| - 1];
      assert SubLines(subs) == SubLines(init) + [Line(last.quantity, last.price)];
      LineSumAppend(SubLines(init), [Line(last.quantity, last.price)]);
      SubItemsTotal(init) + last.quantity * last.price
  }

  /** The fold over the items: the running total plus the item's own line
      plus its sub-items' total. It adds up exactly the quantity times the
      price of every line of the quotation, summed from the other end. */
  function TotalPrice(items: seq<Item>): (r: int)
    ensures r == LineSum(Lines(items))
    decreases |items|
  {
    if items == [] then 0 else
      var init, item := items[..|items| - 1], items[|items| - 1];
      var own := [Line(item.quantity, item.price)];
      assert items == init + [item];
      LinesAppend(init, [item]);
      assert [item][1..] == [];
      assert Lines([item]) == own + SubLines(item.subItems);
      LineSumAppend(own, SubLines(item.subItems));
      LineSumAppend(Lines(init), Lines([item]));
      TotalPrice(init) + item.quantity * item.price + SubItemsTotal(item.subItems)
  }

  /** A priced line of the quotation as printed: a quantity and a price. */
  datatype Line = Line(quantity: int, price: int)

  /** Every item as a line of its own followed by the lines of its sub-items,
      in order. */
  function Lines(items: seq<Item>): (ls: seq<Line>)
    ensures items == [] ==> ls == []
    ensures |items| > 0 ==> |ls| > 0 && ls[0] == Line(items[0].quantity, items[0].price)
  {
    if items == [] then [] else
      [Line(items[0].quantity, items[0].price)] + SubLines(items[0].subItems) + Lines(items[1..])
  }

  /** The printed lines of an item's sub-items, one per sub-item, in order. */
  function SubLines(subs: seq<SubItem>): (ls: seq<Line>)
    ensures |ls| == |subs|
    ensures forall i :: 0 <= i < |subs| ==> ls[i] == Line(subs[i].quantity, subs[i].price)
  {
    seq(|subs|, i requires 0 <= i < |subs| => Line(subs[i].quantity, subs[i].price))
  }

  /** The amount of a list of lines, summed from the right: an independent
      reading of what the quotation adds up to. */
  function LineSum(ls: seq<Line>): int {
    if ls == [] then 0 else ls[0].quantity * ls[0].price + LineSum(ls[1..])
  }

  lemma {:induction false} LineSumAppend(a: seq<Line>, b: seq<Line>)
    ensures LineSum(a + b) == LineSum(a) + LineSum(b)
    decreases |a|
  {
    if a == [] {
      assert a + b == b;
    } else {
      assert (a + b)[1..] == a[1..] + b;
      LineSumAppend(a[1..], b);
    }
  }

  /** Totals of two lists of items, one after the other, add up. */
  lemma {:induction false} TotalPriceAppend(a: seq<Item>, b: seq<Item>)
    ensures TotalPrice(a + b) == TotalPrice(a) + TotalPrice(b)
    decreases |b|
  {
    if b == [] {
      assert a + b == a;
    } else {
      var init := b[..|b| - 1];
      assert (a + b)[..|a + b| - 1] == a + init;
      assert (a + b)[|a + b| - 1] == b[|b| - 1];
      TotalPriceAppend(a, init);
    }
  }

  /** The lines of two lists of items, one after the other. */
  lemma {:induction false} LinesAppend(a: seq<Item>, b: seq<Item>)
    ensures Lines(a + b) == Lines(a) + Lines(b)
    decreases |a|
  {
    if a == [] {
      assert a + b == b;
    } else {
      assert (a + b)[0] == a[0];
      assert (a + b)[1..] == a[1..] + b;
      LinesAppend(a[1..], b);
    }
  }

  /** The order in which two lists of items are listed does not change the
      total. */
  lemma {:induction false} SwapKeepsTotal(a: seq<Item>, b: seq<Item>)
    ensures TotalPrice(a + b) == TotalPrice(b + a)
  {
    TotalPriceAppend(a, b);
    TotalPriceAppend(b, a);
  }

  predicate NonNegativeLine(l: Line) {
    l.quantity >= 0 && l.price >= 0
  }

  /** With no negative quantity or price anywhere, the total is not
      negative, so it is an amount the converter is defined on. */
  lemma {:induction false} LineSumNonNegative(ls: seq<Line>)
    requires forall i :: 0 <= i < |ls| ==> NonNegativeLine(ls[i])
    ensures LineSum(ls) >= 0
    decreases |ls|
  {
    if ls != [] {
      assert NonNegativeLine(ls[0]);
      LineSumNonNegative(ls[1..]);
    }
  }

  lemma {:induction false} TotalNonNegative(items: seq<Item>)
    requires forall i :: 0 <= i < |Lines(items)| ==> NonNegativeLine(Lines(items)[i])
    ensures TotalPrice(items) >= 0
  {
    LineSumNonNegative(Lines(items));
  }

  /** The words printed for a non-negative total below one trillion read
      back as that total. */
  lemma {:induction false} TotalInWordsReadsBack(items: seq<Item>)
    requires forall i :: 0 <= i < |Lines(items)| ==> NonNegativeLine(Lines(items)[i])
    requires TotalPrice(items) < 1_000_000_000_000
    ensures TotalPrice(items) >= 0
    ensures WordsToNumber(NumberToWords(TotalPrice(items))) == Some(TotalPrice(items))
  {
    TotalNonNegative(items);
    RoundTrip(TotalPrice(items));
  }
}
