/**
 * The line items of a sale and the pure computations over them: the `find`
 * that locates a barcode's line, the add that merges or appends, the `filter`
 * that removes a barcode, and the `reduce` that sums the lines.
 */
module Cart {
  import opened Wrappers
  import opened ProductCatalog

  /** One cart line. Name and price (cents) are snapshots taken when the line is created. */
  datatype LineItem = LineItem(barcode: Barcode, name: string, price: nat, quantity: nat)

  /** `item.price * item.quantity`. */
  function LineTotal(item: LineItem): (r: nat)
  {
    item.price * item.quantity
  }

  /**
   * The subtotal `reduce`: the running sum starts at 0 and adds each line's
   * price × quantity from the first line to the last.
   */
  function Subtotal(items: seq<LineItem>): (r: nat)
  {
    if items == [] then 0 else Subtotal(items[..|items| - 1]) + LineTotal(items[|items| - 1])
  }

  /** At most one line per barcode. */
  ghost predicate OneLinePerBarcode(items: seq<LineItem>)
  {
    forall i, j :: 0 <= i < j < |items| ==> items[i].barcode != items[j].barcode
  }

  /** The invariant every cart keeps: one line per barcode, and every quantity at least 1. */
  ghost predicate Wellformed(items: seq<LineItem>)
  {
    && OneLinePerBarcode(items)
    && (forall i :: 0 <= i < |items| ==> items[i].quantity >= 1)
  }

  /** No line carries this barcode. */
  ghost predicate Absent(items: seq<LineItem>, barcode: Barcode)
  {
    forall j :: 0 <= j < |items| ==> items[j].barcode != barcode
  }

  /** `items.find(item => item.barcode === barcode)`, as the position of the first such line. */
  function IndexOf(items: seq<LineItem>, barcode: Barcode): (r: Option<nat>)
    ensures r.Some? ==> r.value < |items| && items[r.value].barcode == barcode
    ensures r.Some? ==> forall j :: 0 <= j < r.value ==> items[j].barcode != barcode
    ensures r.None? <==> Absent(items, barcode)
  {
    if items == [] then None
    else if items[0].barcode == barcode then Some(0)
    else
      match IndexOf(items[1..], barcode)
      case Some(k) => Some(k + 1)
      case None => None
  }

  /** The line pushed for a barcode the cart does not hold yet. */
  function NewLine(barcode: Barcode, product: Product): (line: LineItem)
  {
    LineItem(barcode, product.name, product.price, 1)
  }

  /** The cart after scanning `barcode`: the first line with it gains a unit, else a new line is pushed. */
  function AddLine(items: seq<LineItem>, barcode: Barcode, product: Product): (r: seq<LineItem>)
  {
    match IndexOf(items, barcode)
    case Some(i) => items[i := items[i].(quantity := items[i].quantity + 1)]
    case None => items + [NewLine(barcode, product)]
  }

  /** The price at which the next unit of `barcode` is charged: the line's snapshot if it has one. */
  function UnitPrice(items: seq<LineItem>, barcode: Barcode, product: Product): (price: nat)
  {
    match IndexOf(items, barcode)
    case Some(i) => items[i].price
    case None => product.price
  }

  /** `items.filter(item => item.barcode !== barcode)`. */
  function Without(items: seq<LineItem>, barcode: Barcode): (r: seq<LineItem>)
    ensures |r| <= |items|
  {
    if items == [] then []
    else
      var head := if items[0].barcode != barcode then [items[0]] else [];
      head + Without(items[1..], barcode)
  }

  // ---------------------------------------------------------------- adding

  /** The first line with a barcode is the one `find` returns. */
  lemma IndexOfFirst(items: seq<LineItem>, barcode: Barcode, k: nat)
    requires k < |items| && items[k].barcode == barcode
    requires forall j :: 0 <= j < k ==> items[j].barcode != barcode
    ensures IndexOf(items, barcode) == Some(k)
  {
    assert !Absent(items, barcode);
  }

  /**
   * Scanning a barcode the cart holds adds exactly one unit to that line; the
   * number of lines, their order and every other line stay as they were.
   */
  lemma AddLineExisting(items: seq<LineItem>, barcode: Barcode, product: Product, i: nat)
    requires OneLinePerBarcode(items)
    requires i < |items| && items[i].barcode == barcode
    ensures var r := AddLine(items, barcode, product);
      && |r| == |items|
      && r[i] == items[i].(quantity := items[i].quantity + 1)
      && forall j :: 0 <= j < |items| && j != i ==> r[j] == items[j]
  {
  }

  /** Scanning a barcode the cart lacks pushes one line, with quantity 1, after the existing ones. */
  lemma AddLineAbsent(items: seq<LineItem>, barcode: Barcode, product: Product)
    requires Absent(items, barcode)
    ensures AddLine(items, barcode, product) == items + [LineItem(barcode, product.name, product.price, 1)]
  {
  }

  /**
   * Adding keeps one line per barcode and quantities at least 1, never drops
   * a line, and never refreshes a line's barcode, name or price.
   */
  lemma AddLinePreservesWellformed(items: seq<LineItem>, barcode: Barcode, product: Product)
    requires Wellformed(items)
    ensures var r := AddLine(items, barcode, product);
      && Wellformed(r)
      && |items| <= |r| <= |items| + 1
      && (forall j :: 0 <= j < |items| ==>
            r[j].barcode == items[j].barcode && r[j].name == items[j].name && r[j].price == items[j].price)
      && exists k :: 0 <= k < |r| && r[k].barcode == barcode
  {
    var r := AddLine(items, barcode, product);
    match IndexOf(items, barcode)
    case Some(i) =>
      assert r[i].barcode == barcode;
    case None =>
      assert r[|items|].barcode == barcode;
  }

  /** Scanning the same new barcode twice yields one line of quantity 2, not two lines. */
  lemma AddTwiceMerges(items: seq<LineItem>, barcode: Barcode, product: Product)
    requires Absent(items, barcode)
    ensures AddLine(AddLine(items, barcode, product), barcode, product)
         == items + [LineItem(barcode, product.name, product.price, 2)]
  {
    var once := AddLine(items, barcode, product);
    assert once == items + [NewLine(barcode, product)];
    IndexOfFirst(once, barcode, |items|);
  }

  // ---------------------------------------------------------------- subtotal

  /** The subtotal is additive over concatenation. */
  lemma {:induction false} SubtotalAppend(a: seq<LineItem>, b: seq<LineItem>)
    ensures Subtotal(a + b) == Subtotal(a) + Subtotal(b)
    decreases |b|
  {
    if b == [] {
      assert a + b == a;
    } else {
      var b' := b[..|b| - 1];
      assert (a + b)[..|a + b| - 1] == a + b';
      assert (a + b)[|a + b| - 1] == b[|b| - 1];
      SubtotalAppend(a, b');
    }
  }

  /** Replacing one line changes the subtotal by the difference of the two line totals. */
  lemma SubtotalUpdate(items: seq<LineItem>, i: nat, x: LineItem)
    requires i < |items|
    ensures Subtotal(items[i := x]) == Subtotal(items) - LineTotal(items[i]) + LineTotal(x)
  {
    assert items == items[..i] + [items[i]] + items[i + 1..];
    assert items[i := x] == items[..i] + [x] + items[i + 1..];
    SubtotalAppend(items[..i] + [items[i]], items[i + 1..]);
    SubtotalAppend(items[..i], [items[i]]);
    SubtotalAppend(items[..i] + [x], items[i + 1..]);
    SubtotalAppend(items[..i], [x]);
    SubtotalSingle(items[i]);
    SubtotalSingle(x);
  }

  /** Each add raises the subtotal by exactly one unit at the price that unit is charged at. */
  lemma AddLineSubtotal(items: seq<LineItem>, barcode: Barcode, product: Product)
    ensures Subtotal(AddLine(items, barcode, product)) == Subtotal(items) + UnitPrice(items, barcode, product)
  {
    match IndexOf(items, barcode)
    case Some(i) =>
      BumpSubtotal(items, i);
    case None =>
      PushSubtotal(items, NewLine(barcode, product));
  }

  /** One more unit on line `i` adds that line's price to the subtotal. */
  lemma BumpSubtotal(items: seq<LineItem>, i: nat)
    requires i < |items|
    ensures Subtotal(items[i := items[i].(quantity := items[i].quantity + 1)]) == Subtotal(items) + items[i].price
  {
    var x := items[i].(quantity := items[i].quantity + 1);
    SubtotalUpdate(items, i, x);
    assert LineTotal(x) == LineTotal(items[i]) + items[i].price;
  }

  /** Pushing a line adds its total to the subtotal. */
  lemma PushSubtotal(items: seq<LineItem>, line: LineItem)
    ensures Subtotal(items + [line]) == Subtotal(items) + LineTotal(line)
  {
    SubtotalAppend(items, [line]);
    SubtotalSingle(line);
  }

  /** Adding one barcode leaves the line another barcode would be found at, and hence its unit price, alone. */
  lemma AddLineKeepsOtherIndex(items: seq<LineItem>, a: Barcode, pa: Product, b: Barcode)
    requires a != b
    ensures IndexOf(AddLine(items, a, pa), b) == IndexOf(items, b)
  {
    var r := AddLine(items, a, pa);
    assert forall j :: 0 <= j < |items| ==> r[j].barcode == items[j].barcode;
    match IndexOf(items, b)
    case Some(k) =>
      IndexOfFirst(r, b, k);
    case None =>
      assert Absent(r, b);
  }

  /**
   * The order in which two scans happen does not affect the subtotal (a
   * barcode always resolves to the same catalog product).
   */
  lemma AddOrderIrrelevant(items: seq<LineItem>, a: Barcode, pa: Product, b: Barcode, pb: Product)
    requires a == b ==> pa == pb
    ensures Subtotal(AddLine(AddLine(items, a, pa), b, pb))
         == Subtotal(AddLine(AddLine(items, b, pb), a, pa))
  {
    if a != b {
      AddLineSubtotal(items, a, pa);
      AddLineSubtotal(items, b, pb);
      AddLineSubtotal(AddLine(items, a, pa), b, pb);
      AddLineSubtotal(AddLine(items, b, pb), a, pa);
      AddLineKeepsOtherIndex(items, a, pa, b);
      AddLineKeepsOtherIndex(items, b, pb, a);
    }
  }

  /** Once a barcode has a line, later scans are charged at that line's price, whatever the catalog says. */
  lemma AddedUnitPrice(items: seq<LineItem>, barcode: Barcode, p: Product, q: Product)
    ensures UnitPrice(AddLine(items, barcode, p), barcode, q) == UnitPrice(items, barcode, p)
  {
    var r := AddLine(items, barcode, p);
    match IndexOf(items, barcode)
    case Some(i) =>
      assert forall j :: 0 <= j < |items| ==> r[j].barcode == items[j].barcode;
      IndexOfFirst(r, barcode, i);
    case None =>
      IndexOfFirst(r, barcode, |items|);
  }

  // ---------------------------------------------------------------- removing

  /** Removing a barcode no line carries leaves the items unchanged. */
  lemma {:induction false} WithoutAbsent(items: seq<LineItem>, barcode: Barcode)
    requires Absent(items, barcode)
    ensures Without(items, barcode) == items
    decreases |items|
  {
    if items != [] {
      WithoutAbsent(items[1..], barcode);
      assert [items[0]] + items[1..] == items;
    }
  }

  /** The filter keeps exactly the lines whose barcode differs from the one removed. */
  lemma {:induction false} WithoutMembers(items: seq<LineItem>, barcode: Barcode)
    ensures forall x :: x in Without(items, barcode) <==> x in items && x.barcode != barcode
    decreases |items|
  {
    if items != [] {
      WithoutMembers(items[1..], barcode);
      assert items == [items[0]] + items[1..];
    }
  }

  /** The filter distributes over concatenation. */
  lemma {:induction false} WithoutAppend(a: seq<LineItem>, b: seq<LineItem>, barcode: Barcode)
    ensures Without(a + b, barcode) == Without(a, barcode) + Without(b, barcode)
    decreases |a|
  {
    if a == [] {
      assert a + b == b;
    } else {
      assert (a + b)[1..] == a[1..] + b;
      WithoutAppend(a[1..], b, barcode);
    }
  }

  /**
   * Removing the barcode of line `i` of a well-formed cart yields exactly the
   * other lines in their original order, and lowers the subtotal by that line's total.
   */
  lemma WithoutPresent(items: seq<LineItem>, barcode: Barcode, i: nat)
    requires OneLinePerBarcode(items)
    requires i < |items| && items[i].barcode == barcode
    ensures Without(items, barcode) == items[..i] + items[i + 1..]
    ensures Subtotal(Without(items, barcode)) == Subtotal(items) - LineTotal(items[i])
  {
    var front, mid, back := items[..i], [items[i]], items[i + 1..];
    assert items == front + mid + back;
    assert Absent(front, barcode);
    assert Absent(back, barcode);
    calc {
      Without(items, barcode);
      { WithoutAppend(front + mid, back, barcode); }
      Without(front + mid, barcode) + Without(back, barcode);
      { WithoutAppend(front, mid, barcode); }
      Without(front, barcode) + Without(mid, barcode) + Without(back, barcode);
      { WithoutAbsent(front, barcode); WithoutAbsent(back, barcode); }
      front + Without(mid, barcode) + back;
      { assert Without(mid, barcode) == []; }
      front + back;
    }
    SubtotalSplit(items, i);
  }

  /** The subtotal of a cart is that of all other lines plus line `i`'s total. */
  lemma SubtotalSplit(items: seq<LineItem>, i: nat)
    requires i < |items|
    ensures Subtotal(items[..i] + items[i + 1..]) == Subtotal(items) - LineTotal(items[i])
  {
    SplitAt(items, i);
    SubtotalAppend3(items[..i], items[i], items[i + 1..]);
    SubtotalAppend(items[..i], items[i + 1..]);
  }

  /** A cart is the lines before `i`, line `i`, and the lines after it. */
  lemma SplitAt(items: seq<LineItem>, i: nat)
    requires i < |items|
    ensures items[..i] + [items[i]] + items[i + 1..] == items
  {
  }

  /** The subtotal of a cart with one line between two parts. */
  lemma SubtotalAppend3(front: seq<LineItem>, item: LineItem, back: seq<LineItem>)
    ensures Subtotal(front + [item] + back) == Subtotal(front) + LineTotal(item) + Subtotal(back)
  {
    SubtotalAppend(front + [item], back);
    SubtotalAppend(front, [item]);
    SubtotalSingle(item);
  }

  /** A one-line cart costs that line's total. */
  lemma SubtotalSingle(item: LineItem)
    ensures Subtotal([item]) == LineTotal(item)
  {
    assert [item][..0] == [];
  }

  /** Removing keeps a well-formed cart well-formed and leaves no line with that barcode. */
  lemma WithoutPreservesWellformed(items: seq<LineItem>, barcode: Barcode)
    requires Wellformed(items)
    ensures Wellformed(Without(items, barcode))
    ensures Absent(Without(items, barcode), barcode)
  {
    match IndexOf(items, barcode)
    case Some(i) =>
      WithoutPresent(items, barcode, i);
      DropPreservesWellformed(items, i);
    case None =>
      WithoutAbsent(items, barcode);
  }

  /** Dropping line `i` of a well-formed cart leaves a well-formed cart without its barcode. */
  lemma DropPreservesWellformed(items: seq<LineItem>, i: nat)
    requires Wellformed(items) && i < |items|
    ensures Wellformed(items[..i] + items[i + 1..])
    ensures Absent(items[..i] + items[i + 1..], items[i].barcode)
  {
    var r := items[..i] + items[i + 1..];
    assert forall k :: 0 <= k < |r| ==> r[k] == items[if k < i then k else k + 1];
    forall a, b | 0 <= a < b < |r|
      ensures r[a].barcode != r[b].barcode
    {
      var a', b' := if a < i then a else a + 1, if b < i then b else b + 1;
      assert r[a] == items[a'] && r[b] == items[b'] && a' < b';
    }
  }
}
