/**
 * The cashier's single current transaction and the operations of the screen
 * that drive it: scanning a barcode, searching by name (with the selection
 * among several matches), removing a line, and settling payment in cash, by
 * card or by mobile. Every change to the items is followed by a recomputation
 * of subtotal, tax and total. What the screen would show is returned as a
 * `Notice`.
 */
module Cashier {
  import opened Wrappers
  import opened ProductCatalog
  import opened Cart

  /** The sales tax rate, 8.5 %, as the exact fraction 85/1000. */
  const TaxRate: real := 0.085

  /** The payment method names of the payment buttons. */
  const CashMethod: string := "cash"
  const CardMethod: string := "card"
  const MobileMethod: string := "mobile"

  /** The message a step shows; `Silent` when it shows none. Amounts are in cents. */
  datatype Notice =
    | Added(name: string)
    | ProductNotFound(barcode: Barcode)
    | NoProductsFound(term: string)
    | NoItemsInCart
    | InsufficientCash
    | CashPaid(change: real)
    | CardPaid(total: real)
    | MobilePaid(total: real)
    | Silent

  /** Subtotal is the sum of the lines, tax is subtotal × 0.085, total is subtotal + tax. */
  ghost predicate TotalsMatch(items: seq<LineItem>, subtotal: int, tax: real, total: real)
  {
    && subtotal == Subtotal(items)
    && tax == subtotal as real * TaxRate
    && total == subtotal as real + tax
  }

  /** The total a cash amount must reach, in whole cents: 1000 × amount ≥ 1085 × subtotal. */
  lemma CashCoversTotal(subtotal: int, received: int)
    ensures received as real >= subtotal as real + subtotal as real * TaxRate
        <==> 1000 * received >= 1085 * subtotal
  {
    assert subtotal as real + subtotal as real * TaxRate == (1085 * subtotal) as real / 1000.0;
  }

  /** `currentTransaction`: its lines and the three totals derived from them. */
  class Transaction {
    var items: seq<LineItem>
    var subtotal: int
    var tax: real
    var total: real

    /** The cart invariant holds and the totals are those of the items. */
    ghost predicate Valid()
      reads this
    {
      Wellformed(items) && TotalsMatch(items, subtotal, tax, total)
    }

    /** The state of a transaction that has just begun. */
    ghost predicate Cleared()
      reads this
    {
      items == [] && subtotal == 0 && tax == 0.0 && total == 0.0
    }

    constructor ()
      ensures Valid() && Cleared()
    {
      items, subtotal, tax, total := [], 0, 0.0, 0.0;
    }

    /** `calculateTotals`: recomputes the three totals from the items. */
    method CalculateTotals()
      modifies this`subtotal, this`tax, this`total
      ensures TotalsMatch(items, subtotal, tax, total)
    {
      subtotal := Subtotal(items);
      tax := subtotal as real * TaxRate;
      total := subtotal as real + tax;
    }

    /** `clearTransaction`: starts a new, empty transaction. */
    method ClearTransaction()
      modifies this
      ensures Valid() && Cleared()
    {
      items, subtotal, tax, total := [], 0, 0.0, 0.0;
    }

    /**
     * `addItemToCart`: one more unit on the barcode's line, or a new line with
     * quantity 1; the subtotal rises by exactly the unit's price.
     */
    method AddItemToCart(barcode: Barcode, product: Product)
      requires Valid()
      modifies this
      ensures Valid()
      ensures items == AddLine(old(items), barcode, product)
      ensures subtotal == old(subtotal) + UnitPrice(old(items), barcode, product)
    {
      var existing := IndexOf(items, barcode);
      match existing {
        case Some(i) =>
          items := items[i := items[i].(quantity := items[i].quantity + 1)];
        case None =>
          items := items + [LineItem(barcode, product.name, product.price, 1)];
      }
      AddLinePreservesWellformed(old(items), barcode, product);
      AddLineSubtotal(old(items), barcode, product);
      CalculateTotals();
    }

    /** `removeItem`: drops every line with the barcode; the subtotal falls by what they cost. */
    method RemoveItem(barcode: Barcode)
      requires Valid()
      modifies this
      ensures Valid()
      ensures items == Without(old(items), barcode)
      ensures Absent(items, barcode)
      ensures Absent(old(items), barcode) ==> items == old(items) && subtotal == old(subtotal)
      ensures forall i :: 0 <= i < |old(items)| && old(items)[i].barcode == barcode ==>
                items == old(items)[..i] + old(items)[i + 1..]
                && subtotal == old(subtotal) - LineTotal(old(items)[i])
    {
      WithoutPreservesWellformed(items, barcode);
      if Absent(items, barcode) {
        WithoutAbsent(items, barcode);
      }
      forall i | 0 <= i < |items| && items[i].barcode == barcode
        ensures Without(items, barcode) == items[..i] + items[i + 1..]
        ensures Subtotal(Without(items, barcode)) == Subtotal(items) - LineTotal(items[i])
      {
        WithoutPresent(items, barcode, i);
      }
      items := Without(items, barcode);
      CalculateTotals();
    }

    /** `processBarcode`: an exact lookup; a known barcode is added, an unknown one changes nothing. */
    method ProcessBarcode(catalog: Catalog, barcode: Barcode) returns (notice: Notice)
      requires Valid()
      modifies this
      ensures Valid()
      ensures match Lookup(catalog, barcode)
        case Some(p) => items == AddLine(old(items), barcode, p) && notice == Added(p.name)
        case None => unchanged(this) && notice == ProductNotFound(barcode)
    {
      if barcode in catalog.products {
        var product := catalog.products[barcode];
        AddItemToCart(barcode, product);
        notice := Added(product.name);
      } else {
        notice := ProductNotFound(barcode);
      }
    }

    /**
     * The choice step of `showProductSelection`: a 0-based index inside the
     * candidate list adds that candidate; any other index changes nothing.
     */
    method ShowProductSelection(products: seq<Entry>, selectedIndex: int) returns (notice: Notice)
      requires Valid()
      modifies this
      ensures Valid()
      ensures 0 <= selectedIndex < |products| ==>
        && items == AddLine(old(items), products[selectedIndex].barcode, products[selectedIndex].product)
        && notice == Added(products[selectedIndex].product.name)
      ensures !(0 <= selectedIndex < |products|) ==> unchanged(this) && notice == Silent
    {
      if selectedIndex >= 0 && selectedIndex < |products| {
        var chosen := products[selectedIndex];
        AddItemToCart(chosen.barcode, chosen.product);
        notice := Added(chosen.product.name);
      } else {
        notice := Silent;
      }
    }

    /**
     * `searchProduct`: no match changes nothing; a single match is added
     * exactly as scanning its barcode would add it; several matches are left
     * to the selection, answered by `selectedIndex`.
     */
    method SearchProduct(catalog: Catalog, term: string, selectedIndex: int) returns (notice: Notice)
      requires Enumerates(catalog)
      requires Valid()
      modifies this
      ensures Valid()
      ensures var found := SearchMatches(catalog, term);
        && (|found| == 0 ==> unchanged(this) && notice == NoProductsFound(term))
        && (|found| == 1 ==>
              && Lookup(catalog, found[0].barcode) == Some(found[0].product)
              && items == AddLine(old(items), found[0].barcode, found[0].product)
              && notice == Added(found[0].product.name))
        && (|found| > 1 && 0 <= selectedIndex < |found| ==>
              && items == AddLine(old(items), found[selectedIndex].barcode, found[selectedIndex].product)
              && notice == Added(found[selectedIndex].product.name))
        && (|found| > 1 && !(0 <= selectedIndex < |found|) ==> unchanged(this) && notice == Silent)
    {
      var found := FilterMatches(Entries(catalog), term);
      if |found| == 1 {
        var only := found[0];
        SearchSound(catalog, term, only);
        AddItemToCart(only.barcode, only.product);
        notice := Added(only.product.name);
      } else if |found| > 1 {
        notice := ShowProductSelection(found, selectedIndex);
      } else {
        notice := NoProductsFound(term);
      }
    }

    /** `completeTransaction`: the finished sale is discarded and a new one begins. */
    method CompleteTransaction()
      modifies this
      ensures Valid() && Cleared()
    {
      ClearTransaction();
    }

    /**
     * `processCashPayment`: succeeds exactly when the amount received covers
     * the total; then the change is handed back and the transaction cleared,
     * otherwise nothing changes.
     */
    method ProcessCashPayment(total: real, received: Option<int>) returns (notice: Notice)
      requires Valid()
      modifies this
      ensures Valid()
      ensures notice.CashPaid? <==> received.Some? && received.value as real >= total
      ensures notice.CashPaid? ==>
        notice.change == received.value as real - total && notice.change >= 0.0 && Cleared()
      ensures !notice.CashPaid? ==> notice == InsufficientCash && unchanged(this)
    {
      if received.Some? && received.value as real >= total {
        var change := received.value as real - total;
        notice := CashPaid(change);
        CompleteTransaction();
      } else {
        notice := InsufficientCash;
      }
    }

    /** `processCardPayment`: the card is approved and the transaction completes. */
    method ProcessCardPayment(total: real) returns (notice: Notice)
      modifies this
      ensures Valid() && Cleared()
      ensures notice == CardPaid(total)
    {
      notice := CardPaid(total);
      CompleteTransaction();
    }

    /** `processMobilePayment`: the mobile payment is approved and the transaction completes. */
    method ProcessMobilePayment(total: real) returns (notice: Notice)
      modifies this
      ensures Valid() && Cleared()
      ensures notice == MobilePaid(total)
    {
      notice := MobilePaid(total);
      CompleteTransaction();
    }

    /**
     * `processPayment`: an empty cart is refused, otherwise the method named
     * settles the current total; an unknown method does nothing.
     */
    method ProcessPayment(paymentMethod: string, received: Option<int>) returns (notice: Notice)
      requires Valid()
      modifies this
      ensures Valid()
      ensures old(items) == [] ==> unchanged(this) && notice == NoItemsInCart
      ensures old(items) != [] && paymentMethod == CashMethod ==>
        && (notice.CashPaid? <==> received.Some? && received.value as real >= old(total))
        && (notice.CashPaid? <==> received.Some? && 1000 * received.value >= 1085 * old(subtotal))
        && (notice.CashPaid? ==> notice.change == received.value as real - old(total) && Cleared())
        && (!notice.CashPaid? ==> notice == InsufficientCash && unchanged(this))
      ensures old(items) != [] && paymentMethod == CardMethod ==> notice == CardPaid(old(total)) && Cleared()
      ensures old(items) != [] && paymentMethod == MobileMethod ==> notice == MobilePaid(old(total)) && Cleared()
      ensures old(items) != [] && paymentMethod != CashMethod && paymentMethod != CardMethod && paymentMethod != MobileMethod ==>
        unchanged(this) && notice == Silent
    {
      if |items| == 0 {
        notice := NoItemsInCart;
        return;
      }
      var total := this.total;
      if paymentMethod == CashMethod {
        if received.Some? {
          CashCoversTotal(subtotal, received.value);
        }
        notice := ProcessCashPayment(total, received);
      } else if paymentMethod == CardMethod {
        notice := ProcessCardPayment(total);
      } else if paymentMethod == MobileMethod {
        notice := ProcessMobilePayment(total);
      } else {
        notice := Silent;
      }
    }
  }

  /** Two coffee mugs and a notebook give one merged line and one new line, 34.48 before tax. */
  lemma SampleItems()
    ensures var mugCode, notebookCode := "123456789", "456789123";
      var mug, notebook := Product("Coffee Mug", 1299), Product("Notebook", 850);
      var items := AddLine(AddLine(AddLine([], mugCode, mug), mugCode, mug), notebookCode, notebook);
      && items == [LineItem(mugCode, "Coffee Mug", 1299, 2), LineItem(notebookCode, "Notebook", 850, 1)]
      && Subtotal(items) == 3448
  {
    var mugCode, notebookCode := "123456789", "456789123";
    var mug, notebook := Product("Coffee Mug", 1299), Product("Notebook", 850);
    assert mugCode[0] != notebookCode[0];
    AddLineAbsent([], mugCode, mug);
    var once := AddLine([], mugCode, mug);
    AddLineExisting(once, mugCode, mug, 0);
    var twice := AddLine(once, mugCode, mug);
    assert twice == [LineItem(mugCode, "Coffee Mug", 1299, 2)];
    AddLineAbsent(twice, notebookCode, notebook);
    PushSubtotal(twice, NewLine(notebookCode, notebook));
    SubtotalSingle(twice[0]);
  }

  /** The sample sale scanned at the till: 34.48, tax 2.9308, total 37.4108 (in cents below). */
  method SampleScans() returns (sale: Transaction)
    ensures fresh(sale) && sale.Valid()
    ensures sale.items == [LineItem("123456789", "Coffee Mug", 1299, 2), LineItem("456789123", "Notebook", 850, 1)]
    ensures sale.subtotal == 3448 && sale.tax == 293.08 && sale.total == 3741.08
  {
    var db := SampleDatabase();
    SampleLookups();
    SampleItems();
    sale := new Transaction();
    var notice := sale.ProcessBarcode(db, "123456789");
    notice := sale.ProcessBarcode(db, "123456789");
    notice := sale.ProcessBarcode(db, "456789123");
  }

  /**
   * Cash for the sample sale: an offer below the total is refused and keeps
   * the cart; an offer above it pays, returns the change and clears the cart.
   */
  method SampleCashPayment()
  {
    var sale := SampleScans();
    var notice := sale.ProcessPayment(CashMethod, Some(3000));
    assert notice == InsufficientCash && |sale.items| == 2;
    notice := sale.ProcessPayment(CashMethod, Some(4000));
    assert notice == CashPaid(258.92) && sale.Cleared();
  }
}
