/**
 * The product database the cashier resolves input against: an object keyed by
 * barcode whose values hold a product name and a unit price. Lookups by barcode
 * are exact; the name search walks `Object.entries` in the object's key order
 * and keeps the entries whose name contains the search term, ignoring case.
 */
module ProductCatalog {
  import opened Wrappers
  import opened Text

  type Barcode = string

  /** A catalog value; the price is in cents. */
  datatype Product = Product(name: string, price: nat)

  /** One `[barcode, product]` pair of `Object.entries`. */
  datatype Entry = Entry(barcode: Barcode, product: Product)

  /**
   * The database object: its key/value map, and the order in which
   * `Object.entries` enumerates its keys.
   */
  datatype Catalog = Catalog(products: map<Barcode, Product>, order: seq<Barcode>)

  /** `order` enumerates every key of the object exactly once and nothing else. */
  ghost predicate Enumerates(c: Catalog)
  {
    && (forall b :: b in c.products <==> b in c.order)
    && (forall i, j :: 0 <= i < j < |c.order| ==> c.order[i] != c.order[j])
  }

  /** `productDatabase[barcode]`: the exact-key lookup. */
  function Lookup(c: Catalog, barcode: Barcode): (r: Option<Product>)
  {
    if barcode in c.products then Some(c.products[barcode]) else None
  }

  /** The `[barcode, product]` pairs for the keys listed in `order`, in that order. */
  function EntriesOf(products: map<Barcode, Product>, order: seq<Barcode>): (r: seq<Entry>)
    ensures |r| <= |order|
    ensures forall e :: e in r ==> e.barcode in products && products[e.barcode] == e.product
    ensures forall b :: b in order && b in products ==> Entry(b, products[b]) in r
  {
    if order == [] then []
    else
      var head := if order[0] in products then [Entry(order[0], products[order[0]])] else [];
      head + EntriesOf(products, order[1..])
  }

  /** `Object.entries(productDatabase)`. */
  function Entries(c: Catalog): (r: seq<Entry>)
  {
    EntriesOf(c.products, c.order)
  }

  /**
   * When every listed barcode is a key, the entries are exactly one pair per
   * listed barcode, at the barcode's own position: the position a selection
   * number refers to.
   */
  lemma {:induction false} EntriesInOrder(products: map<Barcode, Product>, order: seq<Barcode>)
    requires forall b :: b in order ==> b in products
    ensures EntriesOf(products, order)
         == seq(|order|, i requires 0 <= i < |order| => Entry(order[i], products[order[i]]))
  {
    if order != [] {
      EntriesInOrder(products, order[1..]);
    }
  }

  /** `product.name.toLowerCase().includes(searchTerm.toLowerCase())`. */
  predicate Matches(name: string, term: string)
  {
    Includes(Lower(name), Lower(term))
  }

  /** The `filter` of the search: the entries whose name matches, in their original order. */
  function FilterMatches(entries: seq<Entry>, term: string): (r: seq<Entry>)
    ensures |r| <= |entries|
    ensures forall e :: e in r <==> e in entries && Matches(e.product.name, term)
  {
    if entries == [] then []
    else
      var head := if Matches(entries[0].product.name, term) then [entries[0]] else [];
      head + FilterMatches(entries[1..], term)
  }

  /** The filter keeps the order of what it keeps: it distributes over concatenation. */
  lemma {:induction false} FilterAppend(a: seq<Entry>, b: seq<Entry>, term: string)
    ensures FilterMatches(a + b, term) == FilterMatches(a, term) + FilterMatches(b, term)
    decreases |a|
  {
    if a == [] {
      assert a + b == b;
    } else {
      assert (a + b)[1..] == a[1..] + b;
      FilterAppend(a[1..], b, term);
    }
  }

  /** The products a name search for `term` finds. */
  function SearchMatches(c: Catalog, term: string): (r: seq<Entry>)
  {
    FilterMatches(Entries(c), term)
  }

  /**
   * Every candidate the search offers is a catalog product whose name contains
   * the term, and its barcode looks that very product up again.
   */
  lemma SearchSound(c: Catalog, term: string, e: Entry)
    requires e in SearchMatches(c, term)
    ensures Lookup(c, e.barcode) == Some(e.product)
    ensures Matches(e.product.name, term)
  {
  }

  /** Every product of the database whose name contains the term is offered. */
  lemma SearchComplete(c: Catalog, term: string, barcode: Barcode)
    requires Enumerates(c)
    requires barcode in c.products && Matches(c.products[barcode].name, term)
    ensures Entry(barcode, c.products[barcode]) in SearchMatches(c, term)
  {
  }

  /** The search ignores case in the term: lower-casing it first changes nothing. */
  lemma MatchesIgnoresCase(name: string, term: string)
    ensures Matches(name, term) <==> Matches(name, Lower(term))
  {
    LowerIdempotent(term);
  }

  /** A search with an empty term matches every product. */
  lemma EmptyTermMatchesAll(name: string)
    ensures Matches(name, "")
  {
    EmptyIncludedEverywhere(Lower(name));
  }

  /**
   * The sample database of the cashier screen, prices in cents. Its keys are
   * integer-like strings, which `Object.entries` enumerates in ascending
   * numeric order.
   */
  function SampleDatabase(): (c: Catalog)
    ensures Enumerates(c)
  {
    Catalog(
      map[
        "123456789" := Product("Coffee Mug", 1299),
        "987654321" := Product("T-Shirt", 2499),
        "456789123" := Product("Notebook", 850),
        "789123456" := Product("Pen", 299)],
      ["123456789", "456789123", "789123456", "987654321"])
  }

  /** The two sample products of the worked sale: the coffee mug and the notebook. */
  lemma SampleLookups()
    ensures Lookup(SampleDatabase(), "123456789") == Some(Product("Coffee Mug", 1299))
    ensures Lookup(SampleDatabase(), "456789123") == Some(Product("Notebook", 850))
  {
  }
}
