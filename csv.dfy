/**
 * The layout of the CSV file a list of products is written to: a header row
 * of the field names, then one row per product. Quoting, delimiters and the
 * file itself are not modelled; a row is the list of its cells as text.
 */
module Csv {
  import opened Wrappers
  import opened Text
  import opened Extract

  /** The field names of `Product`, in declaration order: the header and the column order. */
  const ProductFields: seq<string> := ["title", "description", "price", "rating", "num_of_reviews"]

  type Row = seq<string>

  /** `astuple(product)`, each field as the writer renders it: text as is, integers by `str`. */
  function AsTuple(p: Product): (row: Row)
    ensures |row| == |ProductFields|
  {
    [p.title, p.description, p.price, IntToString(p.rating), IntToString(p.numOfReviews)]
  }

  /** One row per product, in list order. */
  function ProductRows(products: seq<Product>): (rows: seq<Row>)
    ensures |rows| == |products|
    ensures forall i :: 0 <= i < |products| ==> rows[i] == AsTuple(products[i])
  {
    if products == [] then [] else [AsTuple(products[0])] + ProductRows(products[1..])
  }

  /** Everything written for a list of products: the header, then a row per product. */
  function WriteProductsToFile(products: seq<Product>): (rows: seq<Row>)
    ensures |rows| == 1 + |products|
    ensures rows[0] == ProductFields
    ensures forall i :: 0 <= i < |products| ==> rows[1 + i] == AsTuple(products[i])
    ensures forall i :: 0 <= i < |rows| ==> |rows[i]| == |ProductFields|
  {
    var body := ProductRows(products);
    var rows := [ProductFields] + body;
    assert forall i :: 0 <= i < |body| ==> rows[1 + i] == body[i];
    rows
  }

  /** A product read back from a row; None when the row does not have the shape `AsTuple` gives. */
  function FromRow(row: Row): Option<Product> {
    if |row| != |ProductFields| then None
    else
      match (ParseInt(row[3]), ParseInt(row[4]))
      case (Some(rating), Some(reviews)) =>
        if rating < 0 then None else Some(Product(row[0], row[1], row[2], rating, reviews))
      case _ => None
  }

  /** Every field of a product survives its row. */
  lemma RowRoundTrip(p: Product)
    ensures FromRow(AsTuple(p)) == Some(p)
  {
    ParseIntRoundTrip(p.rating);
    ParseIntRoundTrip(p.numOfReviews);
  }

  function ReadProductRows(rows: seq<Row>): Option<seq<Product>> {
    if rows == [] then Some([])
    else
      match (FromRow(rows[0]), ReadProductRows(rows[1..]))
      case (Some(p), Some(ps)) => Some([p] + ps)
      case _ => None
  }

  /** Reading a written file: its header, then the products of its rows. */
  function ReadFile(rows: seq<Row>): Option<seq<Product>> {
    if rows == [] || rows[0] != ProductFields then None else ReadProductRows(rows[1..])
  }

  /** The rows hold the products, all of them and in order. */
  lemma {:induction false} ProductRowsRoundTrip(products: seq<Product>)
    ensures ReadProductRows(ProductRows(products)) == Some(products)
  {
    if products != [] {
      var rows := ProductRows(products);
      assert rows[1..] == ProductRows(products[1..]);
      RowRoundTrip(products[0]);
      ProductRowsRoundTrip(products[1..]);
      assert [products[0]] + products[1..] == products;
    }
  }

  lemma FileRoundTrip(products: seq<Product>)
    ensures ReadFile(WriteProductsToFile(products)) == Some(products)
  {
    var rows := WriteProductsToFile(products);
    assert rows[1..] == ProductRows(products);
    ProductRowsRoundTrip(products);
  }

  /**
   * A static page whose cards each carry a title, a description, a price
   * written as "$" before an amount, some stars and a text "<n> reviews":
   * the page reads as the products those values describe, and the file
   * written for it is the header followed by one row of those values per
   * card, in card order.
   */
  lemma StaticPageRows(cards: seq<Card>, products: seq<Product>)
    requires |cards| == |products|
    requires forall i :: 0 <= i < |cards| ==> Listing(cards[i], products[i])
    ensures GetProductsFromSoup(Document(cards, 0)) == Success(products)
    ensures var rows := WriteProductsToFile(products);
      |rows| == 1 + |cards| && rows[0] == ["title", "description", "price", "rating", "num_of_reviews"]
      && forall i :: 0 <= i < |cards| ==>
        rows[1 + i] == [products[i].title, products[i].description, products[i].price,
                        IntToString(cards[i].stars), IntToString(products[i].numOfReviews)]
  {
    forall i | 0 <= i < |cards| ensures ParseSingleProduct(cards[i]) == Success(products[i]) {
      ListingReads(cards[i], products[i]);
    }
    var r := ParseCards(cards);
    assert r.Success?;
    assert r.value == products;
  }
}
