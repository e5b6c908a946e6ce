/**
  * The catalog side of the storefront: which list a fetched payload yields,
  * the defensive numeric defaults each product card is drawn with, and the
  * category filter (script.js:33-39, 56-59, 157-163).
  */
module Catalog {
  import opened Wrappers
  import Seqs

  /**
    * A product as the endpoint delivers it. `price` and `stock` hold what
    * `parseInt` makes of the raw field: `None` when that is NaN (field absent
    * or not numeric). `name` and `category` are `None` when absent.
    */
  datatype RawProduct = RawProduct(
    id: string,
    name: Option<string>,
    price: Option<int>,
    stock: Option<int>,
    category: Option<string>)

  /**
    * The shape of the decoded JSON body. `Object(Some(ps))` is an object whose
    * `products` field is a (truthy) array; `Object(None)` one whose field is
    * absent or falsy.
    */
  datatype Payload =
    | Null
    | Scalar
    | Object(products: Option<seq<RawProduct>>)
    | Array(items: seq<RawProduct>)

  /** What the fetch produced, as seen by `loadProducts`. */
  datatype Response =
    | HttpError(status: int)
    | Unparsable
    | Body(data: Payload)

  /** The filter buttons' sentinel for "no filtering". */
  const AllCategories: string := "all"

  /**
    * The product list selected from a payload: the `products` field when it is
    * present, else the payload itself when it is an array, else the empty list.
    * `None` for `null`, where reading `.products` throws and nothing is selected.
    */
  function ProductsOf(data: Payload): (r: Option<seq<RawProduct>>)
    ensures r == None <==> data == Null
    ensures data.Array? ==> r == Some(data.items)
    ensures data.Object? && data.products.Some? ==> r == data.products
    ensures data == Scalar || data == Object(None) ==> r == Some([])
  {
    match data
    case Null => None
    case Object(Some(ps)) => Some(ps)
    case Array(items) => Some(items)
    case _ => Some([])
  }

  /**
    * The global `products` after one run of `loadProducts`: replaced wholesale
    * by the selected list, and left as it was whenever the run throws.
    */
  function NextProducts(current: seq<RawProduct>, response: Response): (r: seq<RawProduct>)
    ensures !response.Body? ==> r == current
    ensures response.Body? && ProductsOf(response.data).Some? ==> r == ProductsOf(response.data).value
    ensures response == Body(Null) ==> r == current
  {
    match response
    case Body(data) => ProductsOf(data).GetOr(current)
    case _ => current
  }

  /** The price a card shows: the parsed price, or 0 when it is NaN or 0. */
  function Price(p: RawProduct): (r: int)
  {
    p.price.GetOr(0)
  }

  /** The stock a card shows: the parsed stock, or 0 when it is NaN or 0. */
  function Stock(p: RawProduct): (r: int)
  {
    p.stock.GetOr(0)
  }

  /**
    * A product is out of stock when its shown stock is not positive: exactly
    * when the stock field is missing, not a number, or parses to zero or less.
    */
  function IsOutOfStock(p: RawProduct): (r: bool)
    ensures r <==> p.stock == None || p.stock.value <= 0
  {
    Stock(p) <= 0
  }

  /** The heading of a card whose product has no (or an empty) name. */
  const Untitled: string := "Без названия"

  /** The heading a card shows: the name, or the placeholder when it is absent or empty. */
  function Title(p: RawProduct): (r: string)
  {
    if p.name.Some? && p.name.value != "" then p.name.value else Untitled
  }

  /** What a product card is drawn from. */
  datatype Card = Card(
    id: string,
    title: string,
    price: int,
    stock: int,
    outOfStock: bool,
    buttonEnabled: bool,
    categoryTag: string)

  /** The card for one product (script.js:57-59, 65, 69, 74-76). */
  function CardOf(p: RawProduct): (c: Card)
    ensures c.id == p.id
    ensures p.name.Some? && p.name.value != "" ==> c.title == p.name.value
    ensures p.name.None? || p.name == Some("") ==> c.title == Untitled
    ensures c.buttonEnabled <==> p.stock.Some? && p.stock.value > 0
    ensures c.outOfStock <==> !c.buttonEnabled
    ensures c.price == (if p.price.Some? then p.price.value else 0)
    ensures c.stock == (if p.stock.Some? then p.stock.value else 0)
    ensures c.categoryTag == (if p.category.Some? then p.category.value else "")
  {
    var out := IsOutOfStock(p);
    Card(p.id, Title(p), Price(p), Stock(p), out, !out, p.category.GetOr(""))
  }

  /** What `displayProducts` draws: a "no products" message, or one card per product. */
  datatype Listing = NoProducts | Grid(cards: seq<Card>)

  function Display(products: seq<RawProduct>): (l: Listing)
    ensures l == NoProducts <==> products == []
    ensures l.Grid? ==> |l.cards| == |products|
    ensures l.Grid? ==> forall k :: 0 <= k < |products| ==> l.cards[k] == CardOf(products[k])
  {
    if |products| == 0 then NoProducts
    else Grid(seq(|products|, k requires 0 <= k < |products| => CardOf(products[k])))
  }

  /** The test `filterProducts` applies to each product for a given category. */
  function InCategory(category: string): (r: RawProduct -> bool)
    ensures forall p :: r(p) <==> p.category == Some(category)
  {
    (p: RawProduct) => p.category == Some(category)
  }

  /**
    * The list `filterProducts` displays: every product for the sentinel "all",
    * otherwise the products whose category is exactly `category`.
    */
  function FilterProducts(products: seq<RawProduct>, category: string): (r: seq<RawProduct>)
    ensures category == AllCategories ==> r == products
    ensures category != AllCategories ==>
      (forall k :: 0 <= k < |r| ==> r[k] in products && r[k].category == Some(category))
    ensures category != AllCategories ==>
      (forall k :: 0 <= k < |products| && products[k].category == Some(category) ==> products[k] in r)
    ensures category != AllCategories ==>
      forall p :: multiset(r)[p] == if p.category == Some(category) then multiset(products)[p] else 0
    ensures category != AllCategories && (forall k :: 0 <= k < |products| ==> products[k].category != Some(category))
      ==> r == []
  {
    if category == AllCategories then products
    else
      var r := Seqs.Filter(products, InCategory(category));
      assert r != [] ==> r[0] in products && r[0].category == Some(category);
      r
  }

  /** Filtering never reorders: the result is a subsequence of the catalog. */
  lemma FilterProductsKeepsOrder(products: seq<RawProduct>, category: string)
    ensures Seqs.IsSubsequence(FilterProducts(products, category), products)
  {
    if category == AllCategories {
      Seqs.SubsequenceOfItself(products);
    } else {
      Seqs.FilterIsSubsequence(products, InCategory(category));
    }
  }

  /** Filtering by a category and then by the same category again changes nothing. */
  lemma FilterProductsIdempotent(products: seq<RawProduct>, category: string)
    ensures FilterProducts(FilterProducts(products, category), category) == FilterProducts(products, category)
  {
    if category != AllCategories {
      Seqs.FilterIdempotent(products, InCategory(category));
    }
  }
}
