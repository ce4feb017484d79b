/** The records that flow through the sales-report pipeline of src/main.js. */
module SalesTypes {

  datatype Option<+T> = None | Some(value: T)

  datatype Result<+T, +E> = Ok(value: T) | Err(error: E)

  /** Every way `analyzeSalesData` can fail. The first three are the errors it
      throws itself; the last two are the TypeErrors raised by dereferencing
      `undefined` when an index lookup misses. */
  datatype Error =
    | InvalidInputData
    | InvalidOptions
    | MissingStrategyFunctions
    | UnresolvedSeller(sellerId: string)
    | UnresolvedProduct(sku: string)

  // Input records. Field names are those of the report's data format.
  datatype Seller = Seller(id: string, first_name: string, last_name: string)

  datatype Product = Product(sku: string, purchase_price: real)

  datatype LineItem = LineItem(sku: string, quantity: int, sale_price: real, discount: real)

  datatype PurchaseRecord = PurchaseRecord(seller_id: string, total_amount: real, items: seq<LineItem>)

  /** The `data` argument once it is known to be an object: each collection is
      `None` when that property is not an array. */
  datatype SalesData = SalesData(
    sellers: Option<seq<Seller>>,
    products: Option<seq<Product>>,
    purchase_records: Option<seq<PurchaseRecord>>)

  /** One `[sku, quantity]` entry of `products_sold`; a seller's entries are kept
      in insertion order with distinct skus, as the properties of a JS object. */
  datatype SoldEntry = SoldEntry(sku: string, quantity: int)

  /** The working aggregate built for every seller. */
  datatype Stat = Stat(
    id: string,
    name: string,
    revenue: real,
    profit: real,
    sales_count: nat,
    products_sold: seq<SoldEntry>)

  /** The two pluggable strategies: revenue of a line item; bonus from the
      0-based rank, the number of sellers and the seller's stat. */
  type RevenueFn = LineItem -> real
  type BonusFn = (nat, nat, Stat) -> real

  /** The `options` argument: not a (non-null) object at all, or an object whose
      two properties are callable (`Some`) or not (`None`). */
  datatype Options =
    | NotAnObject
    | StrategyTable(calculateRevenue: Option<RevenueFn>, calculateBonus: Option<BonusFn>)

  /** One entry of the returned report. */
  datatype Report = Report(
    seller_id: string,
    name: string,
    revenue: real,
    profit: real,
    sales_count: nat,
    top_products: seq<SoldEntry>,
    bonus: real)
}
