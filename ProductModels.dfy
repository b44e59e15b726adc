/**
 * The product table and its photo table.  Prices are kept in cents: the
 * column has two decimal places, and every value the model stores comes
 * from a validator that admits at most two.  `features` is a JSON object.
 */
module ProductModels {
  import opened Wrappers
  import UserModels

  type ProductId = nat
  type PhotoId = nat

  /** A JSON value as `json.loads` produces it (numbers kept as integers). */
  datatype Json =
    | JNull
    | JBool(b: bool)
    | JNumber(n: int)
    | JString(s: string)
    | JArray(items: seq<Json>)
    | JObject(fields: map<string, Json>)

  type Features = map<string, Json>

  datatype Product = Product(
    id: ProductId,
    owner: UserModels.UserId,
    name: string,
    category: string,
    description: Option<string>,
    unitPrice: nat,
    stock: nat,
    sellQuantity: nat,
    features: Features,
    isActive: bool,
    createdAt: int,
    updatedAt: int)

  datatype Photo = Photo(id: PhotoId, product: ProductId, image: string, sortOrder: nat, createdAt: int)

  const NAME_MAX: nat := 200
  const CATEGORY_MAX: nat := 120
  const DEFAULT_LOW_STOCK_THRESHOLD: int := 10

  /**
   * What a product written through the validated API holds: the columns'
   * maximum name and category lengths and the `sell_quantity >= 1`
   * validator, plus the non-empty name and category the request schemas
   * demand (the columns themselves are `blank=True`).
   */
  predicate FieldsValid(p: Product) {
    1 <= |p.name| <= NAME_MAX && 1 <= |p.category| <= CATEGORY_MAX && p.sellQuantity >= 1
  }

  /** `get_low_stock_threshold`: the `PRODUCT_LOW_STOCK_THRESHOLD` setting, 10 when it is not set. */
  function LowStockThreshold(setting: Option<int>): (t: int)
    ensures setting.None? ==> t == DEFAULT_LOW_STOCK_THRESHOLD
    ensures setting.Some? ==> t == setting.value
  {
    setting.GetOr(DEFAULT_LOW_STOCK_THRESHOLD)
  }

  datatype StockStatus = InStock | LowStock | OutOfStock

  /** `Product.stock_status`: out of stock at zero, low below the threshold, in stock otherwise. */
  function StockStatusOf(stock: nat, threshold: int): (s: StockStatus)
    ensures s == OutOfStock <==> stock == 0
    ensures s == LowStock <==> 0 < stock < threshold
    ensures s == InStock <==> stock != 0 && stock >= threshold
  {
    if stock == 0 then OutOfStock
    else if stock < threshold then LowStock
    else InStock
  }

  /** The text value of each choice. */
  function StatusText(s: StockStatus): (t: string)
    ensures t in {"in_stock", "low_stock", "out_of_stock"}
  {
    match s
    case InStock => "in_stock"
    case LowStock => "low_stock"
    case OutOfStock => "out_of_stock"
  }

  /** The choice a text value names, if any. */
  function StatusFromText(t: string): (r: Option<StockStatus>)
    ensures r.Some? ==> StatusText(r.value) == t
    ensures r.None? ==> t !in {"in_stock", "low_stock", "out_of_stock"}
  {
    if t == "in_stock" then Some(InStock)
    else if t == "low_stock" then Some(LowStock)
    else if t == "out_of_stock" then Some(OutOfStock)
    else None
  }

  /** Every choice is read back from its own text. */
  lemma StatusTextRoundTrip(s: StockStatus)
    ensures StatusFromText(StatusText(s)) == Some(s)
  {
  }

  /** With a positive threshold, "in stock" is exactly "at or above the threshold". */
  lemma InStockAtThreshold(stock: nat, threshold: int)
    requires threshold >= 1
    ensures StockStatusOf(stock, threshold) == InStock <==> stock >= threshold
  {
  }

  /** `Product.price`, the read-only alias of `unit_price`. */
  function Price(p: Product): (r: nat)
    ensures r == p.unitPrice
  {
    p.unitPrice
  }

  /** `soft_delete`: `is_active` becomes false; only it and `updated_at` are written. */
  function SoftDelete(p: Product, now: int): (r: Product)
    ensures !r.isActive && r.updatedAt == now
    ensures r.(isActive := p.isActive, updatedAt := p.updatedAt) == p
  {
    p.(isActive := false, updatedAt := now)
  }

  /** `activate`: `is_active` becomes true; only it and `updated_at` are written. */
  function Activate(p: Product, now: int): (r: Product)
    ensures r.isActive && r.updatedAt == now
    ensures r.(isActive := p.isActive, updatedAt := p.updatedAt) == p
  {
    p.(isActive := true, updatedAt := now)
  }

  /** `deactivate`: the same write as `soft_delete`. */
  function Deactivate(p: Product, now: int): (r: Product)
    ensures !r.isActive && r.updatedAt == now
    ensures r.(isActive := p.isActive, updatedAt := p.updatedAt) == p
  {
    p.(isActive := false, updatedAt := now)
  }

  /** A soft delete is undone by activating, up to the timestamp, and it keeps `FieldsValid`. */
  lemma ActivateUndoesSoftDelete(p: Product, now: int, later: int)
    requires p.isActive
    ensures Activate(SoftDelete(p, now), later) == p.(updatedAt := later)
    ensures FieldsValid(p) ==> FieldsValid(SoftDelete(p, now)) && FieldsValid(Activate(p, now))
  {
  }

  /** Deactivating is soft deleting, and doing either twice is doing it once. */
  lemma DeactivateIsSoftDelete(p: Product, now: int)
    ensures Deactivate(p, now) == SoftDelete(p, now)
    ensures SoftDelete(SoftDelete(p, now), now) == SoftDelete(p, now)
  {
  }
}
