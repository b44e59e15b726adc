/**
 * The request validators of the product endpoints.  A field arrives as a
 * `Raw` value (absent, null, a string, an object, or something else together
 * with its `str()` text); decimals arrive already parsed as `as_tuple()`
 * describes them.  Errors are collected field by field, in declaration order,
 * as the validation library does.  `json.loads` is a parameter.
 */
module ProductSchemas {
  import opened Wrappers
  import opened Text
  import opened ProductModels

  datatype Raw = Missing | Null | Str(s: string) | Dict(fields: Features, text: string) | Other(text: string)

  /** A decimal number: coefficient times ten to the exponent. */
  datatype Decimal = Decimal(coefficient: int, exponent: int)

  /** What `json.loads` makes of a text: a value, or a decode error with its message. */
  datatype Decoded = DecodeError(msg: string) | Decoded(value: Json)

  datatype Reason =
    | Required              // the field is absent and has no default
    | Custom(msg: string)   // a field validator raised `ValueError(msg)`
    | TooLong(maxLength: nat)  // a `max_length` bound
    | Below(min: int)       // a `ge` bound
    | Above(max: int)       // a `le` bound

  datatype FieldError = FieldError(field: string, reason: Reason)

  function Pow10(n: nat): (r: nat)
    ensures r >= 1
  {
    if n == 0 then 1 else 10 * Pow10(n - 1)
  }

  /** The value in cents of a decimal with at most two decimal places. */
  function Cents(d: Decimal): (c: int)
    requires d.exponent >= -2
    ensures c >= 0 <==> d.coefficient >= 0
  {
    d.coefficient * Pow10(d.exponent + 2)
  }

  /** Trailing zeros do not change the value: "1.5" and "1.50" are the same number of cents. */
  lemma CentsScale(c: int, e: int)
    requires e >= -1
    ensures Cents(Decimal(10 * c, e - 1)) == Cents(Decimal(c, e))
  {
    assert Pow10(e + 2) == 10 * Pow10(e + 1);
  }

  /** A string field of the create schema: a `mode='before'` validator that trims, then the length bound. */
  function RequiredText(v: Raw, what: string, maxLen: nat): (r: Result<string, Reason>)
    ensures r.Ok? <==> v.Str? && !AllSpace(v.s) && |Strip(v.s)| <= maxLen
    ensures r.Ok? ==> r.value == Strip(v.s) && IsStripped(r.value) && 1 <= |r.value| <= maxLen
    ensures v.Missing? ==> r == Err(Required)
    ensures v.Null? ==> r == Err(Custom(what + " is required"))
    ensures v.Str? && AllSpace(v.s) ==> r == Err(Custom(what + " cannot be empty"))
    ensures v.Dict? || v.Other? ==> r == Err(Custom(what + " must be a string"))
  {
    match v
    case Missing => Err(Required)
    case Null => Err(Custom(what + " is required"))
    case Str(s) =>
      StripEmptyIff(s);
      var t := Strip(s);
      if t == [] then Err(Custom(what + " cannot be empty"))
      else if |t| > maxLen then Err(TooLong(maxLen))
      else Ok(t)
    case Dict(_, _) => Err(Custom(what + " must be a string"))
    case Other(_) => Err(Custom(what + " must be a string"))
  }

  /** The same field in the update schema, where null (or absence) means "not provided". */
  function OptionalText(v: Raw, what: string, maxLen: nat): (r: Result<Option<string>, Reason>)
    ensures r == Ok(None) <==> v.Missing? || v.Null?
    ensures (r.Ok? && r.value.Some?) <==> v.Str? && !AllSpace(v.s) && |Strip(v.s)| <= maxLen
    ensures r.Ok? && r.value.Some? ==> r.value.value == Strip(v.s) && 1 <= |r.value.value| <= maxLen
    ensures v.Str? && AllSpace(v.s) ==> r == Err(Custom(what + " cannot be empty"))
    ensures v.Dict? || v.Other? ==> r == Err(Custom(what + " must be a string"))
  {
    match v
    case Missing => Ok(None)
    case Null => Ok(None)
    case Str(s) =>
      StripEmptyIff(s);
      var t := Strip(s);
      if t == [] then Err(Custom(what + " cannot be empty"))
      else if |t| > maxLen then Err(TooLong(maxLen))
      else Ok(Some(t))
    case Dict(_, _) => Err(Custom(what + " must be a string"))
    case Other(_) => Err(Custom(what + " must be a string"))
  }

  /** `validate_description` (both schemas): trimmed, with blank meaning no description. */
  function Description(v: Raw): (r: Option<string>)
    ensures r.None? <==> v.Missing? || v.Null? || (v.Str? && AllSpace(v.s))
    ensures v.Str? && r.Some? ==> r.value == Strip(v.s) && IsStripped(r.value) && r.value != []
    ensures v.Dict? || v.Other? ==> r == Some(v.text)
  {
    match v
    case Missing => None
    case Null => None
    case Str(s) =>
      StripEmptyIff(s);
      var t := Strip(s);
      if t == [] then None else Some(t)
    case Dict(_, text) => Some(text)
    case Other(text) => Some(text)
  }

  /** `validate_features` of the update schema: null stays null; text must decode to a JSON object. */
  function UpdateFeatures(v: Raw, decode: string -> Decoded): (r: Result<Option<Features>, Reason>)
    ensures r == Ok(None) <==> v.Missing? || v.Null?
    ensures r.Ok? && r.value.Some? <==>
      v.Dict? || (v.Str? && decode(v.s).Decoded? && decode(v.s).value.JObject?)
    ensures r.Ok? && v.Dict? ==> r.value == Some(v.fields)
    ensures r.Ok? && v.Str? ==> r.value == Some(decode(v.s).value.fields)
    ensures v.Str? && decode(v.s).DecodeError? ==> r == Err(Custom("Invalid JSON for features: " + decode(v.s).msg))
  {
    match v
    case Missing => Ok(None)
    case Null => Ok(None)
    case Str(s) =>
      (match decode(s)
       case DecodeError(msg) => Err(Custom("Invalid JSON for features: " + msg))
       case Decoded(JObject(fields)) => Ok(Some(fields))
       case Decoded(_) => Err(Custom("Features must be a JSON object (dict)")))
    case Dict(fields, _) => Ok(Some(fields))
    case Other(_) => Err(Custom("Features must be a JSON object (dict)"))
  }

  /** `validate_features` of the create schema: the same rule, with null (or absence) meaning `{}`. */
  function CreateFeatures(v: Raw, decode: string -> Decoded): (r: Result<Features, Reason>)
    ensures r.Ok? <==> UpdateFeatures(v, decode).Ok?
    ensures (v.Missing? || v.Null?) ==> r == Ok(map[])
    ensures r.Ok? && !(v.Missing? || v.Null?) ==> r.value == UpdateFeatures(v, decode).value.value
  {
    match UpdateFeatures(v, decode)
    case Ok(None) => Ok(map[])
    case Ok(Some(f)) => Ok(f)
    case Err(e) => Err(e)
  }

  /** `unit_price` in the create and price-update schemas: `ge=0`, then at most two decimal places. */
  function UnitPrice(d: Decimal): (r: Result<nat, Reason>)
    ensures r.Ok? <==> d.coefficient >= 0 && d.exponent >= -2
    ensures r.Ok? ==> d.exponent >= -2 && r.value == Cents(d)
    ensures d.coefficient < 0 ==> r == Err(Below(0))
  {
    if d.coefficient < 0 then Err(Below(0))
    else if d.exponent < -2 then Err(Custom("Unit price can have at most 2 decimal places"))
    else var c: nat := Cents(d); Ok(c)
  }

  /** Every non-negative amount of cents, written with two places, is accepted as itself. */
  lemma UnitPriceRoundTrip(cents: nat)
    ensures UnitPrice(Decimal(cents, -2)) == Ok(cents)
  {
  }

  /** `unit_price` in the update schema and in a bulk price item, as written: only `ge=0`. */
  function UnitPriceAsWritten(d: Decimal): (r: Result<Decimal, Reason>)
    ensures r.Ok? <==> d.coefficient >= 0
    ensures r.Ok? ==> r.value == d
  {
    if d.coefficient < 0 then Err(Below(0)) else Ok(d)
  }

  /** The update and bulk schemas accept a price the create and price-update schemas refuse. */
  lemma ThreeDecimalPlacesSlipThrough()
    ensures UnitPriceAsWritten(Decimal(1005, -3)).Ok?
    ensures UnitPrice(Decimal(1005, -3)).Err?
  {
  }

  /** An integer field with a `ge` bound and, when `max` is given, an `le` bound. */
  function Bounded(n: int, min: nat, max: Option<int>): (r: Result<nat, Reason>)
    ensures r.Ok? <==> n >= min && (max.Some? ==> n <= max.value)
    ensures r.Ok? ==> r.value == n
    ensures n < min ==> r == Err(Below(min))
  {
    if n < min then Err(Below(min))
    else if max.Some? && n > max.value then Err(Above(max.value))
    else Ok(n)
  }

  function ErrorsOf<T>(field: string, r: Result<T, Reason>): (es: seq<FieldError>)
    ensures r.Ok? <==> es == []
    ensures r.Err? ==> es == [FieldError(field, r.error)]
  {
    if r.Err? then [FieldError(field, r.error)] else []
  }

  datatype CreateInput = CreateInput(
    name: Raw, category: Raw, description: Raw, unitPrice: Option<Decimal>,
    stock: Option<int>, sellQuantity: Option<int>, features: Raw, isActive: Option<bool>)

  datatype ProductCreate = ProductCreate(
    name: string, category: string, description: Option<string>, unitPrice: nat,
    stock: nat, sellQuantity: nat, features: Features, isActive: bool)

  function Defaulted(n: Option<int>, default: int, min: nat): Result<nat, Reason> {
    Bounded(n.GetOr(default), min, None)
  }

  function RequiredPrice(d: Option<Decimal>): Result<nat, Reason> {
    if d.None? then Err(Required) else UnitPrice(d.value)
  }

  /** `ProductCreateSchema`: every field validated, every failure reported. */
  function ValidateCreate(input: CreateInput, decode: string -> Decoded): (r: Result<ProductCreate, seq<FieldError>>)
    ensures r.Ok? <==>
      input.name.Str? && !AllSpace(input.name.s) && |Strip(input.name.s)| <= NAME_MAX &&
      input.category.Str? && !AllSpace(input.category.s) && |Strip(input.category.s)| <= CATEGORY_MAX &&
      input.unitPrice.Some? && input.unitPrice.value.coefficient >= 0 && input.unitPrice.value.exponent >= -2 &&
      input.stock.GetOr(0) >= 0 && input.sellQuantity.GetOr(1) >= 1 &&
      UpdateFeatures(input.features, decode).Ok?
    ensures r.Ok? ==>
      r.value.name == Strip(input.name.s) && 1 <= |r.value.name| <= NAME_MAX &&
      r.value.category == Strip(input.category.s) && 1 <= |r.value.category| <= CATEGORY_MAX &&
      r.value.description == Description(input.description) &&
      r.value.stock == input.stock.GetOr(0) && r.value.sellQuantity == input.sellQuantity.GetOr(1) &&
      r.value.sellQuantity >= 1 && r.value.isActive == input.isActive.GetOr(true)
    ensures r.Ok? ==>
      input.unitPrice.value.exponent >= -2 && r.value.unitPrice == Cents(input.unitPrice.value) &&
      r.value.features == CreateFeatures(input.features, decode).value
    ensures r.Err? ==> r.error != []
    ensures r.Err? ==> forall e :: e in r.error ==>
      e.field in {"product_name", "product_category", "unit_price", "stock_quantity", "sell_quantity", "features"}
  {
    var name := RequiredText(input.name, "Product name", NAME_MAX);
    var category := RequiredText(input.category, "Product category", CATEGORY_MAX);
    var price := RequiredPrice(input.unitPrice);
    var stock := Defaulted(input.stock, 0, 0);
    var sell := Defaulted(input.sellQuantity, 1, 1);
    var features := CreateFeatures(input.features, decode);
    var errors := ErrorsOf("product_name", name) + ErrorsOf("product_category", category) +
      ErrorsOf("unit_price", price) + ErrorsOf("stock_quantity", stock) +
      ErrorsOf("sell_quantity", sell) + ErrorsOf("features", features);
    if errors == [] then
      Ok(ProductCreate(name.value, category.value, Description(input.description), price.value,
                       stock.value, sell.value, features.value, input.isActive.GetOr(true)))
    else Err(errors)
  }

  datatype UpdateInput = UpdateInput(
    name: Raw, category: Raw, description: Raw, unitPrice: Option<Decimal>,
    stock: Option<int>, sellQuantity: Option<int>, features: Raw, isActive: Option<bool>)

  /** A validated partial update: `None` means "leave the field as it is". */
  datatype ProductUpdate = ProductUpdate(
    name: Option<string>, category: Option<string>, description: Option<string>, unitPrice: Option<nat>,
    stock: Option<nat>, sellQuantity: Option<nat>, features: Option<Features>, isActive: Option<bool>)

  function OptionalBounded(n: Option<int>, min: nat): (r: Result<Option<nat>, Reason>)
    ensures r.Ok? <==> (n.Some? ==> n.value >= min)
    ensures r.Ok? ==> (r.value.None? <==> n.None?) && (r.value.Some? ==> r.value.value == n.value)
  {
    if n.None? then Ok(None)
    else match Bounded(n.value, min, None)
      case Ok(v) => Ok(Some(v))
      case Err(e) => Err(e)
  }

  function OptionalPrice(d: Option<Decimal>): (r: Result<Option<nat>, Reason>)
    ensures r.Ok? <==> (d.Some? ==> d.value.coefficient >= 0 && d.value.exponent >= -2)
    ensures r.Ok? ==> (r.value.None? <==> d.None?)
    ensures r.Ok? && r.value.Some? ==> d.value.exponent >= -2 && r.value.value == Cents(d.value)
  {
    if d.None? then Ok(None)
    else match UnitPrice(d.value)
      case Ok(v) => Ok(Some(v))
      case Err(e) => Err(e)
  }

  /**
   * `ProductUpdateSchema`, with the unit price held to two decimal places as
   * in the create schema (see `UnitPriceAsWritten` for the rule as written).
   */
  function ValidateUpdate(input: UpdateInput, decode: string -> Decoded): (r: Result<ProductUpdate, seq<FieldError>>)
    ensures r.Ok? <==>
      OptionalText(input.name, "Product name", NAME_MAX).Ok? &&
      OptionalText(input.category, "Product category", CATEGORY_MAX).Ok? &&
      (input.unitPrice.Some? ==> input.unitPrice.value.coefficient >= 0 && input.unitPrice.value.exponent >= -2) &&
      (input.stock.Some? ==> input.stock.value >= 0) &&
      (input.sellQuantity.Some? ==> input.sellQuantity.value >= 1) &&
      UpdateFeatures(input.features, decode).Ok?
    ensures r.Ok? ==>
      (r.value.name.None? <==> input.name.Missing? || input.name.Null?) &&
      (r.value.category.None? <==> input.category.Missing? || input.category.Null?) &&
      (r.value.features.None? <==> input.features.Missing? || input.features.Null?) &&
      (r.value.unitPrice.None? <==> input.unitPrice.None?) &&
      (r.value.stock.None? <==> input.stock.None?) &&
      (r.value.sellQuantity.Some? ==> r.value.sellQuantity.value >= 1) &&
      (r.value.name.Some? ==> 1 <= |r.value.name.value| <= NAME_MAX) &&
      (r.value.category.Some? ==> 1 <= |r.value.category.value| <= CATEGORY_MAX) &&
      r.value.description == Description(input.description) && r.value.isActive == input.isActive
    ensures r.Ok? ==>
      (r.value.name.Some? ==> input.name.Str? && r.value.name.value == Strip(input.name.s)) &&
      (r.value.category.Some? ==> input.category.Str? && r.value.category.value == Strip(input.category.s)) &&
      (r.value.unitPrice.Some? ==>
        input.unitPrice.value.exponent >= -2 && r.value.unitPrice.value == Cents(input.unitPrice.value)) &&
      (r.value.stock.Some? ==> r.value.stock.value == input.stock.value) &&
      (r.value.sellQuantity.None? <==> input.sellQuantity.None?) &&
      (r.value.sellQuantity.Some? ==> r.value.sellQuantity.value == input.sellQuantity.value) &&
      r.value.features == UpdateFeatures(input.features, decode).value
    ensures r.Err? ==> r.error != []
  {
    var name := OptionalText(input.name, "Product name", NAME_MAX);
    var category := OptionalText(input.category, "Product category", CATEGORY_MAX);
    var price := OptionalPrice(input.unitPrice);
    var stock := OptionalBounded(input.stock, 0);
    var sell := OptionalBounded(input.sellQuantity, 1);
    var features := UpdateFeatures(input.features, decode);
    var errors := ErrorsOf("product_name", name) + ErrorsOf("product_category", category) +
      ErrorsOf("unit_price", price) + ErrorsOf("stock_quantity", stock) +
      ErrorsOf("sell_quantity", sell) + ErrorsOf("features", features);
    if errors == [] then
      Ok(ProductUpdate(name.value, category.value, Description(input.description), price.value,
                       stock.value, sell.value, features.value, input.isActive))
    else Err(errors)
  }

  /** `ProductListQuerySchema`'s paging fields: page at least 1 (default 1), page size 1..100 (default 20). */
  function ValidateListPaging(page: Option<int>, pageSize: Option<int>): (r: Result<(nat, nat), seq<FieldError>>)
    ensures r.Ok? <==> page.GetOr(1) >= 1 && 1 <= pageSize.GetOr(20) <= 100
    ensures r.Ok? ==> r.value == (page.GetOr(1), pageSize.GetOr(20))
  {
    var p := Bounded(page.GetOr(1), 1, None);
    var s := Bounded(pageSize.GetOr(20), 1, Some(100));
    var errors := ErrorsOf("page", p) + ErrorsOf("page_size", s);
    if errors == [] then Ok((p.value, s.value)) else Err(errors)
  }

  /** A blank description in an update reads as "not provided", so an update cannot clear it. */
  lemma BlankDescriptionIsNotProvided(s: string)
    requires AllSpace(s)
    ensures Description(Str(s)) == Description(Null) == None
  {
  }
}
