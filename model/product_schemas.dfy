/** Request validation of `schemas/product.py`: a new product and a product
    update, with their defaults. Prices are integer cents. */
module ProductSchemas {
  import opened Wrappers
  import opened Tables

  const MAX_NAME_LENGTH := 100
  const MAX_UNIT_LENGTH := 20
  const DEFAULT_UNIT := "kg"
  const DEFAULT_STOCK := 0

  datatype ProductCreate = ProductCreate(name: string, description: Option<string>, price: int,
                                         unit: string, category: Category, stockQuantity: int)

  datatype ProductInput = ProductInput(name: Option<string>, description: Option<string>, price: Option<int>,
                                       unit: Option<string>, category: Option<string>, stockQuantity: Option<int>)

  /** What every accepted `ProductCreate` satisfies. */
  predicate ValidProduct(p: ProductCreate) {
    |p.name| <= MAX_NAME_LENGTH && p.price > 0 && |p.unit| <= MAX_UNIT_LENGTH && p.stockQuantity >= 0
  }

  predicate NameOk(n: Option<string>) { n.Some? && |n.value| <= MAX_NAME_LENGTH }
  predicate PriceOk(p: Option<int>) { p.Some? && p.value > 0 }
  predicate UnitOk(u: Option<string>) { u.None? || |u.value| <= MAX_UNIT_LENGTH }
  predicate CategoryOk(c: Option<string>) { c.Some? && ParseCategory(c.value).Some? }
  predicate StockOk(s: Option<int>) { s.None? || s.value >= 0 }

  function Problem(bad: bool, field: string): seq<string> {
    if bad then [field] else []
  }

  function ParseProductCreate(raw: ProductInput): (r: Result<ProductCreate, seq<string>>)
    ensures r.Ok? <==> NameOk(raw.name) && PriceOk(raw.price) && UnitOk(raw.unit)
                       && CategoryOk(raw.category) && StockOk(raw.stockQuantity)
    ensures r.Ok? ==> ValidProduct(r.value)
    ensures r.Ok? ==> r.value.name == raw.name.value && r.value.price == raw.price.value
                      && r.value.unit == raw.unit.GetOr(DEFAULT_UNIT)
                      && r.value.stockQuantity == raw.stockQuantity.GetOr(DEFAULT_STOCK)
                      && CategoryName(r.value.category) == raw.category.value
                      && r.value.description == raw.description
    ensures r.Err? ==> ("name" in r.error <==> !NameOk(raw.name))
    ensures r.Err? ==> ("price" in r.error <==> !PriceOk(raw.price))
    ensures r.Err? ==> ("unit" in r.error <==> !UnitOk(raw.unit))
    ensures r.Err? ==> ("category" in r.error <==> !CategoryOk(raw.category))
    ensures r.Err? ==> ("stock_quantity" in r.error <==> !StockOk(raw.stockQuantity))
  {
    var errs := Problem(!NameOk(raw.name), "name") + Problem(!PriceOk(raw.price), "price")
      + Problem(!UnitOk(raw.unit), "unit") + Problem(!CategoryOk(raw.category), "category")
      + Problem(!StockOk(raw.stockQuantity), "stock_quantity");
    if errs != [] then Err(errs)
    else Ok(ProductCreate(raw.name.value, raw.description, raw.price.value, raw.unit.GetOr(DEFAULT_UNIT),
                          ParseCategory(raw.category.value).value, raw.stockQuantity.GetOr(DEFAULT_STOCK)))
  }

  function ProductInputOf(p: ProductCreate): ProductInput {
    ProductInput(Some(p.name), p.description, Some(p.price), Some(p.unit), Some(CategoryName(p.category)),
                 Some(p.stockQuantity))
  }

  lemma ProductRoundTrip(p: ProductCreate)
    requires ValidProduct(p)
    ensures ParseProductCreate(ProductInputOf(p)) == Ok(p)
  {
    CategoryRoundTrip(p.category);
  }

  /** `ProductUpdate` makes name, price and stock optional under the same
      bounds, but still requires the category and defaults the unit. */
  datatype ProductUpdate = ProductUpdate(name: Option<string>, description: Option<string>, price: Option<int>,
                                         unit: string, category: Category, stockQuantity: Option<int>)

  predicate OptionalNameOk(n: Option<string>) { n.None? || |n.value| <= MAX_NAME_LENGTH }
  predicate OptionalPriceOk(p: Option<int>) { p.None? || p.value > 0 }

  function ParseProductUpdate(raw: ProductInput): (r: Result<ProductUpdate, seq<string>>)
    ensures r.Ok? <==> OptionalNameOk(raw.name) && OptionalPriceOk(raw.price) && UnitOk(raw.unit)
                       && CategoryOk(raw.category) && StockOk(raw.stockQuantity)
    ensures r.Ok? ==> r.value.name == raw.name && r.value.price == raw.price
                      && r.value.stockQuantity == raw.stockQuantity
                      && r.value.unit == raw.unit.GetOr(DEFAULT_UNIT)
                      && r.value.description == raw.description
                      && raw.category.Some? && CategoryName(r.value.category) == raw.category.value
    ensures r.Err? ==> ("name" in r.error <==> !OptionalNameOk(raw.name))
    ensures r.Err? ==> ("price" in r.error <==> !OptionalPriceOk(raw.price))
    ensures r.Err? ==> ("unit" in r.error <==> !UnitOk(raw.unit))
    ensures r.Err? ==> ("category" in r.error <==> !CategoryOk(raw.category))
    ensures r.Err? ==> ("stock_quantity" in r.error <==> !StockOk(raw.stockQuantity))
  {
    var errs := Problem(!OptionalNameOk(raw.name), "name") + Problem(!OptionalPriceOk(raw.price), "price")
      + Problem(!UnitOk(raw.unit), "unit") + Problem(!CategoryOk(raw.category), "category")
      + Problem(!StockOk(raw.stockQuantity), "stock_quantity");
    if errs != [] then Err(errs)
    else Ok(ProductUpdate(raw.name, raw.description, raw.price, raw.unit.GetOr(DEFAULT_UNIT),
                          ParseCategory(raw.category.value).value, raw.stockQuantity))
  }

  /** Every accepted creation body is also an accepted update body, and an
      update that omits the category is rejected. */
  lemma UpdateAcceptsWhatCreateAccepts(raw: ProductInput)
    ensures ParseProductCreate(raw).Ok? ==> ParseProductUpdate(raw).Ok?
    ensures raw.category.None? ==> ParseProductUpdate(raw).Err?
  {
  }
}
