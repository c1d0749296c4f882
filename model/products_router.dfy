/** `routers/products.py`: the product list's choice between search,
    category and plain listing, and who may create, change or delete a
    product. The caller is the user the dependencies of `routers/base.py`
    resolved. The controller's generic `create`, `update` and `remove` live
    in a base class that is not part of this model: `create` stores the body
    as a row under the next id, `remove` deletes the row found, and the row
    `update` writes is the parameter `apply`. */
module ProductsRouter {
  import opened Wrappers
  import opened Seqs
  import opened Tables
  import opened ProductSchemas
  import opened ProductController

  const PRODUCT_NOT_FOUND := "Product not found"
  const SUPPLIERS_ONLY := "Only suppliers can create products"
  const NOT_PERMITTED := "Not enough permissions"

  /** `list_products`: a non-empty `q` searches (the category is then
      ignored), else a category filters, else the plain window of the
      table; each is the window `skip`/`limit` of the rows that pass. */
  function ListProducts(products: seq<ProductRow>, q: Option<string>, category: Option<Category>,
                        skip: nat, limit: nat): (r: seq<ProductRow>)
    ensures Truthy(q) ==> IsWindow(r, Filter(products, Hits(q.value)), skip, limit)
    ensures !Truthy(q) && category.Some? ==> IsWindow(r, Filter(products, InCategory(category.value)), skip, limit)
    ensures !Truthy(q) && category.None? ==> IsWindow(r, products, skip, limit)
    ensures |r| <= limit
    ensures forall i :: 0 <= i < |r| ==> r[i] in products
    ensures Truthy(q) ==> forall i :: 0 <= i < |r| ==> SearchHit(r[i], q.value)
    ensures !Truthy(q) && category.Some? ==> forall i :: 0 <= i < |r| ==> r[i].category == category.value
  {
    if Truthy(q) then Search(products, q.value, skip, limit)
    else if category.Some? then ByCategory(products, category.value, skip, limit)
    else PaginateFrom(products, skip, limit); Paginate(products, skip, limit)
  }

  /** The search text takes precedence: with one, any category gives the same
      list; with neither filter, a wide enough first page is the whole
      table. */
  lemma ListDispatch(products: seq<ProductRow>, q: Option<string>, c1: Option<Category>, c2: Option<Category>,
                     skip: nat, limit: nat)
    ensures Truthy(q) ==> ListProducts(products, q, c1, skip, limit) == ListProducts(products, q, c2, skip, limit)
    ensures !Truthy(q) && c1.None? && limit >= |products| ==> ListProducts(products, q, c1, 0, limit) == products
  {
    if !Truthy(q) && c1.None? && limit >= |products| {
      assert products[0..][..|products|] == products;
    }
  }

  function FindProduct(products: seq<ProductRow>, productId: int): Option<ProductRow> {
    Find(products, HasId(productId))
  }

  /** `read_product`: the product, or 404. */
  function ReadProduct(products: seq<ProductRow>, productId: int): (r: Result<ProductRow, HttpError>)
    ensures r.Ok? <==> exists i :: 0 <= i < |products| && products[i].id == productId
    ensures r.Ok? ==> r.value.id == productId && r.value in products
    ensures r.Err? ==> r.error == HttpError(NOT_FOUND, PRODUCT_NOT_FOUND)
  {
    match FindProduct(products, productId)
    case None =>
      assert forall i :: 0 <= i < |products| ==> !HasId(productId)(products[i]);
      Err(HttpError(NOT_FOUND, PRODUCT_NOT_FOUND))
    case Some(p) => Ok(p)
  }

  /** The check `update_product` and `delete_product` share: 404 for an
      unknown id before 403 for a caller who neither owns the product nor is
      an admin. */
  function WriteCheck(products: seq<ProductRow>, current: UserRow, productId: int): (r: Result<ProductRow, HttpError>)
    ensures ReadProduct(products, productId).Err? ==> r == ReadProduct(products, productId)
    ensures r.Ok? <==> ReadProduct(products, productId).Ok?
                       && (ReadProduct(products, productId).value.ownerId == current.id || current.role == Admin)
    ensures ReadProduct(products, productId).Ok? && r.Err? ==> r.error == HttpError(FORBIDDEN, NOT_PERMITTED)
    ensures r.Ok? ==> r == ReadProduct(products, productId)
  {
    var p :- ReadProduct(products, productId);
    if p.ownerId != current.id && current.role != Admin then Err(HttpError(FORBIDDEN, NOT_PERMITTED))
    else Ok(p)
  }

  /** The row `create_product` stores: the body under the next id, owned by
      the caller, with no supplier. */
  function NewProduct(id: int, p: ProductCreate, ownerId: int): ProductRow {
    ProductRow(id, p.name, p.description, p.price, p.unit, p.category, p.stockQuantity, ownerId, None)
  }

  /** `create_product`: 403 and no change unless the caller is a supplier or
      an admin; otherwise the product is stored with the caller as owner,
      whatever the body says. */
  method CreateProduct(db: Database, current: UserRow, product: ProductCreate) returns (r: Result<ProductRow, HttpError>)
    modifies db
    ensures current.role !in {Supplier, Admin} ==> r == Err(HttpError(FORBIDDEN, SUPPLIERS_ONLY)) && db.tables == old(db.tables)
    ensures current.role in {Supplier, Admin} ==>
              r.Ok? && r.value == NewProduct(NextId(old(db.tables.products), ProductId), product, current.id)
              && db.tables == old(db.tables).(products := old(db.tables.products) + [r.value])
    ensures r.Ok? ==> r.value.ownerId == current.id && ReadProduct(db.tables.products, r.value.id).Ok?
  {
    if current.role !in {Supplier, Admin} {
      return Err(HttpError(FORBIDDEN, SUPPLIERS_ONLY));
    }
    var row := NewProduct(NextId(db.tables.products, ProductId), product, current.id);
    db.tables := db.tables.(products := db.tables.products + [row]);
    assert db.tables.products[|db.tables.products| - 1] == row;
    r := Ok(row);
  }

  /** `update_product`: the write check's error and no change, or the row
      found rewritten by the controller's update; no other row changes. */
  method UpdateProduct(db: Database, current: UserRow, productId: int, body: ProductUpdate,
                       apply: (ProductRow, ProductUpdate) -> ProductRow) returns (r: Result<ProductRow, HttpError>)
    modifies db
    ensures r.Err? <==> WriteCheck(old(db.tables.products), current, productId).Err?
    ensures r.Err? ==> r.error == WriteCheck(old(db.tables.products), current, productId).error && db.tables == old(db.tables)
    ensures r.Ok? ==> r.value == apply(WriteCheck(old(db.tables.products), current, productId).value, body)
                      && db.tables == old(db.tables).(products := UpdateFirst(old(db.tables.products), HasId(productId),
                                                                              (p: ProductRow) => apply(p, body)))
  {
    var check := WriteCheck(db.tables.products, current, productId);
    if check.Err? {
      return Err(check.error);
    }
    db.tables := db.tables.(products := UpdateFirst(db.tables.products, HasId(productId), (p: ProductRow) => apply(p, body)));
    r := Ok(apply(check.value, body));
  }

  /** `delete_product`: the write check's error and no change, or the row
      found is deleted (and no body is returned). */
  method DeleteProduct(db: Database, current: UserRow, productId: int) returns (r: Result<(), HttpError>)
    modifies db
    ensures r.Err? <==> WriteCheck(old(db.tables.products), current, productId).Err?
    ensures r.Err? ==> r.error == WriteCheck(old(db.tables.products), current, productId).error && db.tables == old(db.tables)
    ensures r.Ok? ==> db.tables == old(db.tables).(products := RemoveFirst(old(db.tables.products), HasId(productId)))
  {
    var check := WriteCheck(db.tables.products, current, productId);
    if check.Err? {
      return Err(check.error);
    }
    db.tables := db.tables.(products := RemoveFirst(db.tables.products, HasId(productId)));
    r := Ok(());
  }

  /** Under distinct ids, a deleted product reads as 404 afterwards. */
  lemma DeletedProductNotFound(products: seq<ProductRow>, productId: int)
    requires UniqueIds(products, ProductId)
    ensures ReadProduct(RemoveFirst(products, HasId(productId)), productId) == Err(HttpError(NOT_FOUND, PRODUCT_NOT_FOUND))
  {
    forall i, j | 0 <= i < j < |products| && HasId(productId)(products[i]) ensures !HasId(productId)(products[j]) {
      assert ProductId(products[i]) != ProductId(products[j]);
    }
    RemoveFirstLeavesNone(products, HasId(productId));
  }
}
