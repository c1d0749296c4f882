/** `controllers/product_controller.py`: an owner's or a category's products,
    the stock adjustment and the case-insensitive name/description search
    (`ilike` with the query wrapped in `%`, the query's own `%` and `_`
    acting as wildcards). */
module ProductController {
  import opened Wrappers
  import opened Seqs
  import opened Text
  import opened Tables

  function OwnedBy(ownerId: int): ProductRow -> bool {
    (p: ProductRow) => p.ownerId == ownerId
  }

  function InCategory(category: Category): ProductRow -> bool {
    (p: ProductRow) => p.category == category
  }

  /** `.filter(Product.owner_id == owner_id).offset(skip).limit(limit)`: the
      owner's products from the `skip`-th on, at most `limit`, in stored
      order. */
  function ByOwner(products: seq<ProductRow>, ownerId: int, skip: nat, limit: nat): (r: seq<ProductRow>)
    ensures IsWindow(r, Filter(products, OwnedBy(ownerId)), skip, limit)
    ensures forall i :: 0 <= i < |r| ==> r[i].ownerId == ownerId && r[i] in products
  {
    Paginate(Filter(products, OwnedBy(ownerId)), skip, limit)
  }

  /** `.filter(Product.category == category).offset(skip).limit(limit)`: the
      category's products from the `skip`-th on, at most `limit`, in stored
      order. */
  function ByCategory(products: seq<ProductRow>, category: Category, skip: nat, limit: nat): (r: seq<ProductRow>)
    ensures IsWindow(r, Filter(products, InCategory(category)), skip, limit)
    ensures forall i :: 0 <= i < |r| ==> r[i].category == category && r[i] in products
  {
    Paginate(Filter(products, InCategory(category)), skip, limit)
  }

  /** The product-list window that skips nothing and is wide enough holds
      every product of the owner. */
  lemma ByOwnerComplete(products: seq<ProductRow>, ownerId: int, limit: nat)
    requires limit >= |products|
    ensures forall i :: 0 <= i < |products| && products[i].ownerId == ownerId ==>
              products[i] in ByOwner(products, ownerId, 0, limit)
  {
    var all := Filter(products, OwnedBy(ownerId));
    assert Paginate(all, 0, limit) == all;
  }

  function HasId(id: int): ProductRow -> bool {
    (p: ProductRow) => p.id == id
  }

  function Restocked(change: int): ProductRow -> ProductRow {
    (p: ProductRow) => p.(stockQuantity := p.stockQuantity + change)
  }

  /** `db_obj.stock_quantity += quantity_change` on the product found by id,
      with no lower bound. */
  method UpdateStock(db: Database, productId: int, change: int)
    modifies db
    ensures db.tables == old(db.tables).(products := UpdateFirst(old(db.tables.products), HasId(productId), Restocked(change)))
  {
    db.tables := db.tables.(products := UpdateFirst(db.tables.products, HasId(productId), Restocked(change)));
  }

  /** The adjustment adds `change` to the product's stock, even below zero,
      and a later opposite adjustment restores the table. */
  lemma StockChangeUndo(products: seq<ProductRow>, productId: int, change: int)
    ensures var once := UpdateFirst(products, HasId(productId), Restocked(change));
            UpdateFirst(once, HasId(productId), Restocked(-change)) == products
    ensures Find(products, HasId(productId)).Some? ==>
              Find(UpdateFirst(products, HasId(productId), Restocked(change)), HasId(productId)).value.stockQuantity
              == Find(products, HasId(productId)).value.stockQuantity + change
  {
    var once := UpdateFirst(products, HasId(productId), Restocked(change));
    FindCongruent(once, HasId(productId), HasId(productId));
    match FirstIndex(products, HasId(productId))
    case None =>
    case Some(i) =>
      FirstIndexUnique(once, HasId(productId), i);
      assert once[i].(stockQuantity := once[i].stockQuantity - change) == products[i];
  }

  /** `name.ilike(f"%{query}%") | description.ilike(f"%{query}%")`. */
  predicate SearchHit(p: ProductRow, query: string) {
    IlikeText(p.name, query) || Ilike(p.description, query)
  }

  function Hits(query: string): ProductRow -> bool {
    (p: ProductRow) => SearchHit(p, query)
  }

  /** `search`: the products whose name or description matches the query
      pattern, ignoring case, from the `skip`-th on, at most `limit`, in
      the model's row order. */
  function Search(products: seq<ProductRow>, query: string, skip: nat, limit: nat): (r: seq<ProductRow>)
    ensures IsWindow(r, Filter(products, Hits(query)), skip, limit)
    ensures forall i :: 0 <= i < |r| ==> SearchHit(r[i], query) && r[i] in products
  {
    Paginate(Filter(products, Hits(query)), skip, limit)
  }

  /** A query without `%`, `_` or backslash finds the products whose name or
      description contains it, ignoring case. */
  lemma SearchPlainQuery(p: ProductRow, query: string)
    requires NoLikeSpecials(query)
    ensures SearchHit(p, query) <==> ContainsIgnoreCase(p.name, query)
                                     || (p.description.Some? && ContainsIgnoreCase(p.description.value, query))
  {
    IlikePlainTerm(p.name, query);
    if p.description.Some? {
      IlikePlainTerm(p.description.value, query);
    }
  }

  /** An empty query matches every product, so the first page is the table's
      first `limit` products. */
  lemma SearchEmptyQuery(products: seq<ProductRow>, limit: nat)
    ensures Search(products, "", 0, limit) == Take(products, limit)
  {
    forall i | 0 <= i < |products| ensures Hits("")(products[i]) {
      IlikeEmptyTerm(products[i].name);
    }
    FilterAll(products, Hits(""));
  }
}
