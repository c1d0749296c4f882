/** The back end's tables as values (one record type per SQLAlchemy model), the
    enums of `models/user.py` and `models/product.py`, the HTTP errors the routers
    raise, and the database as an object whose tables the write endpoints replace.
    Only the columns some rule reads or writes are kept; money is in integer
    cents and times are integer seconds. */
module Tables {
  import opened Wrappers
  import Text

  /** `UserRole` (models/user.py). */
  datatype Role = Consumer | Supplier | Admin

  function RoleName(r: Role): string {
    match r
    case Consumer => "consumer"
    case Supplier => "supplier"
    case Admin => "admin"
  }

  /** Pydantic's enum coercion: the member whose value is `s`, if any. */
  function ParseRole(s: string): (r: Option<Role>)
    ensures r.Some? <==> s == "consumer" || s == "supplier" || s == "admin"
    ensures r.Some? ==> RoleName(r.value) == s
  {
    if s == "consumer" then Some(Consumer)
    else if s == "supplier" then Some(Supplier)
    else if s == "admin" then Some(Admin)
    else None
  }

  lemma RoleRoundTrip(r: Role)
    ensures ParseRole(RoleName(r)) == Some(r)
  {
  }

  /** `ProductCategory` (models/product.py). */
  datatype Category = Vegetables | Fruits | Dairy | Bakery | Meat | Seafood | Beverages | Other

  function CategoryName(c: Category): string {
    match c
    case Vegetables => "vegetables"
    case Fruits => "fruits"
    case Dairy => "dairy"
    case Bakery => "bakery"
    case Meat => "meat"
    case Seafood => "seafood"
    case Beverages => "beverages"
    case Other => "other"
  }

  function ParseCategory(s: string): (r: Option<Category>)
    ensures r.Some? ==> CategoryName(r.value) == s
  {
    if s == "vegetables" then Some(Vegetables)
    else if s == "fruits" then Some(Fruits)
    else if s == "dairy" then Some(Dairy)
    else if s == "bakery" then Some(Bakery)
    else if s == "meat" then Some(Meat)
    else if s == "seafood" then Some(Seafood)
    else if s == "beverages" then Some(Beverages)
    else if s == "other" then Some(Other)
    else None
  }

  lemma CategoryRoundTrip(c: Category)
    ensures ParseCategory(CategoryName(c)) == Some(c)
  {
  }

  datatype UserRow = UserRow(id: int, email: string, hashedPassword: string,
                             fullName: Option<string>, isActive: bool, role: Role)

  datatype ProductRow = ProductRow(id: int, name: string, description: Option<string>,
                                   price: int, unit: string, category: Category,
                                   stockQuantity: int, ownerId: int, supplierId: Option<int>)

  datatype OrderRow = OrderRow(id: int, userId: int, supplierId: Option<int>, status: string,
                               shippingAddress: string, totalAmount: int, createdAt: int)

  datatype OrderItemRow = OrderItemRow(id: int, orderId: int, productId: int,
                                       quantity: int, unitPrice: int)

  datatype SupplierRow = SupplierRow(id: int, userId: int, name: string,
                                     description: Option<string>, category: Option<string>)

  datatype LinkRequestRow = LinkRequestRow(id: int, userId: int, supplierId: int,
                                           message: Option<string>, status: string)

  datatype TeamMemberRow = TeamMemberRow(id: int, supplierId: int, userId: int,
                                         role: string, isActive: bool)

  datatype ConversationRow = ConversationRow(id: int, user1Id: int, user2Id: int)

  datatype MessageRow = MessageRow(id: int, conversationId: int, senderId: int,
                                   content: string, createdAt: int)

  /** The primary key of each table, as a function value for the generic
      table helpers below. */
  function UserId(r: UserRow): int { r.id }
  function ProductId(r: ProductRow): int { r.id }
  function OrderId(r: OrderRow): int { r.id }
  function OrderItemId(r: OrderItemRow): int { r.id }
  function SupplierId(r: SupplierRow): int { r.id }
  function LinkRequestId(r: LinkRequestRow): int { r.id }
  function TeamMemberId(r: TeamMemberRow): int { r.id }
  function ConversationId(r: ConversationRow): int { r.id }
  function MessageId(r: MessageRow): int { r.id }

  /** Every table, each in stored (insertion) order. */
  datatype Tables = Tables(
    users: seq<UserRow>,
    products: seq<ProductRow>,
    orders: seq<OrderRow>,
    orderItems: seq<OrderItemRow>,
    suppliers: seq<SupplierRow>,
    linkRequests: seq<LinkRequestRow>,
    teamMembers: seq<TeamMemberRow>,
    conversations: seq<ConversationRow>,
    messages: seq<MessageRow>)

  const EMPTY := Tables([], [], [], [], [], [], [], [], [])

  /** `value.ilike(f"%{term}%")`: the term wrapped in `%` and matched as a
      `LIKE` pattern ignoring ASCII case. The term is not escaped, so a `%`
      or `_` inside it is a wildcard too. */
  predicate IlikeText(value: string, term: string) {
    Text.LikeMatch(Text.Lower(value), "%" + Text.Lower(term) + "%")
  }

  /** The same on a nullable column: NULL never matches. */
  predicate Ilike(column: Option<string>, term: string) {
    column.Some? && IlikeText(column.value, term)
  }

  /** A term without `%`, `_` or backslash makes `ilike` a substring search
      that ignores case. */
  lemma IlikePlainTerm(value: string, term: string)
    requires Text.NoLikeSpecials(term)
    ensures IlikeText(value, term) <==> Text.ContainsIgnoreCase(value, term)
  {
    assert Text.NoLikeSpecials(Text.Lower(term));
    Text.LikeContains(Text.Lower(value), Text.Lower(term));
  }

  /** The empty term matches every value. */
  lemma IlikeEmptyTerm(value: string)
    ensures IlikeText(value, "")
  {
    assert "%" + Text.Lower("") + "%" == "%%";
    Text.LikeAnything(Text.Lower(value));
  }

  /** `_` in an unescaped term is a wildcard: it matches any value with a
      character, such as "Acme", which has no `_` in it. */
  lemma IlikeUnderscore()
    ensures IlikeText("Acme", "_") && !Text.ContainsIgnoreCase("Acme", "_")
  {
    assert Text.Lower("Acme") == "acme" && Text.Lower("_") == "_";
    Text.LikeAnything("cme");
    assert Text.LikeMatch("acme", "_%");
    Text.ContainsAt("acme", "_");
    assert !Text.OccursAt("acme", "_", 0) && !Text.OccursAt("acme", "_", 1)
        && !Text.OccursAt("acme", "_", 2) && !Text.OccursAt("acme", "_", 3);
  }

  /** `%` in an unescaped term is a wildcard: `a%e` matches "Apple", which
      does not contain the text "a%e". */
  lemma IlikePercent()
    ensures IlikeText("Apple", "a%e") && !Text.ContainsIgnoreCase("Apple", "a%e")
  {
    assert Text.Lower("Apple") == "apple" && Text.Lower("a%e") == "a%e";
    assert "%" + Text.Lower("a%e") + "%" == "%a%e%";
    ApplePattern();
    AppleLacksTerm();
  }

  lemma ApplePattern()
    ensures Text.LikeMatch("apple", "%a%e%")
  {
    Text.LikeAnything("");
    assert Text.LikeMatch("e", "e%");
    assert Text.LikeMatch("e", "%e%");
    assert Text.LikeMatch("le", "%e%");
    assert Text.LikeMatch("ple", "%e%");
    assert Text.LikeMatch("pple", "%e%");
    assert Text.LikeMatch("apple", "a%e%");
  }

  lemma AppleLacksTerm()
    ensures !Text.Contains("apple", "a%e")
  {
    Text.ContainsAt("apple", "a%e");
    var s, t := "apple", "a%e";
    assert t[1] == '%';
    assert s[0..3][1] == 'p' && s[1..4][1] == 'p' && s[2..5][1] == 'l';
    assert !Text.OccursAt(s, t, 0) && !Text.OccursAt(s, t, 1) && !Text.OccursAt(s, t, 2);
  }

  /** `HTTPException(status_code, detail)`. */
  datatype HttpError = HttpError(status: int, detail: string)

  const BAD_REQUEST := 400
  const UNAUTHORIZED := 401
  const FORBIDDEN := 403
  const NOT_FOUND := 404
  const INTERNAL_SERVER_ERROR := 500

  /** The body FastAPI sends for an exception no handler catches. */
  const UNHANDLED_DETAIL := "Internal Server Error"

  /** The key a new row of an integer primary-key table receives. PostgreSQL
      draws it from the table's sequence, which never hands out a key in use;
      the model takes one more than the largest id present (1 for an empty
      table), and the rest of the model relies only on its being fresh. */
  function NextId<T>(s: seq<T>, id: T -> int): (r: int)
    ensures r >= 1
    ensures forall i :: 0 <= i < |s| ==> id(s[i]) < r
  {
    if s == [] then 1
    else
      var r0 := NextId(s[..|s| - 1], id);
      var last := id(s[|s| - 1]);
      assert forall i :: 0 <= i < |s| - 1 ==> s[i] == s[..|s| - 1][i];
      if last + 1 > r0 then last + 1 else r0
  }

  /** Appending a row with the next id makes the next id one larger. */
  lemma NextIdAfterInsert<T>(s: seq<T>, x: T, id: T -> int)
    requires id(x) == NextId(s, id)
    ensures NextId(s + [x], id) == id(x) + 1
  {
    assert (s + [x])[..|s|] == s;
  }

  /** No two rows share a primary key. */
  ghost predicate UniqueIds<T>(s: seq<T>, id: T -> int) {
    forall i, j :: 0 <= i < j < |s| ==> id(s[i]) != id(s[j])
  }

  /** Under distinct keys no row occurs twice. */
  lemma {:induction false} UniqueIdsAtMostOnce<T>(s: seq<T>, id: T -> int, x: T)
    requires UniqueIds(s, id)
    ensures multiset(s)[x] <= 1
  {
    if s != [] {
      assert s == [s[0]] + s[1..];
      assert UniqueIds(s[1..], id) by {
        forall i, j | 0 <= i < j < |s[1..]| ensures id(s[1..][i]) != id(s[1..][j]) {
          assert s[1..][i] == s[i + 1] && s[1..][j] == s[j + 1];
        }
      }
      UniqueIdsAtMostOnce(s[1..], id, x);
    }
  }

  /** A row at two positions is counted twice. */
  lemma CountedTwice<T>(s: seq<T>, i: nat, j: nat)
    requires i < j < |s| && s[i] == s[j]
    ensures multiset(s)[s[i]] >= 2
  {
    assert s == s[..j] + s[j..];
    assert s[i] == s[..j][i];
    assert s[j] == s[j..][0];
  }

  /** Rows drawn, with their multiplicities, from rows with distinct keys have
      distinct keys. */
  lemma UniqueIdsSubMultiset<T>(a: seq<T>, b: seq<T>, id: T -> int)
    requires multiset(a) <= multiset(b) && UniqueIds(b, id)
    ensures UniqueIds(a, id)
  {
    forall i, j | 0 <= i < j < |a| ensures id(a[i]) != id(a[j]) {
      if a[i] == a[j] {
        CountedTwice(a, i, j);
        UniqueIdsAtMostOnce(b, id, a[i]);
      } else {
        assert a[i] in multiset(a) && a[j] in multiset(a);
        assert a[i] in b && a[j] in b;
        var ki :| 0 <= ki < |b| && b[ki] == a[i];
        var kj :| 0 <= kj < |b| && b[kj] == a[j];
        assert ki != kj;
        if ki < kj { assert id(b[ki]) != id(b[kj]); } else { assert id(b[kj]) != id(b[ki]); }
      }
    }
  }

  /** Inserting a row under the next id keeps the keys distinct. */
  lemma UniqueIdsInsert<T>(s: seq<T>, x: T, id: T -> int)
    requires UniqueIds(s, id) && id(x) == NextId(s, id)
    ensures UniqueIds(s + [x], id)
  {
    forall i, j | 0 <= i < j < |s + [x]| ensures id((s + [x])[i]) != id((s + [x])[j]) {
      if j == |s| {
        assert id(s[i]) < NextId(s, id);
      }
    }
  }

  /** The session's view of the database: the write endpoints replace tables. */
  class Database {
    var tables: Tables

    constructor()
      ensures tables == EMPTY
    {
      tables := EMPTY;
    }
  }
}
