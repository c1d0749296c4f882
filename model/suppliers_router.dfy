/** `routers/suppliers.py`: the supplier directory with its two optional
    filters, and link requests — a user's request to be linked to a
    supplier — with their duplicate check, their listings and their status
    update. These endpoints take no authenticated caller. */
module SuppliersRouter {
  import opened Wrappers
  import opened Seqs
  import opened Text
  import opened Tables

  const SUPPLIER_NOT_FOUND := "Supplier not found"
  const REQUEST_EXISTS := "Link request already exists"
  const REQUEST_NOT_FOUND := "Link request not found"
  const REQUEST_SENT := "Link request sent successfully"
  const PENDING := "pending"

  /** The defaults of `list_suppliers`' `skip` and `limit`. */
  const DEFAULT_SKIP := 0
  const DEFAULT_LIMIT := 10

  /** A supplier passes a non-empty `search` when its name or description
      matches `%search%` as an `ilike` pattern, and a non-empty `category`
      when its category column matches `%category%`; an empty or absent
      filter passes everything. */
  predicate SupplierMatches(s: SupplierRow, search: Option<string>, category: Option<string>) {
    (!Truthy(search) || IlikeText(s.name, search.value) || Ilike(s.description, search.value))
    && (!Truthy(category) || Ilike(s.category, category.value))
  }

  function Matching(search: Option<string>, category: Option<string>): SupplierRow -> bool {
    (s: SupplierRow) => SupplierMatches(s, search, category)
  }

  /** `list_suppliers`: the suppliers passing both filters, from the
      `skip`-th on, at most `limit`, in the model's row order. */
  function ListSuppliers(suppliers: seq<SupplierRow>, skip: nat, limit: nat,
                         category: Option<string>, search: Option<string>): (r: seq<SupplierRow>)
    ensures IsWindow(r, Filter(suppliers, Matching(search, category)), skip, limit)
    ensures forall i :: 0 <= i < |r| ==> r[i] in suppliers
    ensures Truthy(search) ==> forall i :: 0 <= i < |r| ==>
              IlikeText(r[i].name, search.value) || Ilike(r[i].description, search.value)
    ensures Truthy(category) ==> forall i :: 0 <= i < |r| ==> Ilike(r[i].category, category.value)
  {
    Paginate(Filter(suppliers, Matching(search, category)), skip, limit)
  }

  /** A search term without `%`, `_` or backslash finds the suppliers whose
      name or description contains it, ignoring case. */
  lemma SearchPlainTerm(s: SupplierRow, term: string)
    requires term != [] && NoLikeSpecials(term)
    ensures SupplierMatches(s, Some(term), None) <==>
              ContainsIgnoreCase(s.name, term) || (s.description.Some? && ContainsIgnoreCase(s.description.value, term))
  {
    IlikePlainTerm(s.name, term);
    if s.description.Some? {
      IlikePlainTerm(s.description.value, term);
    }
  }

  /** Without filters the list is the plain window of the table; with a
      first page wide enough, every matching supplier is listed. */
  lemma ListSuppliersWindow(suppliers: seq<SupplierRow>, skip: nat, limit: nat,
                            category: Option<string>, search: Option<string>)
    ensures !Truthy(search) && !Truthy(category) ==>
              ListSuppliers(suppliers, skip, limit, category, search) == Paginate(suppliers, skip, limit)
    ensures skip == 0 && limit >= |suppliers| ==>
              forall i :: 0 <= i < |suppliers| && SupplierMatches(suppliers[i], search, category) ==>
                suppliers[i] in ListSuppliers(suppliers, skip, limit, category, search)
  {
    var p := Matching(search, category);
    if !Truthy(search) && !Truthy(category) {
      FilterAll(suppliers, p);
    }
    if skip == 0 && limit >= |suppliers| {
      assert Paginate(Filter(suppliers, p), 0, limit) == Filter(suppliers, p);
    }
  }

  function IsSupplier(id: int): SupplierRow -> bool {
    (s: SupplierRow) => s.id == id
  }

  /** `get_supplier`: the supplier, or 404. */
  function GetSupplier(suppliers: seq<SupplierRow>, supplierId: int): (r: Result<SupplierRow, HttpError>)
    ensures r.Ok? <==> exists i :: 0 <= i < |suppliers| && suppliers[i].id == supplierId
    ensures r.Ok? ==> r.value.id == supplierId && r.value in suppliers
    ensures r.Err? ==> r.error == HttpError(NOT_FOUND, SUPPLIER_NOT_FOUND)
  {
    match Find(suppliers, IsSupplier(supplierId))
    case None =>
      assert forall i :: 0 <= i < |suppliers| ==> !IsSupplier(supplierId)(suppliers[i]);
      Err(HttpError(NOT_FOUND, SUPPLIER_NOT_FOUND))
    case Some(s) => Ok(s)
  }

  /** The body of `POST /suppliers/link-request`. */
  datatype LinkRequestBody = LinkRequestBody(supplierId: int, userId: int, message: Option<string>)

  /** The reply to a stored link request. */
  datatype LinkReply = LinkReply(id: int, status: string, message: string)

  /** A pending request of `userId` to `supplierId`. */
  function PendingFor(supplierId: int, userId: int): LinkRequestRow -> bool {
    (q: LinkRequestRow) => q.supplierId == supplierId && q.userId == userId && q.status == PENDING
  }

  /** The checks `send_link_request` makes before storing: 404 for an
      unknown supplier, then 400 when that user already has a pending request
      to it; requests of any other status do not block. */
  function SendCheck(t: Tables, body: LinkRequestBody): (r: Result<(), HttpError>)
    ensures r == Err(HttpError(NOT_FOUND, SUPPLIER_NOT_FOUND)) <==> GetSupplier(t.suppliers, body.supplierId).Err?
    ensures r == Err(HttpError(BAD_REQUEST, REQUEST_EXISTS)) <==>
              GetSupplier(t.suppliers, body.supplierId).Ok?
              && exists i :: 0 <= i < |t.linkRequests| && PendingFor(body.supplierId, body.userId)(t.linkRequests[i])
    ensures r.Err? ==> r.error in {HttpError(NOT_FOUND, SUPPLIER_NOT_FOUND), HttpError(BAD_REQUEST, REQUEST_EXISTS)}
  {
    var _ :- GetSupplier(t.suppliers, body.supplierId);
    if Find(t.linkRequests, PendingFor(body.supplierId, body.userId)).Some? then Err(HttpError(BAD_REQUEST, REQUEST_EXISTS))
    else Ok(())
  }

  /** No user has two pending requests to the same supplier. */
  ghost predicate AtMostOnePending(rows: seq<LinkRequestRow>) {
    forall i, j :: 0 <= i < j < |rows| && rows[i].status == PENDING && rows[j].status == PENDING ==>
      rows[i].supplierId != rows[j].supplierId || rows[i].userId != rows[j].userId
  }

  /** `send_link_request`: the check's error and no change, or a pending
      request stored under the next id and a reply reporting it pending.
      Stored requests keep at most one pending request per user and
      supplier. */
  method SendLinkRequest(db: Database, body: LinkRequestBody) returns (r: Result<LinkReply, HttpError>)
    modifies db
    ensures SendCheck(old(db.tables), body).Err? ==> r == Err(SendCheck(old(db.tables), body).error) && db.tables == old(db.tables)
    ensures SendCheck(old(db.tables), body).Ok? ==>
              var row := LinkRequestRow(NextId(old(db.tables.linkRequests), LinkRequestId), body.userId,
                                        body.supplierId, body.message, PENDING);
              r == Ok(LinkReply(row.id, PENDING, REQUEST_SENT))
              && db.tables == old(db.tables).(linkRequests := old(db.tables.linkRequests) + [row])
    ensures AtMostOnePending(old(db.tables.linkRequests)) ==> AtMostOnePending(db.tables.linkRequests)
  {
    var check := SendCheck(db.tables, body);
    if check.Err? {
      return Err(check.error);
    }
    var before := db.tables.linkRequests;
    var row := LinkRequestRow(NextId(before, LinkRequestId), body.userId, body.supplierId, body.message, PENDING);
    db.tables := db.tables.(linkRequests := before + [row]);
    r := Ok(LinkReply(row.id, PENDING, REQUEST_SENT));
    forall i | 0 <= i < |before| ensures !PendingFor(body.supplierId, body.userId)(before[i]) {
    }
  }

  /** Sending the same request twice: the second is refused while the first
      is pending. */
  lemma SecondRequestRejected(t: Tables, body: LinkRequestBody)
    requires SendCheck(t, body).Ok?
    ensures var row := LinkRequestRow(NextId(t.linkRequests, LinkRequestId), body.userId, body.supplierId,
                                      body.message, PENDING);
            SendCheck(t.(linkRequests := t.linkRequests + [row]), body) == Err(HttpError(BAD_REQUEST, REQUEST_EXISTS))
  {
    var row := LinkRequestRow(NextId(t.linkRequests, LinkRequestId), body.userId, body.supplierId, body.message, PENDING);
    assert (t.linkRequests + [row])[|t.linkRequests|] == row;
  }

  /** `get_user_link_requests` and `get_supplier_link_requests`: the requests
      selected by `owner`, narrowed to a non-empty `status` if given, in
      the model's row order. */
  function RequestsWhere(rows: seq<LinkRequestRow>, owner: LinkRequestRow -> bool, status: Option<string>)
    : (r: seq<LinkRequestRow>)
    ensures forall i :: 0 <= i < |r| ==> r[i] in rows && owner(r[i]) && (Truthy(status) ==> r[i].status == status.value)
    ensures forall i :: 0 <= i < |rows| && owner(rows[i]) && (!Truthy(status) || rows[i].status == status.value) ==>
              rows[i] in r
  {
    Filter(rows, (q: LinkRequestRow) => owner(q) && (!Truthy(status) || q.status == status.value))
  }

  function UserLinkRequests(rows: seq<LinkRequestRow>, userId: int, status: Option<string>): (r: seq<LinkRequestRow>)
    ensures forall i :: 0 <= i < |r| ==> r[i] in rows && r[i].userId == userId && (Truthy(status) ==> r[i].status == status.value)
    ensures forall i :: 0 <= i < |rows| && rows[i].userId == userId && (!Truthy(status) || rows[i].status == status.value) ==>
              rows[i] in r
  {
    RequestsWhere(rows, (q: LinkRequestRow) => q.userId == userId, status)
  }

  function SupplierLinkRequests(rows: seq<LinkRequestRow>, supplierId: int, status: Option<string>)
    : (r: seq<LinkRequestRow>)
    ensures forall i :: 0 <= i < |r| ==> r[i] in rows && r[i].supplierId == supplierId && (Truthy(status) ==> r[i].status == status.value)
    ensures forall i :: 0 <= i < |rows| && rows[i].supplierId == supplierId && (!Truthy(status) || rows[i].status == status.value) ==>
              rows[i] in r
  {
    RequestsWhere(rows, (q: LinkRequestRow) => q.supplierId == supplierId, status)
  }

  function IsRequest(id: int): LinkRequestRow -> bool {
    (q: LinkRequestRow) => q.id == id
  }

  function WithStatus(status: string): LinkRequestRow -> LinkRequestRow {
    (q: LinkRequestRow) => q.(status := status)
  }

  /** `update_link_request`: 404 and no change for an unknown id; otherwise
      the request with the new status, whatever its old status was, and no
      other field or row changes. */
  method UpdateLinkRequest(db: Database, requestId: int, status: string) returns (r: Result<LinkRequestRow, HttpError>)
    modifies db
    ensures Find(old(db.tables.linkRequests), IsRequest(requestId)).None? ==>
              r == Err(HttpError(NOT_FOUND, REQUEST_NOT_FOUND)) && db.tables == old(db.tables)
    ensures Find(old(db.tables.linkRequests), IsRequest(requestId)).Some? ==>
              r == Ok(Find(old(db.tables.linkRequests), IsRequest(requestId)).value.(status := status))
              && db.tables == old(db.tables).(linkRequests := UpdateFirst(old(db.tables.linkRequests), IsRequest(requestId),
                                                                          WithStatus(status)))
  {
    var found := Find(db.tables.linkRequests, IsRequest(requestId));
    if found.None? {
      return Err(HttpError(NOT_FOUND, REQUEST_NOT_FOUND));
    }
    db.tables := db.tables.(linkRequests := UpdateFirst(db.tables.linkRequests, IsRequest(requestId), WithStatus(status)));
    r := Ok(found.value.(status := status));
  }

  /** Answering the one pending request of a user to a supplier (accepting or
      rejecting it) lets that user send a new request to the supplier. */
  lemma AnsweredRequestNoLongerBlocks(rows: seq<LinkRequestRow>, k: nat, status: string)
    requires k < |rows| && rows[k].status == PENDING && status != PENDING
    requires AtMostOnePending(rows) && UniqueIds(rows, LinkRequestId)
    ensures var after := UpdateFirst(rows, IsRequest(rows[k].id), WithStatus(status));
            forall i :: 0 <= i < |after| ==> !PendingFor(rows[k].supplierId, rows[k].userId)(after[i])
  {
    var q := rows[k];
    forall j | 0 <= j < k ensures !IsRequest(q.id)(rows[j]) {
      assert LinkRequestId(rows[j]) != LinkRequestId(rows[k]);
    }
    FirstIndexUnique(rows, IsRequest(q.id), k);
    var after := UpdateFirst(rows, IsRequest(q.id), WithStatus(status));
    forall i | 0 <= i < |after| ensures !PendingFor(q.supplierId, q.userId)(after[i]) {
      if i < k {
        assert after[i] == rows[i];
      } else if i > k {
        assert after[i] == rows[i];
      }
    }
  }
}
