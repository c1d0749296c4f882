/** `routers/team.py`: a supplier's team — listing, adding a user once per
    supplier, the partial update of role and active flag, and removal. These
    endpoints take no authenticated caller. */
module TeamRouter {
  import opened Wrappers
  import opened Seqs
  import opened Tables
  import opened SuppliersRouter

  const MEMBER_NOT_FOUND := "Team member not found"
  const ALREADY_MEMBER := "User is already a team member"
  /** The default `limit` of `list_team_members`. */
  const MEMBERS_LIMIT := 10

  function OfSupplier(supplierId: int): TeamMemberRow -> bool {
    (m: TeamMemberRow) => m.supplierId == supplierId
  }

  /** `list_team_members`: that supplier's members from the `skip`-th on, at
      most `limit`, in the model's row order. */
  function ListTeamMembers(members: seq<TeamMemberRow>, supplierId: int, skip: nat, limit: nat): (r: seq<TeamMemberRow>)
    ensures IsWindow(r, Filter(members, OfSupplier(supplierId)), skip, limit)
    ensures forall i :: 0 <= i < |r| ==> r[i].supplierId == supplierId && r[i] in members
  {
    Paginate(Filter(members, OfSupplier(supplierId)), skip, limit)
  }

  /** A first page wide enough lists every member of the supplier. */
  lemma ListTeamMembersComplete(members: seq<TeamMemberRow>, supplierId: int, limit: nat)
    requires limit >= |members|
    ensures forall i :: 0 <= i < |members| && members[i].supplierId == supplierId ==>
              members[i] in ListTeamMembers(members, supplierId, 0, limit)
  {
    var all := Filter(members, OfSupplier(supplierId));
    assert Paginate(all, 0, limit) == all;
  }

  /** A request without `limit` lists at most `MEMBERS_LIMIT` members, and
      all of the supplier's members when there are no more than that. */
  lemma DefaultMembersPage(members: seq<TeamMemberRow>, supplierId: int)
    ensures var r := ListTeamMembers(members, supplierId, 0, MEMBERS_LIMIT);
            |r| <= MEMBERS_LIMIT
            && (Count(members, OfSupplier(supplierId)) <= MEMBERS_LIMIT ==> r == Filter(members, OfSupplier(supplierId)))
  {
    var all := Filter(members, OfSupplier(supplierId));
    if |all| <= MEMBERS_LIMIT {
      assert Paginate(all, 0, MEMBERS_LIMIT) == all;
    }
  }

  function IsMember(id: int): TeamMemberRow -> bool {
    (m: TeamMemberRow) => m.id == id
  }

  /** `get_team_member`: the member, or 404. */
  function GetTeamMember(members: seq<TeamMemberRow>, memberId: int): (r: Result<TeamMemberRow, HttpError>)
    ensures r.Ok? <==> exists i :: 0 <= i < |members| && members[i].id == memberId
    ensures r.Ok? ==> r.value.id == memberId && r.value in members
    ensures r.Err? ==> r.error == HttpError(NOT_FOUND, MEMBER_NOT_FOUND)
  {
    match Find(members, IsMember(memberId))
    case None =>
      assert forall i :: 0 <= i < |members| ==> !IsMember(memberId)(members[i]);
      Err(HttpError(NOT_FOUND, MEMBER_NOT_FOUND))
    case Some(m) => Ok(m)
  }

  /** The body of `POST /team/members`. */
  datatype MemberBody = MemberBody(supplierId: int, userId: int, role: string)

  /** Any membership of `userId` in `supplierId`'s team, active or not. */
  function SamePair(supplierId: int, userId: int): TeamMemberRow -> bool {
    (m: TeamMemberRow) => m.supplierId == supplierId && m.userId == userId
  }

  /** The checks `add_team_member` makes before storing: 404 for an unknown
      supplier, then 400 when the user is on that team already, whatever
      their active flag. */
  function AddCheck(t: Tables, body: MemberBody): (r: Result<(), HttpError>)
    ensures r == Err(HttpError(NOT_FOUND, SUPPLIER_NOT_FOUND)) <==> GetSupplier(t.suppliers, body.supplierId).Err?
    ensures r == Err(HttpError(BAD_REQUEST, ALREADY_MEMBER)) <==>
              GetSupplier(t.suppliers, body.supplierId).Ok?
              && exists i :: 0 <= i < |t.teamMembers| && SamePair(body.supplierId, body.userId)(t.teamMembers[i])
    ensures r.Err? ==> r.error in {HttpError(NOT_FOUND, SUPPLIER_NOT_FOUND), HttpError(BAD_REQUEST, ALREADY_MEMBER)}
  {
    var _ :- GetSupplier(t.suppliers, body.supplierId);
    if Find(t.teamMembers, SamePair(body.supplierId, body.userId)).Some? then Err(HttpError(BAD_REQUEST, ALREADY_MEMBER))
    else Ok(())
  }

  /** No user is twice on the same supplier's team. */
  ghost predicate DistinctPairs(members: seq<TeamMemberRow>) {
    forall i, j :: 0 <= i < j < |members| ==>
      members[i].supplierId != members[j].supplierId || members[i].userId != members[j].userId
  }

  /** `add_team_member`: the check's error and no change, or an active member
      stored under the next id; memberships stay distinct. */
  method AddTeamMember(db: Database, body: MemberBody) returns (r: Result<TeamMemberRow, HttpError>)
    modifies db
    ensures AddCheck(old(db.tables), body).Err? ==> r == Err(AddCheck(old(db.tables), body).error) && db.tables == old(db.tables)
    ensures AddCheck(old(db.tables), body).Ok? ==>
              r == Ok(TeamMemberRow(NextId(old(db.tables.teamMembers), TeamMemberId), body.supplierId, body.userId,
                                    body.role, true))
              && db.tables == old(db.tables).(teamMembers := old(db.tables.teamMembers) + [r.value])
    ensures DistinctPairs(old(db.tables.teamMembers)) ==> DistinctPairs(db.tables.teamMembers)
  {
    var check := AddCheck(db.tables, body);
    if check.Err? {
      return Err(check.error);
    }
    var before := db.tables.teamMembers;
    var row := TeamMemberRow(NextId(before, TeamMemberId), body.supplierId, body.userId, body.role, true);
    db.tables := db.tables.(teamMembers := before + [row]);
    r := Ok(row);
    forall i | 0 <= i < |before| ensures !SamePair(body.supplierId, body.userId)(before[i]) {
    }
  }

  /** The body of `PUT /team/members/{id}`: both fields optional. */
  datatype MemberUpdate = MemberUpdate(role: Option<string>, isActive: Option<bool>)

  /** The fields `update_team_member` assigns: the role when a non-empty one
      is given, the active flag when one is given; nothing else. */
  function Patched(m: TeamMemberRow, update: MemberUpdate): (r: TeamMemberRow)
    ensures r.id == m.id && r.supplierId == m.supplierId && r.userId == m.userId
    ensures r.role == (if Truthy(update.role) then update.role.value else m.role)
    ensures r.isActive == update.isActive.GetOr(m.isActive)
  {
    var m1 := if Truthy(update.role) then m.(role := update.role.value) else m;
    if update.isActive.Some? then m1.(isActive := update.isActive.value) else m1
  }

  /** An update with no fields, or with an empty role and no flag, changes
      nothing; applying the same update twice is applying it once. */
  lemma PatchedLaws(m: TeamMemberRow, update: MemberUpdate)
    ensures !Truthy(update.role) && update.isActive.None? ==> Patched(m, update) == m
    ensures Patched(Patched(m, update), update) == Patched(m, update)
  {
  }

  function Patch(update: MemberUpdate): TeamMemberRow -> TeamMemberRow {
    (m: TeamMemberRow) => Patched(m, update)
  }

  /** `update_team_member`: 404 and no change for an unknown id; otherwise
      the member with the update applied, and no other row changes. */
  method UpdateTeamMember(db: Database, memberId: int, update: MemberUpdate) returns (r: Result<TeamMemberRow, HttpError>)
    modifies db
    ensures GetTeamMember(old(db.tables.teamMembers), memberId).Err? ==>
              r == Err(HttpError(NOT_FOUND, MEMBER_NOT_FOUND)) && db.tables == old(db.tables)
    ensures GetTeamMember(old(db.tables.teamMembers), memberId).Ok? ==>
              r == Ok(Patched(GetTeamMember(old(db.tables.teamMembers), memberId).value, update))
              && db.tables == old(db.tables).(teamMembers := UpdateFirst(old(db.tables.teamMembers), IsMember(memberId),
                                                                         Patch(update)))
  {
    var found := GetTeamMember(db.tables.teamMembers, memberId);
    if found.Err? {
      return Err(found.error);
    }
    db.tables := db.tables.(teamMembers := UpdateFirst(db.tables.teamMembers, IsMember(memberId), Patch(update)));
    r := Ok(Patched(found.value, update));
  }

  /** Deactivating a member keeps the membership: adding the same user to
      the same supplier is still refused. */
  lemma DeactivatedMemberStillBlocks(t: Tables, memberId: int, body: MemberBody)
    requires GetSupplier(t.suppliers, body.supplierId).Ok?
    requires GetTeamMember(t.teamMembers, memberId).Ok?
    requires SamePair(body.supplierId, body.userId)(GetTeamMember(t.teamMembers, memberId).value)
    ensures var after := UpdateFirst(t.teamMembers, IsMember(memberId), Patch(MemberUpdate(None, Some(false))));
            AddCheck(t.(teamMembers := after), body) == Err(HttpError(BAD_REQUEST, ALREADY_MEMBER))
  {
    var k := FirstIndex(t.teamMembers, IsMember(memberId)).value;
    var after := UpdateFirst(t.teamMembers, IsMember(memberId), Patch(MemberUpdate(None, Some(false))));
    assert SamePair(body.supplierId, body.userId)(after[k]);
  }

  /** `remove_team_member`: 404 and no change for an unknown id; otherwise
      the member found is deleted. */
  method RemoveTeamMember(db: Database, memberId: int) returns (r: Result<(), HttpError>)
    modifies db
    ensures GetTeamMember(old(db.tables.teamMembers), memberId).Err? ==>
              r == Err(HttpError(NOT_FOUND, MEMBER_NOT_FOUND)) && db.tables == old(db.tables)
    ensures GetTeamMember(old(db.tables.teamMembers), memberId).Ok? ==>
              r.Ok? && db.tables == old(db.tables).(teamMembers := RemoveFirst(old(db.tables.teamMembers), IsMember(memberId)))
  {
    var found := GetTeamMember(db.tables.teamMembers, memberId);
    if found.Err? {
      return Err(found.error);
    }
    db.tables := db.tables.(teamMembers := RemoveFirst(db.tables.teamMembers, IsMember(memberId)));
    r := Ok(());
  }

  /** With memberships distinct, a removed member can be added back. */
  lemma RemovedMemberCanRejoin(t: Tables, k: nat, role: string)
    requires k < |t.teamMembers| && DistinctPairs(t.teamMembers) && UniqueIds(t.teamMembers, TeamMemberId)
    requires GetSupplier(t.suppliers, t.teamMembers[k].supplierId).Ok?
    ensures var m := t.teamMembers[k];
            AddCheck(t.(teamMembers := RemoveFirst(t.teamMembers, IsMember(m.id))),
                     MemberBody(m.supplierId, m.userId, role)).Ok?
  {
    var rows := t.teamMembers;
    var m := rows[k];
    forall j | 0 <= j < k ensures !IsMember(m.id)(rows[j]) {
      assert TeamMemberId(rows[j]) != TeamMemberId(rows[k]);
    }
    FirstIndexUnique(rows, IsMember(m.id), k);
    var after := RemoveFirst(rows, IsMember(m.id));
    forall i | 0 <= i < |after| ensures !SamePair(m.supplierId, m.userId)(after[i]) {
      if i < k {
        assert after[i] == rows[i];
      } else {
        assert after[i] == rows[i + 1];
      }
    }
  }
}
