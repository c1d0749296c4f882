/** frontend/src/components/supplier/TeamManagement.jsx: the supplier's team
    list with its add/edit dialog, delete and colour rules. `Date.now()` and
    today's ISO date are the parameters `now` and `today`. */
module TeamManagement {
  import opened Wrappers
  import opened Seqs

  datatype Member = Member(id: int, name: string, email: string, role: string, department: string,
                           status: string, joinDate: string, permissions: seq<string>)

  /** The dialog's `formData`. */
  datatype MemberForm = MemberForm(name: string, email: string, role: string,
                                   department: string, permissions: seq<string>)

  const ACTIVE := "Active"

  /** The form `handleAddMember` opens. */
  const BLANK_FORM := MemberForm("", "", "Sales Person", "Sales", [])

  function FormOf(m: Member): MemberForm {
    MemberForm(m.name, m.email, m.role, m.department, m.permissions)
  }

  /** `{...member, ...formData}`: the five form fields replaced; id, status
      and join date kept. */
  function Merge(m: Member, f: MemberForm): (r: Member)
    ensures FormOf(r) == f
    ensures r.id == m.id && r.status == m.status && r.joinDate == m.joinDate
  {
    m.(name := f.name, email := f.email, role := f.role, department := f.department, permissions := f.permissions)
  }

  /** A new member: fresh id, the form's fields, active, joined today. */
  function NewMember(f: MemberForm, now: int, today: string): (r: Member)
    ensures FormOf(r) == f && r.id == now && r.status == ACTIVE && r.joinDate == today
  {
    Member(now, f.name, f.email, f.role, f.department, ACTIVE, today, f.permissions)
  }

  /** Saving an edit of `editing`: only members with its id change, and only
      in their form fields. */
  function SavedEdit(members: seq<Member>, editing: Member, f: MemberForm): (r: seq<Member>)
    ensures |r| == |members|
    ensures forall i :: 0 <= i < |members| ==>
              r[i].id == members[i].id && r[i].status == members[i].status && r[i].joinDate == members[i].joinDate
    ensures forall i :: 0 <= i < |members| ==>
              if members[i].id == editing.id then FormOf(r[i]) == f else r[i] == members[i]
  {
    MapIf(members, (m: Member) => m.id == editing.id, (m: Member) => Merge(m, f))
  }

  /** Re-saving an unchanged form changes nothing. */
  lemma SaveUnchangedIsIdentity(members: seq<Member>, editing: Member)
    requires forall i :: 0 <= i < |members| && members[i].id == editing.id ==> FormOf(members[i]) == FormOf(editing)
    ensures SavedEdit(members, editing, FormOf(editing)) == members
  {
    var r := SavedEdit(members, editing, FormOf(editing));
    forall i | 0 <= i < |members| ensures r[i] == members[i] {
    }
  }

  /** `teamMembers.filter(member => member.id !== memberId)`. */
  function WithoutId(members: seq<Member>, id: int): (r: seq<Member>)
    ensures |r| <= |members|
    ensures forall i :: 0 <= i < |r| ==> r[i].id != id && r[i] in members
    ensures forall i :: 0 <= i < |members| && members[i].id != id ==> members[i] in r
    ensures forall x: Member :: x.id != id ==> multiset(r)[x] == multiset(members)[x]
  {
    FilterMultiset(members, (m: Member) => m.id != id);
    Filter(members, (m: Member) => m.id != id)
  }

  lemma WithoutIdKeepsOrder(members: seq<Member>, id: int)
    ensures IsSubsequence(WithoutId(members, id), members)
  {
    FilterIsSubsequence(members, (m: Member) => m.id != id);
  }

  /** `getRoleColor`. */
  function RoleColor(role: string): (color: string)
    ensures color == "primary" <==> role == "Manager"
    ensures color == "secondary" <==> role == "Sales Person"
    ensures color == "default" <==> role != "Manager" && role != "Sales Person"
  {
    match role
    case "Manager" => "primary"
    case "Sales Person" => "secondary"
    case _ => "default"
  }

  /** `getStatusColor`. */
  function StatusColor(status: string): (color: string)
    ensures color == "success" <==> status == ACTIVE
    ensures color == "error" <==> status != ACTIVE
  {
    if status == ACTIVE then "success" else "error"
  }

  class TeamManager {
    var members: seq<Member>
    var openDialog: bool
    var editingMember: Option<Member>
    var formData: MemberForm
    var menuOpen: bool
    var selectedMember: Option<Member>

    constructor (members: seq<Member>)
      ensures this.members == members && !openDialog && editingMember == None && formData == BLANK_FORM
      ensures !menuOpen && selectedMember == None
    {
      this.members := members;
      openDialog := false;
      editingMember := None;
      formData := BLANK_FORM;
      menuOpen := false;
      selectedMember := None;
    }

    /** `handleAddMember`. */
    method HandleAddMember()
      modifies this
      ensures editingMember == None && formData == BLANK_FORM && openDialog
      ensures members == old(members) && menuOpen == old(menuOpen) && selectedMember == old(selectedMember)
    {
      editingMember := None;
      formData := BLANK_FORM;
      openDialog := true;
    }

    /** `handleEditMember(member)`. */
    method HandleEditMember(member: Member)
      modifies this
      ensures editingMember == Some(member) && formData == FormOf(member) && openDialog
      ensures members == old(members) && menuOpen == old(menuOpen) && selectedMember == old(selectedMember)
    {
      editingMember := Some(member);
      formData := FormOf(member);
      openDialog := true;
    }

    /** `handleSaveMember`. */
    method HandleSaveMember(now: int, today: string)
      modifies this
      ensures editingMember.Some? ==> members == SavedEdit(old(members), editingMember.value, formData)
      ensures editingMember.None? ==> members == old(members) + [NewMember(formData, now, today)]
      ensures !openDialog && editingMember == old(editingMember) && formData == old(formData)
      ensures menuOpen == old(menuOpen) && selectedMember == old(selectedMember)
    {
      match editingMember {
        case Some(editing) =>
          members := SavedEdit(members, editing, formData);
        case None =>
          members := members + [NewMember(formData, now, today)];
      }
      openDialog := false;
    }

    /** `handleDeleteMember(memberId)`: delete, then close the menu. */
    method HandleDeleteMember(memberId: int)
      modifies this
      ensures members == WithoutId(old(members), memberId)
      ensures !menuOpen && selectedMember == None
      ensures openDialog == old(openDialog) && editingMember == old(editingMember) && formData == old(formData)
    {
      members := WithoutId(members, memberId);
      menuOpen := false;
      selectedMember := None;
    }
  }
}
