/**
 * The team-member record and the partial record used to edit one.
 * An edit is the object spread `{ ...member, ...changes }`: every field the
 * partial record carries overrides the member's field, every other field is kept.
 */
module TeamMemberModel {
  import opened Wrappers

  datatype Status = Active | Inactive

  datatype TeamMember = TeamMember(
    id: string,
    name: string,
    avatar: string,
    status: Status,
    role: string,
    email: string,
    teams: seq<string>,
    extraTeams: int)

  /** A partial team member: `None` is a key the object does not carry. */
  datatype MemberPatch = MemberPatch(
    id: Option<string>,
    name: Option<string>,
    avatar: Option<string>,
    status: Option<Status>,
    role: Option<string>,
    email: Option<string>,
    teams: Option<seq<string>>,
    extraTeams: Option<int>)

  /** The empty partial record `{}`. */
  const NoChanges := MemberPatch(None, None, None, None, None, None, None, None)

  /** The partial record `{ role }`. */
  function RoleOnly(role: string): MemberPatch {
    NoChanges.(role := Some(role))
  }

  /** `{ ...m, ...p }`. */
  function Merge(m: TeamMember, p: MemberPatch): (r: TeamMember)
    ensures p == NoChanges ==> r == m
    ensures p.id.None? ==> r.id == m.id
    ensures p.id.Some? ==> r.id == p.id.value
  {
    TeamMember(
      p.id.GetOr(m.id),
      p.name.GetOr(m.name),
      p.avatar.GetOr(m.avatar),
      p.status.GetOr(m.status),
      p.role.GetOr(m.role),
      p.email.GetOr(m.email),
      p.teams.GetOr(m.teams),
      p.extraTeams.GetOr(m.extraTeams))
  }

  /** Spreading the same changes a second time changes nothing more. */
  lemma MergeIdempotent(m: TeamMember, p: MemberPatch)
    ensures Merge(Merge(m, p), p) == Merge(m, p)
  {
  }

  /** Editing only the role changes the role and keeps every other field. */
  lemma MergeRoleOnly(m: TeamMember, role: string)
    ensures Merge(m, RoleOnly(role)) == m.(role := role)
  {
  }
}
