/** The mocked organisation lookup. */
module Org {
  import opened Json

  datatype OrgMembers = OrgMembers(manager: Json, members: seq<string>)

  /** `get_org_members(uid)`: the caller is reported as the manager of between
      one and fifteen direct reports, each a non-empty id, none listed twice. */
  function GetOrgMembers(uid: Json): (r: OrgMembers)
    ensures r.manager == uid
    ensures 1 <= |r.members| <= 15
    ensures forall k | 0 <= k < |r.members| :: r.members[k] != ""
    ensures forall i, j | 0 <= i < j < |r.members| :: r.members[i] != r.members[j]
  {
    OrgMembers(uid, ["emp101", "emp102", "emp103"])
  }

  /** The member list is the same whoever asks. */
  lemma OrgMembersIgnoreUid(a: Json, b: Json)
    ensures GetOrgMembers(a).members == GetOrgMembers(b).members
    ensures GetOrgMembers(a).(manager := b) == GetOrgMembers(b)
  {
  }
}
