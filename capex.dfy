/** The mocked team compensation and capex lookup. */
module Capex {
  import opened Json

  datatype TeamCapex = TeamCapex(manager: Json, team: string, totalComp: int, bonus: int)

  /** `get_team_capex(uid)`: the caller is reported as the manager of a named
      team whose budget lies between 500 000 and 5 000 000, with a positive
      bonus pool that is 10 % to 30 % of the total compensation. */
  function GetTeamCapex(uid: Json): (r: TeamCapex)
    ensures r.manager == uid
    ensures r.team != ""
    ensures 500000 <= r.totalComp <= 5000000
    ensures 0 < r.bonus < r.totalComp
    ensures 10 * r.totalComp <= 100 * r.bonus <= 30 * r.totalComp
  {
    TeamCapex(uid, "AI Team", 1500000, 250000)
  }

  /** The figures depend on the id only through the echoed manager field. */
  lemma TeamCapexIgnoresUid(a: Json, b: Json)
    ensures GetTeamCapex(a).(manager := b) == GetTeamCapex(b)
  {
  }
}
