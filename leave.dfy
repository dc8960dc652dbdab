/** The mocked leave-balance lookup. */
module Leave {
  import opened Json

  datatype LeaveBalance = LeaveBalance(uid: Json, annualLeave: int, sickLeave: int, casualLeave: int)

  /** `get_leave_balance(uid)`: the same balance for everyone, tagged with the
      caller's id. */
  function GetLeaveBalance(uid: Json): (r: LeaveBalance)
    ensures r.uid == uid
    ensures r.annualLeave == 12 && r.sickLeave == 6 && r.casualLeave == 4
  {
    LeaveBalance(uid, 12, 6, 4)
  }

  /** The balance depends on the id only through the echoed field. */
  lemma LeaveBalanceIgnoresUid(a: Json, b: Json)
    ensures GetLeaveBalance(a).(uid := b) == GetLeaveBalance(b)
  {
  }
}
