/** The identity-token contract (contracts/smart_contracts/identity/contract.py):
    the admin configures the student-ID and club-member assets, issues one unit
    of either from the contract's account, and revokes one unit back to itself;
    the views read holdings from the ledger. Each ABI call is one atomic step:
    it completes, or it aborts and neither the contract nor the ledger changes. */
module Identity {
  import opened Common
  import opened AssetLedger

  const OnlyAdmin: string := "Only admin"
  const StudentIdNotConfigured: string := "Student ID ASA not configured"
  const ClubMemberNotConfigured: string := "Club Member ASA not configured"
  /** The abort of an inner asset transfer the ledger refuses. */
  const TransferRejected: string := "inner transaction rejected"

  /** The holding check of both views: an unconfigured asset (0) is held by
      nobody; otherwise holding means a balance of at least 1. */
  function Holds(ledger: Balances, asa: UInt64, user: Address): (held: bool)
    ensures asa == 0 ==> !held
    ensures asa != 0 ==> (held <==> BalanceOf(ledger, user, asa) >= 1)
  {
    if asa == 0 then false else BalanceOf(ledger, user, asa) >= 1
  }

  class IdentityTokens {
    /** `Global.current_application_address`: the account tokens are issued from. */
    const app: Address
    var studentIdAsa: UInt64
    var clubMemberAsa: UInt64
    /** Set to `Global.creator_address` at creation; no call changes it. */
    var admin: Address

    constructor (creator: Address, app: Address)
      ensures studentIdAsa == 0 && clubMemberAsa == 0
      ensures admin == creator && this.app == app
    {
      this.app := app;
      studentIdAsa := 0;
      clubMemberAsa := 0;
      admin := creator;
    }

    /** `set_student_id_asa`: admin only. */
    method SetStudentIdAsa(sender: Address, asaId: UInt64) returns (r: Result<()>)
      modifies this`studentIdAsa
      ensures sender != admin ==> r == Fail(OnlyAdmin) && studentIdAsa == old(studentIdAsa)
      ensures sender == admin ==> r == Ok(()) && studentIdAsa == asaId
    {
      if sender != admin {
        return Fail(OnlyAdmin);
      }
      studentIdAsa := asaId;
      return Ok(());
    }

    /** `set_club_member_asa`: admin only. */
    method SetClubMemberAsa(sender: Address, asaId: UInt64) returns (r: Result<()>)
      modifies this`clubMemberAsa
      ensures sender != admin ==> r == Fail(OnlyAdmin) && clubMemberAsa == old(clubMemberAsa)
      ensures sender == admin ==> r == Ok(()) && clubMemberAsa == asaId
    {
      if sender != admin {
        return Fail(OnlyAdmin);
      }
      clubMemberAsa := asaId;
      return Ok(());
    }

    /** The body shared by the issue and revoke calls: admin only, the asset
        must be configured, then one unit moves from `from` to `to`. */
    method MoveOne(sender: Address, asa: UInt64, notConfigured: string,
                   from: Address, to: Address, ledger: Ledger)
      returns (r: Result<()>)
      modifies ledger
      ensures sender != admin ==> r == Fail(OnlyAdmin)
      ensures sender == admin && asa == 0 ==> r == Fail(notConfigured)
      ensures sender == admin && asa > 0 && BalanceOf(old(ledger.balances), from, asa) < 1 ==>
        r == Fail(TransferRejected)
      ensures r.Ok? <==> sender == admin && asa > 0 && BalanceOf(old(ledger.balances), from, asa) >= 1
      ensures r.Ok? ==> ledger.balances == Move(old(ledger.balances), asa, from, to, 1)
      ensures r.Fail? ==> ledger.balances == old(ledger.balances)
    {
      if sender != admin {
        return Fail(OnlyAdmin);
      }
      if asa == 0 {
        return Fail(notConfigured);
      }
      var ok := ledger.AssetTransfer(asa, from, to, 1);
      if !ok {
        return Fail(TransferRejected);
      }
      return Ok(());
    }

    /** `issue_student_id`: one student-ID unit from the contract to the student. */
    method IssueStudentId(sender: Address, student: Address, ledger: Ledger) returns (r: Result<()>)
      modifies ledger
      ensures sender != admin ==> r == Fail(OnlyAdmin)
      ensures sender == admin && studentIdAsa == 0 ==> r == Fail(StudentIdNotConfigured)
      ensures r.Ok? <==> sender == admin && studentIdAsa > 0 && BalanceOf(old(ledger.balances), app, studentIdAsa) >= 1
      ensures r.Ok? ==> ledger.balances == Move(old(ledger.balances), studentIdAsa, app, student, 1)
      ensures r.Ok? ==> HasStudentId(ledger.balances, student)
      ensures r.Fail? ==> ledger.balances == old(ledger.balances)
    {
      r := MoveOne(sender, studentIdAsa, StudentIdNotConfigured, app, student, ledger);
    }

    /** `issue_club_member`: one club-member unit from the contract to the member. */
    method IssueClubMember(sender: Address, member: Address, ledger: Ledger) returns (r: Result<()>)
      modifies ledger
      ensures sender != admin ==> r == Fail(OnlyAdmin)
      ensures sender == admin && clubMemberAsa == 0 ==> r == Fail(ClubMemberNotConfigured)
      ensures r.Ok? <==> sender == admin && clubMemberAsa > 0 && BalanceOf(old(ledger.balances), app, clubMemberAsa) >= 1
      ensures r.Ok? ==> ledger.balances == Move(old(ledger.balances), clubMemberAsa, app, member, 1)
      ensures r.Ok? ==> HasClubMember(ledger.balances, member)
      ensures r.Fail? ==> ledger.balances == old(ledger.balances)
    {
      r := MoveOne(sender, clubMemberAsa, ClubMemberNotConfigured, app, member, ledger);
    }

    /** `revoke_student_id`: one student-ID unit from the student back to the
        admin (a clawback transfer). */
    method RevokeStudentId(sender: Address, student: Address, ledger: Ledger) returns (r: Result<()>)
      modifies ledger
      ensures sender != admin ==> r == Fail(OnlyAdmin)
      ensures sender == admin && studentIdAsa == 0 ==> r == Fail(StudentIdNotConfigured)
      ensures r.Ok? <==> sender == admin && studentIdAsa > 0 && BalanceOf(old(ledger.balances), student, studentIdAsa) >= 1
      ensures r.Ok? ==> ledger.balances == Move(old(ledger.balances), studentIdAsa, student, admin, 1)
      ensures r.Ok? && student != admin && BalanceOf(old(ledger.balances), student, studentIdAsa) == 1 ==>
        !HasStudentId(ledger.balances, student)
      ensures r.Fail? ==> ledger.balances == old(ledger.balances)
    {
      r := MoveOne(sender, studentIdAsa, StudentIdNotConfigured, student, admin, ledger);
    }

    /** `revoke_club_member`: one club-member unit from the member back to the admin. */
    method RevokeClubMember(sender: Address, member: Address, ledger: Ledger) returns (r: Result<()>)
      modifies ledger
      ensures sender != admin ==> r == Fail(OnlyAdmin)
      ensures sender == admin && clubMemberAsa == 0 ==> r == Fail(ClubMemberNotConfigured)
      ensures r.Ok? <==> sender == admin && clubMemberAsa > 0 && BalanceOf(old(ledger.balances), member, clubMemberAsa) >= 1
      ensures r.Ok? ==> ledger.balances == Move(old(ledger.balances), clubMemberAsa, member, admin, 1)
      ensures r.Ok? && member != admin && BalanceOf(old(ledger.balances), member, clubMemberAsa) == 1 ==>
        !HasClubMember(ledger.balances, member)
      ensures r.Fail? ==> ledger.balances == old(ledger.balances)
    {
      r := MoveOne(sender, clubMemberAsa, ClubMemberNotConfigured, member, admin, ledger);
    }

    /** `has_student_id`. */
    function HasStudentId(ledger: Balances, user: Address): (held: bool)
      reads this
      ensures held == Holds(ledger, studentIdAsa, user)
    {
      Holds(ledger, studentIdAsa, user)
    }

    /** `has_club_member`. */
    function HasClubMember(ledger: Balances, user: Address): (held: bool)
      reads this
      ensures held == Holds(ledger, clubMemberAsa, user)
    {
      Holds(ledger, clubMemberAsa, user)
    }

    function GetStudentIdAsa(): UInt64
      reads this
    {
      studentIdAsa
    }

    function GetClubMemberAsa(): UInt64
      reads this
    {
      clubMemberAsa
    }
  }

  /** Issuing a token and then revoking it leaves the student as before, but
      the unit ends up with the admin rather than back in the contract's
      account; no units are created or destroyed on the way. */
  lemma IssueThenRevoke(b: Balances, asa: UInt64, app: Address, admin: Address, student: Address)
    requires asa > 0 && BalanceOf(b, app, asa) >= 1
    requires student != app && student != admin && app != admin
    ensures var issued := Move(b, asa, app, student, 1);
      && BalanceOf(issued, student, asa) == BalanceOf(b, student, asa) + 1
      && var revoked := Move(issued, asa, student, admin, 1);
      && BalanceOf(revoked, student, asa) == BalanceOf(b, student, asa)
      && BalanceOf(revoked, app, asa) == BalanceOf(b, app, asa) - 1
      && BalanceOf(revoked, admin, asa) == BalanceOf(b, admin, asa) + 1
      && SumValues(revoked) == SumValues(b)
  {
    var issued := Move(b, asa, app, student, 1);
    MoveConservesSupply(b, asa, app, student, 1);
    MoveConservesSupply(issued, asa, student, admin, 1);
  }
}
