/** The scholarship pool contract (contracts/smart_contracts/bank/contract.py):
    donations are credited and pooled, the creator awards scholarships out of
    the pool, and applying is gated on the student-ID token when one is
    configured. Each ABI call is one atomic step: it completes, or it aborts
    and the contract's state is unchanged. */
module Pool {
  import opened Common

  const OnlyAdmin: string := "Only admin"
  const MustHoldStudentId: string := "Must hold Student ID Token to apply"

  /** The payment transaction grouped with a `contribute` call. */
  datatype Payment = Payment(receiver: Address, amount: UInt64)

  class ScholarshipPool {
    /** `Global.creator_address`. */
    const creator: Address
    /** `Global.current_application_address`. */
    const app: Address
    var totalFunds: UInt64
    var governanceToken: UInt64
    var identityContract: UInt64
    var studentIdAsa: UInt64
    /** Donor to total contributed (the boxes with prefix "d"). */
    var donations: map<Address, UInt64>
    /** Student to total awarded (the boxes with prefix "a"). */
    var awards: map<Address, UInt64>
    /** Badge recipient to 1 (the boxes with prefix "b"). */
    var badgeRecipients: map<Address, UInt64>

    /** Conservation of funds: the pool holds what was donated and not yet awarded. */
    ghost predicate Valid()
      reads this
    {
      totalFunds + SumValues(awards) == SumValues(donations)
    }

    constructor (creator: Address, app: Address)
      ensures this.creator == creator && this.app == app
      ensures totalFunds == 0 && governanceToken == 0 && identityContract == 0 && studentIdAsa == 0
      ensures donations == map[] && awards == map[] && badgeRecipients == map[]
      ensures Valid()
    {
      this.creator := creator;
      this.app := app;
      totalFunds := 0;
      governanceToken := 0;
      identityContract := 0;
      studentIdAsa := 0;
      donations := map[];
      awards := map[];
      badgeRecipients := map[];
    }

    /** `set_governance_token`: creator only; its assert carries no message. */
    method SetGovernanceToken(sender: Address, tokenId: UInt64) returns (r: Result<()>)
      requires Valid()
      modifies this`governanceToken
      ensures Valid()
      ensures sender != creator ==> r == Fail(AssertFailed) && governanceToken == old(governanceToken)
      ensures sender == creator ==> r == Ok(()) && governanceToken == tokenId
    {
      if sender != creator {
        return Fail(AssertFailed);
      }
      governanceToken := tokenId;
      return Ok(());
    }

    /** `set_identity_contract`: creator only. */
    method SetIdentityContract(sender: Address, contractId: UInt64) returns (r: Result<()>)
      requires Valid()
      modifies this`identityContract
      ensures Valid()
      ensures sender != creator ==> r == Fail(OnlyAdmin) && identityContract == old(identityContract)
      ensures sender == creator ==> r == Ok(()) && identityContract == contractId
    {
      if sender != creator {
        return Fail(OnlyAdmin);
      }
      identityContract := contractId;
      return Ok(());
    }

    /** `set_student_id_asa`: creator only; 0 switches the application gate off. */
    method SetStudentIdAsa(sender: Address, asaId: UInt64) returns (r: Result<()>)
      requires Valid()
      modifies this`studentIdAsa
      ensures Valid()
      ensures sender != creator ==> r == Fail(OnlyAdmin) && studentIdAsa == old(studentIdAsa)
      ensures sender == creator ==> r == Ok(()) && studentIdAsa == asaId
    {
      if sender != creator {
        return Fail(OnlyAdmin);
      }
      studentIdAsa := asaId;
      return Ok(());
    }

    /** `contribute`: a positive payment to the pool's own address is credited
        to the calling account (created at 0 if new) and added to the pool; the
        donor's new total is returned. */
    method Contribute(sender: Address, payment: Payment) returns (r: Result<UInt64>)
      requires Valid()
      modifies this`donations, this`totalFunds
      ensures Valid()
      ensures r.Fail? ==> donations == old(donations) && totalFunds == old(totalFunds)
      ensures payment.receiver != app || payment.amount == 0 ==> r == Fail(AssertFailed)
      ensures (payment.receiver == app && payment.amount > 0 &&
               (Lookup(old(donations), sender) + payment.amount > MaxUInt64 ||
                old(totalFunds) + payment.amount > MaxUInt64)) ==>
        r == Fail(Overflow)
      ensures (payment.receiver == app && payment.amount > 0 &&
               Lookup(old(donations), sender) + payment.amount <= MaxUInt64 &&
               old(totalFunds) + payment.amount <= MaxUInt64) ==>
        && r == Ok(Lookup(old(donations), sender) + payment.amount)
        && donations == old(donations)[sender := r.value]
        && totalFunds == old(totalFunds) + payment.amount
    {
      if payment.receiver != app || payment.amount == 0 {
        return Fail(AssertFailed);
      }
      var current := Lookup(donations, sender);
      if current + payment.amount > MaxUInt64 || totalFunds + payment.amount > MaxUInt64 {
        return Fail(Overflow);
      }
      SumValuesUpdate(donations, sender, current + payment.amount);
      donations := donations[sender := current + payment.amount];
      totalFunds := totalFunds + payment.amount;
      return Ok(donations[sender]);
    }

    /** `apply_for_scholarship`: succeeds, returning 1, exactly when the gate is
        off or the caller holds the student-ID token; it records nothing. */
    method ApplyForScholarship(sender: Address, ledger: Balances) returns (r: Result<UInt64>)
      ensures r.Ok? <==> studentIdAsa == 0 || BalanceOf(ledger, sender, studentIdAsa) >= 1
      ensures r.Ok? ==> r.value == 1
      ensures r.Fail? ==> r.msg == MustHoldStudentId
    {
      if studentIdAsa > 0 {
        var studentBalance := BalanceOf(ledger, sender, studentIdAsa);
        if studentBalance < 1 {
          return Fail(MustHoldStudentId);
        }
      }
      return Ok(1);
    }

    /** `award_scholarship`: creator only, for a positive amount the pool
        covers; the amount is added to the student's awards and taken from the
        pool, which therefore never goes below zero. The student's new total is
        returned. */
    method AwardScholarship(sender: Address, student: Address, amount: UInt64) returns (r: Result<UInt64>)
      requires Valid()
      modifies this`awards, this`totalFunds
      ensures Valid()
      ensures r.Fail? ==> awards == old(awards) && totalFunds == old(totalFunds)
      ensures sender != creator || amount == 0 || amount > old(totalFunds) ==> r == Fail(AssertFailed)
      ensures (sender == creator && 0 < amount <= old(totalFunds) &&
               Lookup(old(awards), student) + amount > MaxUInt64) ==>
        r == Fail(Overflow)
      ensures (sender == creator && 0 < amount <= old(totalFunds) &&
               Lookup(old(awards), student) + amount <= MaxUInt64) ==>
        && r == Ok(Lookup(old(awards), student) + amount)
        && awards == old(awards)[student := r.value]
        && totalFunds == old(totalFunds) - amount
    {
      if sender != creator || amount == 0 || amount > totalFunds {
        return Fail(AssertFailed);
      }
      var current := Lookup(awards, student);
      if current + amount > MaxUInt64 {
        return Fail(Overflow);
      }
      SumValuesUpdate(awards, student, current + amount);
      awards := awards[student := current + amount];
      totalFunds := totalFunds - amount;
      return Ok(awards[student]);
    }

    /** `mark_badge_recipient`: creator only. */
    method MarkBadgeRecipient(sender: Address, student: Address) returns (r: Result<()>)
      requires Valid()
      modifies this`badgeRecipients
      ensures Valid()
      ensures sender != creator ==> r == Fail(AssertFailed) && badgeRecipients == old(badgeRecipients)
      ensures sender == creator ==> r == Ok(()) && badgeRecipients == old(badgeRecipients)[student := 1]
      ensures sender == creator ==> HasBadge(student)
    {
      if sender != creator {
        return Fail(AssertFailed);
      }
      badgeRecipients := badgeRecipients[student := 1];
      return Ok(());
    }

    /** `get_donation`: 0 for an address that never donated. */
    function GetDonation(donor: Address): (amount: UInt64)
      reads this
      ensures donor !in donations ==> amount == 0
      ensures donor in donations ==> amount == donations[donor]
    {
      if donor in donations then donations[donor] else 0
    }

    /** `get_award`: 0 for an address that was never awarded. */
    function GetAward(student: Address): (amount: UInt64)
      reads this
      ensures student !in awards ==> amount == 0
      ensures student in awards ==> amount == awards[student]
    {
      if student in awards then awards[student] else 0
    }

    function GetTotalFunds(): UInt64
      reads this
    {
      totalFunds
    }

    /** `has_badge`: whether the student was marked. */
    function HasBadge(student: Address): (marked: bool)
      reads this
      ensures marked <==> student in badgeRecipients
    {
      student in badgeRecipients
    }

    function GetStudentIdAsa(): UInt64
      reads this
    {
      studentIdAsa
    }

    /** The pool never holds more than was donated, and no student was
        awarded more than was donated in total. */
    lemma FundsBoundedByDonations(student: Address)
      requires Valid()
      ensures GetTotalFunds() <= SumValues(donations)
      ensures GetAward(student) <= SumValues(donations) - GetTotalFunds()
    {
      if student in awards {
        ValueAtMostSum(awards, student);
      }
    }
  }
}
