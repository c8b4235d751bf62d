/** The voting contract (contracts/smart_contracts/counter/contract.py): open
    application submission, and one vote per wallet, gated on holding the
    club-member token when one is configured. Each ABI call is one atomic step:
    it completes, or it aborts and the contract's state is unchanged. */
module Voting {
  import opened Common

  const OnlyAdmin: string := "Only admin"
  const MustHoldClubMember: string := "Must hold Club Member Token to vote"
  const AlreadyVoted: string := "Already voted"

  class ScholarshipVoting {
    /** `Global.creator_address`. */
    const creator: Address
    var totalApplications: UInt64
    var totalVotes: UInt64
    var identityContract: UInt64
    var clubMemberAsa: UInt64
    /** Application id to vote count (the boxes with prefix "v"). */
    var applicationVotes: map<UInt64, UInt64>
    /** Voter to 1 (the boxes with prefix "h"; named `has_voted` in the
        source, like the view that reads it). */
    var voters: map<Address, UInt64>

    /** Every vote is counted once in its application's tally and once in the
        total, and belongs to exactly one recorded voter. */
    ghost predicate Valid()
      reads this
    {
      && totalVotes == SumValues(applicationVotes)
      && totalVotes == |voters|
      && (forall v :: v in voters ==> voters[v] == 1)
    }

    constructor (creator: Address)
      ensures this.creator == creator
      ensures totalApplications == 0 && totalVotes == 0
      ensures identityContract == 0 && clubMemberAsa == 0
      ensures applicationVotes == map[] && voters == map[]
      ensures Valid()
    {
      this.creator := creator;
      totalApplications := 0;
      totalVotes := 0;
      identityContract := 0;
      clubMemberAsa := 0;
      applicationVotes := map[];
      voters := map[];
    }

    /** `set_identity_contract`: creator only. */
    method SetIdentityContract(sender: Address, contractId: UInt64) returns (r: Result<()>)
      requires Valid()
      modifies this`identityContract
      ensures Valid()
      ensures sender != creator ==> r == Fail(OnlyAdmin) && identityContract == old(identityContract)
      ensures sender == creator ==> r == Ok(()) && identityContract == contractId
    {
      if sender != creator {
        return Fail(OnlyAdmin);
      }
      identityContract := contractId;
      return Ok(());
    }

    /** `set_club_member_asa`: creator only; 0 switches the voting gate off. */
    method SetClubMemberAsa(sender: Address, asaId: UInt64) returns (r: Result<()>)
      requires Valid()
      modifies this`clubMemberAsa
      ensures Valid()
      ensures sender != creator ==> r == Fail(OnlyAdmin) && clubMemberAsa == old(clubMemberAsa)
      ensures sender == creator ==> r == Ok(()) && clubMemberAsa == asaId
    {
      if sender != creator {
        return Fail(OnlyAdmin);
      }
      clubMemberAsa := asaId;
      return Ok(());
    }

    /** `submit_application`: anyone may submit; the count goes up by one and
        the new count is returned. */
    method SubmitApplication() returns (r: Result<UInt64>)
      requires Valid()
      modifies this`totalApplications
      ensures Valid()
      ensures old(totalApplications) == MaxUInt64 ==>
        r == Fail(Overflow) && totalApplications == old(totalApplications)
      ensures old(totalApplications) < MaxUInt64 ==>
        totalApplications == old(totalApplications) + 1 && r == Ok(totalApplications)
    {
      if totalApplications == MaxUInt64 {
        return Fail(Overflow);
      }
      totalApplications := totalApplications + 1;
      return Ok(totalApplications);
    }

    /** The voting gate: no token is required while `clubMemberAsa` is 0. */
    predicate MayVote(ledger: Balances, sender: Address)
      reads this
    {
      clubMemberAsa == 0 || BalanceOf(ledger, sender, clubMemberAsa) >= 1
    }

    /** `vote_for_application`: the gate, then the double-vote check, then the
        voter is recorded and the application's tally (absent counts as 0) and
        the total each go up by one; the new tally is returned. */
    method VoteForApplication(sender: Address, ledger: Balances, applicationId: UInt64)
      returns (r: Result<UInt64>)
      requires Valid()
      modifies this`applicationVotes, this`voters, this`totalVotes
      ensures Valid()
      ensures r.Fail? ==>
        applicationVotes == old(applicationVotes) && voters == old(voters) && totalVotes == old(totalVotes)
      ensures !MayVote(ledger, sender) ==> r == Fail(MustHoldClubMember)
      ensures MayVote(ledger, sender) && sender in old(voters) ==> r == Fail(AlreadyVoted)
      ensures MayVote(ledger, sender) && sender !in old(voters) && old(totalVotes) == MaxUInt64 ==>
        r == Fail(Overflow)
      ensures MayVote(ledger, sender) && sender !in old(voters) && old(totalVotes) < MaxUInt64 ==>
        && r == Ok(Lookup(old(applicationVotes), applicationId) + 1)
        && applicationVotes == old(applicationVotes)[applicationId := r.value]
        && voters == old(voters)[sender := 1]
        && totalVotes == old(totalVotes) + 1
    {
      if clubMemberAsa > 0 {
        var voterBalance := BalanceOf(ledger, sender, clubMemberAsa);
        if voterBalance < 1 {
          return Fail(MustHoldClubMember);
        }
      }

      if sender in voters {
        return Fail(AlreadyVoted);
      }

      var currentVotes := Lookup(applicationVotes, applicationId);
      if applicationId in applicationVotes {
        ValueAtMostSum(applicationVotes, applicationId);
      }
      // a tally is part of the total, so only the total can reach the limit first
      if currentVotes + 1 > MaxUInt64 || totalVotes + 1 > MaxUInt64 {
        return Fail(Overflow);
      }

      SumValuesUpdate(applicationVotes, applicationId, currentVotes + 1);
      voters := voters[sender := 1];
      applicationVotes := applicationVotes[applicationId := currentVotes + 1];
      totalVotes := totalVotes + 1;
      return Ok(applicationVotes[applicationId]);
    }

    /** `get_votes_for_application`: 0 for an id nobody voted for. */
    function GetVotesForApplication(applicationId: UInt64): (votes: UInt64)
      reads this
      ensures applicationId !in applicationVotes ==> votes == 0
      ensures applicationId in applicationVotes ==> votes == applicationVotes[applicationId]
    {
      if applicationId in applicationVotes then applicationVotes[applicationId] else 0
    }

    function GetTotalApplications(): UInt64
      reads this
    {
      totalApplications
    }

    function GetTotalVotes(): UInt64
      reads this
    {
      totalVotes
    }

    /** The `has_voted` view: whether the address has voted. */
    function HasVoted(voter: Address): (voted: bool)
      reads this
      ensures voted <==> voter in voters
    {
      voter in voters
    }

    function GetClubMemberAsa(): UInt64
      reads this
    {
      clubMemberAsa
    }

    /** No application's tally exceeds the total, and the total is the number
        of wallets that have voted. */
    lemma TalliesWithinTotal(applicationId: UInt64)
      requires Valid()
      ensures GetVotesForApplication(applicationId) <= GetTotalVotes()
      ensures GetTotalVotes() == |voters|
    {
      if applicationId in applicationVotes {
        ValueAtMostSum(applicationVotes, applicationId);
      }
    }
  }
}
