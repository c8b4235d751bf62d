/** The scholarship dashboard's decision procedures: the access re-check that
    runs when the wallet changes, and the guard chains of the donate, apply and
    vote buttons (frontend/src/components/ScholarshipDashboard.tsx). Rendering
    is not modelled; each snackbar the component would show is appended to
    `notices`. */
module Dashboard {
  import opened Common
  import AssetUtils
  import opened ScholarshipUtils

  datatype Variant = Info | Warning | Error | Success

  /** One snackbar message. */
  datatype Notice = Notice(text: string, variant: Variant)

  /** The dashboard's own access record. */
  datatype AccessStatus = AccessStatus(
    canApply: bool, canVote: bool,
    hasStudentId: bool, hasClubMember: bool,
    reasons: seq<string>)

  const WalletNotConnected: string := "Wallet not connected"
  const ErrorCheckingAccess: string := "Error checking access control"
  const NeedStudentIdNotice: Notice := Notice("You need a Student ID Token to apply", Info)
  const NeedClubMemberNotice: Notice := Notice("You need a Club Member Token to vote", Info)

  /** The all-false record the dashboard falls back to, with a single reason. */
  function Denied(reason: string): (s: AccessStatus)
    ensures !s.canApply && !s.canVote && !s.hasStudentId && !s.hasClubMember
    ensures s.reasons == [reason]
  {
    AccessStatus(false, false, false, false, [reason])
  }

  /** `ID > 0 ? ID : undefined`: a configured id of 0 is passed as a disabled gate. */
  function GateParam(id: AssetId): (gate: Option<AssetId>)
    ensures AssetUtils.Configured(gate) <==> id > 0
    ensures id > 0 ==> gate == Some(id)
    ensures id == 0 ==> gate == None
  {
    if id > 0 then Some(id) else None
  }

  /** JavaScript's `String.prototype.includes`. */
  predicate Includes(s: string, part: string)
    decreases |s|
  {
    part <= s || (s != [] && Includes(s[1..], part))
  }

  /** Whatever `s` includes, it contains that text's first character. */
  lemma {:induction false} IncludesFirstChar(s: string, part: string)
    requires Includes(s, part) && part != []
    ensures part[0] in s
    decreases |s|
  {
    if !(part <= s) {
      IncludesFirstChar(s[1..], part);
    }
  }

  /** `reasons.some(r => r.includes(word))`. */
  predicate SomeMentions(reasons: seq<string>, word: string) {
    exists r :: r in reasons && Includes(r, word)
  }

  /** Each verdict message names its own token and not the other one. */
  lemma MessagesNameTheirToken()
    ensures Includes(AssetUtils.StudentIdRequired, "Student ID")
    ensures !Includes(AssetUtils.StudentIdRequired, "Club Member")
    ensures Includes(AssetUtils.ClubMemberRequired, "Club Member")
    ensures !Includes(AssetUtils.ClubMemberRequired, "Student ID")
  {
    var student, club := AssetUtils.StudentIdRequired, AssetUtils.ClubMemberRequired;
    assert "Student ID" <= student;
    assert "Club Member" <= club;
    assert forall i :: 0 <= i < |student| ==> student[i] != 'C';
    assert forall i :: 0 <= i < |club| ==> club[i] != 'S';
    if Includes(student, "Club Member") {
      IncludesFirstChar(student, "Club Member");
    }
    if Includes(club, "Student ID") {
      IncludesFirstChar(club, "Student ID");
    }
  }

  /** The reasons list of a verdict, as `checkAccessControl` characterises it,
      is fully determined by which gates failed. */
  lemma ReasonsDetermined(reasons: seq<string>, studentMissing: bool, clubMissing: bool)
    requires |reasons| <= 2
    requires AssetUtils.StudentIdRequired in reasons <==> studentMissing
    requires AssetUtils.ClubMemberRequired in reasons <==> clubMissing
    requires forall r :: r in reasons ==> r == AssetUtils.StudentIdRequired || r == AssetUtils.ClubMemberRequired
    requires |reasons| == 2 ==>
      reasons[0] == AssetUtils.StudentIdRequired && reasons[1] == AssetUtils.ClubMemberRequired
    ensures reasons == VerdictReasons(studentMissing, clubMissing)
  {
    assert AssetUtils.StudentIdRequired != AssetUtils.ClubMemberRequired by {
      assert AssetUtils.StudentIdRequired[0] != AssetUtils.ClubMemberRequired[0];
    }
    var student, club := AssetUtils.StudentIdRequired, AssetUtils.ClubMemberRequired;
    if |reasons| == 1 {
      assert reasons == [reasons[0]];
      if reasons[0] == student {
        assert club !in reasons;
      } else {
        assert reasons[0] in reasons;
        assert reasons == [club];
        assert student !in reasons;
      }
    } else if |reasons| == 2 {
      assert reasons == [student, club];
    }
  }

  /** The reasons of a verdict whose gates failed as given, student gate first. */
  function VerdictReasons(studentMissing: bool, clubMissing: bool): seq<string> {
    (if studentMissing then [AssetUtils.StudentIdRequired] else [])
    + (if clubMissing then [AssetUtils.ClubMemberRequired] else [])
  }

  /** An info notice about a token is due exactly when that token's gate failed. */
  lemma NoticesFollowReasons(studentMissing: bool, clubMissing: bool)
    ensures SomeMentions(VerdictReasons(studentMissing, clubMissing), "Student ID") <==> studentMissing
    ensures SomeMentions(VerdictReasons(studentMissing, clubMissing), "Club Member") <==> clubMissing
  {
    MessagesNameTheirToken();
    var reasons := VerdictReasons(studentMissing, clubMissing);
    if studentMissing {
      assert AssetUtils.StudentIdRequired in reasons;
    }
    if clubMissing {
      assert AssetUtils.ClubMemberRequired in reasons;
    }
  }

  // ---------------------------------------------------------------------------
  // Button guards: early-return decisions, each ending in exactly one notice.

  const ConnectWalletNotice: Notice := Notice("Please connect your wallet", Warning)
  const EnterNameNotice: Notice := Notice("Please enter your name", Warning)
  const EnterAmountNotice: Notice := Notice("Please enter amount", Warning)
  const NoApplyPermission: string := "You do not have permission to apply"
  const NoVotePermission: string := "You do not have permission to vote"

  /** `reasons[0] || fallback`: the first reason when there is a non-empty one. */
  function FirstReasonOr(reasons: seq<string>, fallback: string): (text: string)
    ensures |reasons| > 0 && reasons[0] != "" ==> text == reasons[0]
    ensures reasons == [] || reasons[0] == "" ==> text == fallback
  {
    if |reasons| > 0 && reasons[0] != "" then reasons[0] else fallback
  }

  /** `handleApply`'s checks, in order: a wallet, then eligibility, then a name. */
  function ApplyGuard(connected: bool, status: AccessStatus, studentName: string,
                      applicationType: ScholarshipType): (n: Notice)
    ensures n.variant == Success <==> connected && status.canApply && studentName != ""
    ensures !connected ==> n == ConnectWalletNotice
    ensures connected && !status.canApply ==>
      n == Notice(FirstReasonOr(status.reasons, NoApplyPermission), Error)
    ensures connected && status.canApply && studentName == "" ==> n == EnterNameNotice
    ensures n.variant == Success ==>
      n.text == "Application submitted for " + TypeName(applicationType) + " scholarship!"
  {
    if !connected then ConnectWalletNotice
    else if !status.canApply then Notice(FirstReasonOr(status.reasons, NoApplyPermission), Error)
    else if studentName == "" then EnterNameNotice
    else Notice("Application submitted for " + TypeName(applicationType) + " scholarship!", Success)
  }

  /** `handleVote`'s checks, in order: a wallet, then eligibility. */
  function VoteGuard(connected: bool, status: AccessStatus, proposalId: string): (n: Notice)
    ensures n.variant == Success <==> connected && status.canVote
    ensures !connected ==> n == ConnectWalletNotice
    ensures connected && !status.canVote ==>
      n == Notice(FirstReasonOr(status.reasons, NoVotePermission), Error)
    ensures n.variant == Success ==> n.text == "Voted for proposal " + proposalId + "!"
  {
    if !connected then ConnectWalletNotice
    else if !status.canVote then Notice(FirstReasonOr(status.reasons, NoVotePermission), Error)
    else Notice("Voted for proposal " + proposalId + "!", Success)
  }

  /** `handleDonate`'s check: a wallet and a non-empty amount. */
  function DonateGuard(connected: bool, donationAmount: string): (n: Notice)
    ensures n.variant == Success <==> connected && donationAmount != ""
    ensures n.variant != Success ==> n == EnterAmountNotice
    ensures n.variant == Success ==> n.text == "Donation of " + donationAmount + " ALGO submitted!"
  {
    if !connected || donationAmount == "" then EnterAmountNotice
    else Notice("Donation of " + donationAmount + " ALGO submitted!", Success)
  }

  /** Whether a gate blocks the wallet: configured, and the read balance is 0. */
  function Missing(id: AssetId, read: AssetUtils.AccountQuery): bool {
    id > 0 && AssetUtils.GetAssetBalance(read, id) == 0
  }

  /** The dashboard component's state. */
  class ScholarshipDashboard {
    /** `STUDENT_ID_ASA_ID` and `CLUB_MEMBER_ASA_ID`; the source ships both as 0. */
    const studentIdAsaId: AssetId
    const clubMemberAsaId: AssetId

    var accessStatus: AccessStatus
    var loading: bool
    var studentName: string
    var donationAmount: string
    var applicationType: ScholarshipType
    /** Every snackbar shown so far, oldest first. */
    var notices: seq<Notice>
    /** How many times `checkAccessControl` has been called. */
    var accessChecks: nat

    constructor (studentIdAsaId: AssetId, clubMemberAsaId: AssetId)
      ensures this.studentIdAsaId == studentIdAsaId && this.clubMemberAsaId == clubMemberAsaId
      ensures accessStatus == AccessStatus(false, false, false, false, [])
      ensures loading
      ensures studentName == "" && donationAmount == "" && applicationType == Merit
      ensures notices == [] && accessChecks == 0
    {
      this.studentIdAsaId := studentIdAsaId;
      this.clubMemberAsaId := clubMemberAsaId;
      accessStatus := AccessStatus(false, false, false, false, []);
      loading := true;
      studentName := "";
      donationAmount := "";
      applicationType := Merit;
      notices := [];
      accessChecks := 0;
    }

    /** The `checkAccess` effect. `walletClient` says whether a ledger client
        is available; `studentRead` and `clubRead` are the answers the two gate
        reads would get; `checkThrows` says whether `checkAccessControl`
        itself rejects. */
    method CheckAccess(activeAddress: Option<Address>, walletClient: bool,
                       studentRead: AssetUtils.AccountQuery, clubRead: AssetUtils.AccountQuery,
                       checkThrows: bool)
      modifies this
      ensures !loading
      ensures studentName == old(studentName) && donationAmount == old(donationAmount)
      ensures applicationType == old(applicationType)
      ensures activeAddress.None? || !walletClient ==>
        && accessStatus == Denied(WalletNotConnected)
        && notices == old(notices) && accessChecks == old(accessChecks)
      ensures activeAddress.Some? && walletClient ==> accessChecks == old(accessChecks) + 1
      ensures activeAddress.Some? && walletClient && checkThrows ==>
        accessStatus == Denied(ErrorCheckingAccess) && notices == old(notices)
      ensures activeAddress.Some? && walletClient && !checkThrows ==>
        var studentMissing, clubMissing := Missing(studentIdAsaId, studentRead), Missing(clubMemberAsaId, clubRead);
        && accessStatus.canApply == !studentMissing
        && accessStatus.canVote == !clubMissing
        && !accessStatus.hasStudentId && !accessStatus.hasClubMember
        && accessStatus.reasons == VerdictReasons(studentMissing, clubMissing)
        && notices == old(notices) + (if studentMissing then [NeedStudentIdNotice] else [])
                                   + (if clubMissing then [NeedClubMemberNotice] else [])
    {
      if activeAddress.None? || !walletClient {
        accessStatus := Denied(WalletNotConnected);
        loading := false;
        return;
      }

      loading := true;
      accessChecks := accessChecks + 1;
      if checkThrows {
        accessStatus := Denied(ErrorCheckingAccess);
      } else {
        var status := AssetUtils.CheckAccessControl(
          GateParam(studentIdAsaId), GateParam(clubMemberAsaId), studentRead, clubRead);
        assert status.canApply == !Missing(studentIdAsaId, studentRead);
        assert status.canVote == !Missing(clubMemberAsaId, clubRead);
        ReasonsDetermined(status.reasons, !status.canApply, !status.canVote);
        // the stored object has no `hasStudentId`/`hasClubMember` fields: both read as falsy
        accessStatus := AccessStatus(status.canApply, status.canVote, false, false, status.reasons);
        NotifyRestrictions();
      }
      loading := false;
    }

    /** The info notices shown after a successful check: one per refused
        action whose reasons mention its token. */
    method NotifyRestrictions()
      requires accessStatus.reasons == VerdictReasons(!accessStatus.canApply, !accessStatus.canVote)
      modifies this`notices
      ensures notices == old(notices) + (if !accessStatus.canApply then [NeedStudentIdNotice] else [])
                                       + (if !accessStatus.canVote then [NeedClubMemberNotice] else [])
    {
      NoticesFollowReasons(!accessStatus.canApply, !accessStatus.canVote);
      if !accessStatus.canApply && SomeMentions(accessStatus.reasons, "Student ID") {
        notices := notices + [NeedStudentIdNotice];
      }
      if !accessStatus.canVote && SomeMentions(accessStatus.reasons, "Club Member") {
        notices := notices + [NeedClubMemberNotice];
      }
    }

    /** `handleApply`: one notice, and the name is cleared on success. */
    method HandleApply(activeAddress: Option<Address>)
      modifies this`notices, this`studentName
      ensures notices == old(notices) + [ApplyGuard(activeAddress.Some?, accessStatus, old(studentName), applicationType)]
      ensures studentName == if notices[|notices| - 1].variant == Success then "" else old(studentName)
    {
      var n := ApplyGuard(activeAddress.Some?, accessStatus, studentName, applicationType);
      notices := notices + [n];
      if n.variant == Success {
        studentName := "";
      }
    }

    /** `handleVote`: one notice; nothing else changes. */
    method HandleVote(activeAddress: Option<Address>, proposalId: string)
      modifies this`notices
      ensures notices == old(notices) + [VoteGuard(activeAddress.Some?, accessStatus, proposalId)]
    {
      notices := notices + [VoteGuard(activeAddress.Some?, accessStatus, proposalId)];
    }

    /** `handleDonate`: one notice, and the amount is cleared on success. */
    method HandleDonate(activeAddress: Option<Address>)
      modifies this`notices, this`donationAmount
      ensures notices == old(notices) + [DonateGuard(activeAddress.Some?, old(donationAmount))]
      ensures donationAmount == if notices[|notices| - 1].variant == Success then "" else old(donationAmount)
    {
      var n := DonateGuard(activeAddress.Some?, donationAmount);
      notices := notices + [n];
      if n.variant == Success {
        donationAmount := "";
      }
    }

    /** The name field's `onChange`. */
    method SetStudentName(name: string)
      modifies this`studentName
      ensures studentName == name
    {
      studentName := name;
    }

    /** The type selector's `onChange`. */
    method SetApplicationType(t: ScholarshipType)
      modifies this`applicationType
      ensures applicationType == t
    {
      applicationType := t;
    }

    /** The amount field's `onChange`. */
    method SetDonationAmount(amount: string)
      modifies this`donationAmount
      ensures donationAmount == amount
    {
      donationAmount := amount;
    }
  }

  /** With both ids left at 0, as the source ships them, a connected wallet may
      apply and vote, with no reasons and no notices; a disconnected one sees
      "Wallet not connected" and is refused with it. */
  method GatesDisabledScenario(activeAddress: Option<Address>, read: AssetUtils.AccountQuery)
    returns (applyNotice: Notice, status: AccessStatus, shown: seq<Notice>)
    ensures activeAddress.Some? ==>
      status == AccessStatus(true, true, false, false, []) && shown == [] &&
      applyNotice == EnterNameNotice
    ensures activeAddress.None? ==>
      status == Denied(WalletNotConnected) && shown == [] && applyNotice == ConnectWalletNotice
  {
    var d := new ScholarshipDashboard(0, 0);
    d.CheckAccess(activeAddress, true, read, read, false);
    status, shown := d.accessStatus, d.notices;
    d.HandleApply(activeAddress);
    applyNotice := d.notices[|d.notices| - 1];
  }

  /** With a student gate of 42 and a wallet holding none of asset 42, the
      verdict names the missing token, an info notice says so, and applying is
      refused with that reason. */
  method StudentGateScenario(address: Address, read: AssetUtils.AccountQuery)
    returns (applyNotice: Notice, status: AccessStatus, shown: seq<Notice>)
    requires AssetUtils.GetAssetBalance(read, 42) == 0
    ensures !status.canApply && status.canVote
    ensures status.reasons == [AssetUtils.StudentIdRequired]
    ensures shown == [NeedStudentIdNotice]
    ensures applyNotice == Notice(AssetUtils.StudentIdRequired, Error)
  {
    var d := new ScholarshipDashboard(42, 0);
    d.CheckAccess(Some(address), true, read, read, false);
    status, shown := d.accessStatus, d.notices;
    d.HandleApply(Some(address));
    applyNotice := d.notices[|d.notices| - 1];
  }
}
