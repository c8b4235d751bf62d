/** Holding-based access control on the frontend: per-asset lookups over the
    ledger's account-information response and the verdict that gates applying
    and voting (frontend/src/utils/assetUtils.ts). */
module AssetUtils {
  import opened Common

  /** One entry of the `assets` list of an account-information response. */
  datatype Holding = Holding(assetId: AssetId, amount: nat, isFrozen: bool)

  /** The response to one account-information query: the query threw (timeout,
      unknown account, network error), or it answered with an account record
      whose `assets` list may be missing. */
  datatype AccountQuery = QueryFailed | Answered(assets: Option<seq<Holding>>)

  /** `accountInfo.assets || []`. */
  function AssetsOf(q: AccountQuery): seq<Holding>
    requires q.Answered?
  {
    q.assets.GetOr([])
  }

  /** `i` is the position of the first holding of `assetId`. */
  ghost predicate FirstMatch(assets: seq<Holding>, assetId: AssetId, i: int) {
    0 <= i < |assets| && assets[i].assetId == assetId &&
    forall j :: 0 <= j < i ==> assets[j].assetId != assetId
  }

  /** `assets.find(a => a['asset-id'] === assetId)`. */
  function Find(assets: seq<Holding>, assetId: AssetId): (r: Option<Holding>)
    ensures r.None? <==> forall i :: 0 <= i < |assets| ==> assets[i].assetId != assetId
    ensures r.Some? ==> exists i :: FirstMatch(assets, assetId, i) && assets[i] == r.value
  {
    if assets == [] then None
    else if assets[0].assetId == assetId then
      assert FirstMatch(assets, assetId, 0);
      Some(assets[0])
    else
      var r := Find(assets[1..], assetId);
      assert forall i :: 1 <= i < |assets| ==> assets[i] == assets[1..][i - 1];
      assert r.Some? ==> exists i :: FirstMatch(assets, assetId, i) && assets[i] == r.value by {
        if r.Some? {
          var i :| FirstMatch(assets[1..], assetId, i) && assets[1..][i] == r.value;
          assert FirstMatch(assets, assetId, i + 1);
        }
      }
      r
  }

  /** The first match is unique, so the lookup is well defined. */
  lemma FirstMatchUnique(assets: seq<Holding>, assetId: AssetId, i: int, j: int)
    requires FirstMatch(assets, assetId, i) && FirstMatch(assets, assetId, j)
    ensures i == j
  {
  }

  /** The raw per-asset lookup every query helper is built from: a failed query
      and a missing holding both give None. */
  function HoldingOf(q: AccountQuery, assetId: AssetId): (r: Option<Holding>)
    ensures q.QueryFailed? ==> r.None?
    ensures q.Answered? ==> r == Find(AssetsOf(q), assetId)
  {
    match q
    case QueryFailed => None
    case Answered(_) => Find(AssetsOf(q), assetId)
  }

  /** `getAssetBalance`: the amount of the first holding of the asset; 0 when
      there is none and 0 when the query throws. */
  function GetAssetBalance(q: AccountQuery, assetId: AssetId): (b: nat)
    ensures q.QueryFailed? ==> b == 0
    ensures q.Answered? ==>
      (forall i :: 0 <= i < |AssetsOf(q)| ==> AssetsOf(q)[i].assetId != assetId) ==> b == 0
    ensures q.Answered? ==>
      forall i :: FirstMatch(AssetsOf(q), assetId, i) ==> b == AssetsOf(q)[i].amount
  {
    match HoldingOf(q, assetId)
    case Some(h) => h.amount
    case None => 0
  }

  /** `checkAssetHolding`: whether the first holding of the asset has a
      positive amount; false when there is none and false when the query throws. */
  function CheckAssetHolding(q: AccountQuery, assetId: AssetId): (has: bool)
    ensures q.QueryFailed? ==> !has
    ensures q.Answered? ==>
      (has <==> exists i :: FirstMatch(AssetsOf(q), assetId, i) && AssetsOf(q)[i].amount > 0)
  {
    var h := HoldingOf(q, assetId);
    h.Some? && h.value.amount > 0
  }

  /** Holding a positive amount and having a positive balance are the same thing. */
  lemma HoldingAgreesWithBalance(q: AccountQuery, assetId: AssetId)
    ensures CheckAssetHolding(q, assetId) <==> GetAssetBalance(q, assetId) > 0
  {
  }

  /** When the ledger lists each asset at most once, holding means some entry of
      the asset has a positive amount. */
  lemma {:induction false} HoldingWithUniqueIds(q: AccountQuery, assetId: AssetId)
    requires q.Answered?
    requires forall i, j :: 0 <= i < j < |AssetsOf(q)| ==> AssetsOf(q)[i].assetId != AssetsOf(q)[j].assetId
    ensures CheckAssetHolding(q, assetId) <==>
      exists h :: h in AssetsOf(q) && h.assetId == assetId && h.amount > 0
  {
    var s := AssetsOf(q);
    if h :| h in s && h.assetId == assetId && h.amount > 0 {
      var k :| 0 <= k < |s| && s[k] == h;
      assert FirstMatch(s, assetId, k);
    }
  }

  /** `hasStudentId`: false for an unset id (0) without asking the ledger,
      otherwise the holding check. */
  function HasStudentId(studentIdAsaId: AssetId, q: AccountQuery): (has: bool)
    ensures studentIdAsaId == 0 ==> !has
    ensures studentIdAsaId != 0 ==> has == CheckAssetHolding(q, studentIdAsaId)
  {
    if studentIdAsaId == 0 then false else CheckAssetHolding(q, studentIdAsaId)
  }

  /** `hasClubMember`: the same pattern for the club-member token. */
  function HasClubMember(clubMemberAsaId: AssetId, q: AccountQuery): (has: bool)
    ensures clubMemberAsaId == 0 ==> !has
    ensures clubMemberAsaId != 0 ==> has == CheckAssetHolding(q, clubMemberAsaId)
  {
    if clubMemberAsaId == 0 then false else CheckAssetHolding(q, clubMemberAsaId)
  }

  /** `isAssetFrozen`: the frozen flag of the first holding of the asset; false
      when there is none and false when the query throws. */
  function IsAssetFrozen(q: AccountQuery, assetId: AssetId): (frozen: bool)
    ensures q.QueryFailed? ==> !frozen
    ensures q.Answered? ==>
      (forall i :: 0 <= i < |AssetsOf(q)| ==> AssetsOf(q)[i].assetId != assetId) ==> !frozen
    ensures q.Answered? ==>
      forall i :: FirstMatch(AssetsOf(q), assetId, i) ==> frozen == AssetsOf(q)[i].isFrozen
  {
    match HoldingOf(q, assetId)
    case Some(h) => h.isFrozen
    case None => false
  }

  /** Balance and frozen flag are read from the same holding: a frozen answer
      always comes with the balance of that holding. */
  lemma FrozenAndBalanceAgree(q: AccountQuery, assetId: AssetId)
    requires IsAssetFrozen(q, assetId)
    ensures q.Answered?
    ensures exists i :: FirstMatch(AssetsOf(q), assetId, i) && AssetsOf(q)[i].isFrozen &&
                        AssetsOf(q)[i].amount == GetAssetBalance(q, assetId)
  {
  }

  /** The asset parameters of a `getAssetByID` response; each field may be missing. */
  datatype AssetParams = AssetParams(
    name: Option<string>, unitName: Option<string>,
    decimals: Option<nat>, total: Option<nat>, frozen: Option<bool>)

  /** The response to one asset query. */
  datatype AssetQuery = AssetQueryFailed | AssetFound(index: AssetId, params: AssetParams)

  datatype AssetInfo = AssetInfo(
    id: AssetId, name: string, unitName: string,
    decimals: nat, total: nat, frozen: bool, balance: nat)

  /** JavaScript's `s || fallback` on an optional string: a missing or empty
      string is replaced. */
  function OrText(s: Option<string>, fallback: string): (r: string)
    ensures s.Some? && s.value != "" ==> r == s.value
    ensures s.None? || s.value == "" ==> r == fallback
  {
    if s.Some? && s.value != "" then s.value else fallback
  }

  /** `getAssetInfo`: null when the asset query throws; otherwise the parameters
      with their defaults and the wallet's balance of the asset, read through
      the same fail-to-zero lookup as `getAssetBalance`. */
  function GetAssetInfo(asset: AssetQuery, account: AccountQuery, assetId: AssetId): (r: Option<AssetInfo>)
    ensures r.None? <==> asset.AssetQueryFailed?
    ensures r.Some? ==>
      && r.value.id == asset.index
      && r.value.name == OrText(asset.params.name, "Unknown")
      && r.value.unitName == OrText(asset.params.unitName, "Unknown")
      && r.value.decimals == asset.params.decimals.GetOr(0)
      && r.value.total == asset.params.total.GetOr(0)
      && r.value.frozen == asset.params.frozen.GetOr(false)
      && r.value.balance == GetAssetBalance(account, assetId)
  {
    match asset
    case AssetQueryFailed => None
    case AssetFound(index, p) =>
      Some(AssetInfo(index, OrText(p.name, "Unknown"), OrText(p.unitName, "Unknown"),
                     p.decimals.GetOr(0), p.total.GetOr(0), p.frozen.GetOr(false),
                     GetAssetBalance(account, assetId)))
  }

  /** The verdict of `checkAccessControl`. */
  datatype AccessControlStatus = AccessControlStatus(
    canApply: bool, canVote: bool,
    studentIdBalance: nat, clubMemberBalance: nat,
    reasons: seq<string>)

  const StudentIdRequired: string := "Student ID Token required to apply"
  const ClubMemberRequired: string := "Club Member Token required to vote"

  /** A gate parameter is an asset id or `undefined`; it is enabled when it is
      truthy, that is, present and not 0. */
  predicate Configured(gate: Option<AssetId>) {
    gate.Some? && gate.value != 0
  }

  /** `checkAccessControl`. Each enabled gate reads the wallet's balance of its
      asset through its own account query (`studentRead`, `clubRead`); a disabled
      gate reads nothing and passes. */
  method CheckAccessControl(studentGate: Option<AssetId>, clubGate: Option<AssetId>,
                            studentRead: AccountQuery, clubRead: AccountQuery)
    returns (status: AccessControlStatus)
    ensures status.studentIdBalance ==
      if Configured(studentGate) then GetAssetBalance(studentRead, studentGate.value) else 0
    ensures status.clubMemberBalance ==
      if Configured(clubGate) then GetAssetBalance(clubRead, clubGate.value) else 0
    ensures status.canApply <==> !Configured(studentGate) || status.studentIdBalance > 0
    ensures status.canVote <==> !Configured(clubGate) || status.clubMemberBalance > 0
    // the reasons name exactly the failed gates, student gate first
    ensures |status.reasons| <= 2
    ensures StudentIdRequired in status.reasons <==> !status.canApply
    ensures ClubMemberRequired in status.reasons <==> !status.canVote
    ensures forall r :: r in status.reasons ==> r == StudentIdRequired || r == ClubMemberRequired
    ensures |status.reasons| == 2 ==>
      status.reasons[0] == StudentIdRequired && status.reasons[1] == ClubMemberRequired
    ensures status.reasons == [] <==> status.canApply && status.canVote
    // fail-closed: a query that throws on an enabled gate denies, never grants
    ensures Configured(studentGate) && studentRead.QueryFailed? ==>
      !status.canApply && status.reasons[0] == StudentIdRequired
    ensures Configured(clubGate) && clubRead.QueryFailed? ==> !status.canVote
  {
    var reasons: seq<string> := [];
    var studentIdBalance := 0;
    var clubMemberBalance := 0;

    if Configured(studentGate) {
      studentIdBalance := GetAssetBalance(studentRead, studentGate.value);
      if studentIdBalance == 0 {
        reasons := reasons + [StudentIdRequired];
      }
    }

    if Configured(clubGate) {
      clubMemberBalance := GetAssetBalance(clubRead, clubGate.value);
      if clubMemberBalance == 0 {
        reasons := reasons + [ClubMemberRequired];
      }
    }

    status := AccessControlStatus(
      studentIdBalance > 0 || !Configured(studentGate),
      clubMemberBalance > 0 || !Configured(clubGate),
      studentIdBalance, clubMemberBalance, reasons);
  }
}
