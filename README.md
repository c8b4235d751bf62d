# Campus scholarship platform — a verified model

This project models the core of a campus scholarship platform on Algorand:
- three smart contracts for identity tokens, voting and a donation pool;
- the React frontend logic that decides who may apply and vote;
- the frontend logic that mints an ARC-3 NFT;
- the frontend's list and string helpers.

Each source file has one Dafny module:

| module | models |
|---|---|
| `Common` | `Option`, `Result`, `UInt64`, the ledger's balance map and sums over maps |
| `AssetUtils` | `frontend/src/utils/assetUtils.ts`: holding lookups over an account query, and the `checkAccessControl` verdict |
| `Dashboard` | `frontend/src/components/ScholarshipDashboard.tsx`: the access re-check effect and the donate, apply and vote guards (class `ScholarshipDashboard`) |
| `MintNft` | `frontend/src/components/MintNFT.tsx`: unit name, ARC-3 metadata and URL, hex encoding of the SHA-256 digest and its decoding, the create parameters, and the `onMint` pipeline (class `MintForm`) |
| `ScholarshipUtils` | `frontend/src/utils/scholarshipUtils.ts`: address abbreviation, labels, statistics, sort by votes, filter by type, funding goal |
| `AssetLedger` | the asset balances the contracts read and the inner asset transfers they submit (class `Ledger`) |
| `Voting` | `contracts/smart_contracts/counter/contract.py` (class `ScholarshipVoting`) |
| `Pool` | `contracts/smart_contracts/bank/contract.py` (class `ScholarshipPool`) |
| `Identity` | `contracts/smart_contracts/identity/contract.py` (class `IdentityTokens`) |

## How the system is modelled

**Contracts.** Each contract is a class. Its global state and box maps are fields, and each ABI method is a method.
- The caller (`Txn.sender`) and the ledger are parameters. The creator's and the application's addresses are constants of the object.
- A method returns `Ok(value)`, or `Fail(message)` when the call aborts. Each method's contract states that an abort leaves every field as it was, so each call is one atomic step.
- Values are `UInt64`. An addition that would leave the 64-bit range aborts, as the AVM does.
- Box maps are `map`s. An absent key reads as 0.
- Asset balances are a `map<(Address, AssetId), nat>`. An absent entry is 0.
- The invariants are `Valid()` predicates, which every method preserves:
  - voting: `total_votes` = Σ `application_votes` = number of voters;
  - pool: `total_funds` + Σ `awards` = Σ `donations`.

**Frontend.**
- The wallet, the algod client and every `await` become inputs. An account query either answers with its `assets` list or fails.
- Component state is a class whose methods are the effect and the handlers. Each snackbar is appended to a `notices` sequence.
- The mint's collaborators are the functions in a `Services` value:
  - IPFS pinning and `ipfsHttpUrl`;
  - `JSON.stringify` and `TextEncoder`;
  - SHA-256;
  - `assetCreate`.
- A gate id is `Option<AssetId>`. It is enabled when it is truthy in JavaScript: present and not 0.

**The unit name is sliced before whitespace is removed.** The code slices the name to 8 characters *before* it removes whitespace. "Campus Award" therefore gives "CampusA" (`frontend/src/components/MintNFT.tsx:70`); stripping first would give "CampusAw", which a reading of the unit name as "the name without whitespace, cut to 8 characters" would expect. The model follows the code, and `MintNft.CampusAwardUnitName` proves the value.

**The dashboard never sets its token flags.** After a successful check, the dashboard stores `checkAccessControl`'s result object. That object has no `hasStudentId` or `hasClubMember` fields, so the dashboard reads both as falsy. The model stores `false` for both.

## Model

| member | source | states |
|---|---|---|
| AssetUtils.AssetsOf | frontend/src/utils/assetUtils.ts:43 | `accountInfo.assets \|\| []` |
| AssetUtils.Find | frontend/src/utils/assetUtils.ts:45 | `find` gives nothing exactly when no holding has the id; otherwise it gives the holding at the first matching position |
| AssetUtils.HoldingOf | frontend/src/utils/assetUtils.ts:41-50 | a failed query gives no holding; an answered one gives `find` over `assets \|\| []` |
| AssetUtils.GetAssetBalance | frontend/src/utils/assetUtils.ts:36-51 | the amount of the first holding of the asset; 0 when none matches; 0 when the query throws |
| AssetUtils.CheckAssetHolding | frontend/src/utils/assetUtils.ts:16-31 | true iff the first matching holding has amount > 0; false when the query throws |
| AssetUtils.HoldingAgreesWithBalance | frontend/src/utils/assetUtils.ts:16-51 | holding the asset is the same as a positive balance |
| AssetUtils.HoldingWithUniqueIds | frontend/src/utils/assetUtils.ts:25-26 | when ids are distinct, holding iff some entry of the asset has a positive amount |
| AssetUtils.HasStudentId | frontend/src/utils/assetUtils.ts:56-63 | false for id 0, without a lookup; otherwise the holding check |
| AssetUtils.HasClubMember | frontend/src/utils/assetUtils.ts:68-75 | false for id 0, without a lookup; otherwise the holding check |
| AssetUtils.IsAssetFrozen | frontend/src/utils/assetUtils.ts:138-153 | the frozen flag of the first matching holding; false when none matches; false when the query throws |
| AssetUtils.FrozenAndBalanceAgree | frontend/src/utils/assetUtils.ts:138-153 | a frozen answer comes from the same first holding whose amount the balance reports |
| AssetUtils.OrText | frontend/src/utils/assetUtils.ts:122-123 | `s \|\| fallback`: a missing or empty string is replaced |
| AssetUtils.GetAssetInfo | frontend/src/utils/assetUtils.ts:111-133 | null iff the asset query throws; otherwise each parameter with its default, and the balance from `getAssetBalance` |
| AssetUtils.Configured | frontend/src/utils/assetUtils.ts:176 | `if (studentIdAsaId)`: a gate is enabled when its id is present and not 0 |
| AssetUtils.CheckAccessControl | frontend/src/utils/assetUtils.ts:166-199 | balances are read only for enabled gates; canApply/canVote iff the gate is disabled or the balance is > 0; reasons name exactly the failed gates, at most two, student first; no reasons iff both pass; a failed query on an enabled gate denies |
| Dashboard.Denied | frontend/src/components/ScholarshipDashboard.tsx:45-51 | the fallback record: all flags false and a single reason |
| Dashboard.GateParam | frontend/src/components/ScholarshipDashboard.tsx:61-62 | `ID > 0 ? ID : undefined`: the gate is enabled iff the id is > 0 |
| Dashboard.Includes | frontend/src/components/ScholarshipDashboard.tsx:69 | `String.prototype.includes`: the part occurs at some position; IncludesFirstChar and MessagesNameTheirToken use it |
| Dashboard.MessagesNameTheirToken | frontend/src/components/ScholarshipDashboard.tsx:69-72 | each verdict message contains its own token's name and not the other token's |
| Dashboard.VerdictReasons | frontend/src/utils/assetUtils.ts:172-190 | the reasons `checkAccessControl` pushes, student gate first, for the gates that failed; ReasonsDetermined and NoticesFollowReasons state its use |
| Dashboard.Missing | frontend/src/utils/assetUtils.ts:176-190 | a gate fails when its id is configured and the balance read is 0 |
| Dashboard.ReasonsDetermined | frontend/src/utils/assetUtils.ts:172-190 | the reasons list is determined by which gates failed |
| Dashboard.SomeMentions | frontend/src/components/ScholarshipDashboard.tsx:69-72 | `reasons.some(r => r.includes(word))`; NoticesFollowReasons states when it holds |
| Dashboard.NoticesFollowReasons | frontend/src/components/ScholarshipDashboard.tsx:69-74 | "some reason mentions Student ID" holds iff the student gate failed; likewise for Club Member |
| Dashboard.FirstReasonOr | frontend/src/components/ScholarshipDashboard.tsx:108 | `reasons[0] \|\| fallback` |
| Dashboard.ApplyGuard | frontend/src/components/ScholarshipDashboard.tsx:101-119 | wallet, then eligibility (first reason or default), then name; success iff all three hold |
| Dashboard.VoteGuard | frontend/src/components/ScholarshipDashboard.tsx:121-134 | wallet, then eligibility; success iff connected and canVote |
| Dashboard.DonateGuard | frontend/src/components/ScholarshipDashboard.tsx:92-99 | success iff connected and the amount is non-empty; otherwise "Please enter amount" |
| Dashboard.ScholarshipDashboard.constructor | frontend/src/components/ScholarshipDashboard.tsx:23-35 | the initial state: all false, no reasons, loading, type merit |
| Dashboard.ScholarshipDashboard.CheckAccess | frontend/src/components/ScholarshipDashboard.tsx:43-87 | no wallet or client: "Wallet not connected" and no check; a throw: "Error checking access control"; otherwise the verdict with info notices exactly for failed gates; `loading` false on every path |
| Dashboard.ScholarshipDashboard.NotifyRestrictions | frontend/src/components/ScholarshipDashboard.tsx:69-74 | one info notice per refused action, student first |
| Dashboard.ScholarshipDashboard.HandleApply | frontend/src/components/ScholarshipDashboard.tsx:101-119 | appends the guard's notice; clears the name exactly on success |
| Dashboard.ScholarshipDashboard.HandleVote | frontend/src/components/ScholarshipDashboard.tsx:121-134 | appends the guard's notice and changes nothing else |
| Dashboard.ScholarshipDashboard.HandleDonate | frontend/src/components/ScholarshipDashboard.tsx:92-99 | appends the guard's notice; clears the amount exactly on success |
| Dashboard.ScholarshipDashboard.SetStudentName | frontend/src/components/ScholarshipDashboard.tsx:233 | the name field is set |
| Dashboard.ScholarshipDashboard.SetApplicationType | frontend/src/components/ScholarshipDashboard.tsx:221 | the type is set |
| Dashboard.ScholarshipDashboard.SetDonationAmount | frontend/src/components/ScholarshipDashboard.tsx:178 | the amount field is set |
| Dashboard.GatesDisabledScenario | frontend/src/components/ScholarshipDashboard.tsx:38-39 | with both ids 0, a connected wallet may apply and vote, with no reasons and no notices |
| Dashboard.StudentGateScenario | frontend/src/components/ScholarshipDashboard.tsx:59-74 | with a student gate and no token: a single reason, one info notice, and apply refused with that reason |
| MintNft.IsWhitespace | frontend/src/components/MintNFT.tsx:70 | JavaScript's `\s`: the WhiteSpace and LineTerminator code points, also skipped by `parseInt`; StripWhitespaceShape and ByteHexParses state its use |
| MintNft.StripWhitespace | frontend/src/components/MintNFT.tsx:70 | `replace(/\s+/g, '')`; its properties are stated by StripWhitespaceShape and StripWhitespaceKeeps |
| MintNft.StripWhitespaceShape | frontend/src/components/MintNFT.tsx:70 | `replace(/\s+/g, '')` leaves no whitespace and keeps every other character |
| MintNft.UnitName | frontend/src/components/MintNFT.tsx:70 | `name.slice(0, 8)` with whitespace removed afterwards; its properties are stated by UnitNameShape, UnitNameFixpoints and CampusAwardUnitName |
| MintNft.UnitNameShape | frontend/src/components/MintNFT.tsx:70 | the unit name has at most 8 characters, no whitespace, and only characters of the name |
| MintNft.UnitNameFixpoints | frontend/src/components/MintNFT.tsx:70 | deriving a unit name is idempotent, and a short name without whitespace is kept as it is |
| MintNft.CampusAwardUnitName | frontend/src/components/MintNFT.tsx:70 | "Campus Award" gives "CampusA" |
| MintNft.BuildMetadata | frontend/src/components/MintNFT.tsx:45-54 | image = external_url = the image URL; mimetype is the file type, or image/png when that is empty; the fixed properties |
| MintNft.Arc3Url | frontend/src/components/MintNFT.tsx:58 | the gateway URL followed by "#arc3"; Arc3UrlRoundTrip states that the suffix can be taken off again |
| MintNft.FetchUrl | frontend/src/components/MintNFT.tsx:58 | removing the "#arc3" suffix gives back the URL it was appended to |
| MintNft.Arc3UrlRoundTrip | frontend/src/components/MintNFT.tsx:58 | the published URL is the metadata gateway URL followed by "#arc3" |
| MintNft.HexValue | frontend/src/components/MintNFT.tsx:63 | a hex digit's value is below 16 |
| MintNft.Radix16 | frontend/src/components/MintNFT.tsx:31 | `b.toString(16)`: one digit below 16, two digits from 16; ByteHex states the padded result |
| MintNft.PadStart2 | frontend/src/components/MintNFT.tsx:31 | `padStart(2, '0')`; ByteHex states the padded result |
| MintNft.ByteHex | frontend/src/components/MintNFT.tsx:31 | `toString(16).padStart(2, '0')`: two lowercase hex digits whose base-16 value is the byte |
| MintNft.HexEncode | frontend/src/components/MintNFT.tsx:28-32 | two characters per byte |
| MintNft.HexEncodeSpells | frontend/src/components/MintNFT.tsx:31 | characters 2i and 2i+1 of the encoding spell byte i |
| MintNft.HexEncodeLowercase | frontend/src/components/MintNFT.tsx:31 | every character of the encoding is a lowercase hex digit |
| MintNft.HexPrefix | frontend/src/components/MintNFT.tsx:63 | the digits `parseInt` reads: the longest prefix made only of hex digits |
| MintNft.IsLineTerminator | frontend/src/components/MintNFT.tsx:63 | the characters the regular-expression `.` does not match; ChunksOfEncoding states that an encoding has none |
| MintNft.Chunks | frontend/src/components/MintNFT.tsx:63 | `match(/.{1,2}/g)`: successive runs of one or two non-line-terminator characters; ChunksOfEncoding states it on an encoding |
| MintNft.TrimStart | frontend/src/components/MintNFT.tsx:63 | the leading-whitespace skip of `parseInt`: a suffix of the input that drops exactly the leading whitespace (everything dropped is whitespace, and the rest does not start with it) |
| MintNft.HexNumber | frontend/src/components/MintNFT.tsx:63 | the base-16 value of a digit string, most significant digit first; ByteHexParses uses it on a byte pair |
| MintNft.ParseInt16 | frontend/src/components/MintNFT.tsx:63 | `parseInt(byte, 16)`: whitespace, then a sign, then an optional "0x", then the longest hex run; NaN when there is none; ByteHexParses states its value on a byte pair |
| MintNft.ToUint8 | frontend/src/components/MintNFT.tsx:63 | storing into a `Uint8Array`: NaN is 0, otherwise modulo 256; ByteHexDecodes states it on a byte pair |
| MintNft.HexDecode | frontend/src/components/MintNFT.tsx:63 | fails (the `!` on a null match) exactly when the regular expression finds no chunk |
| MintNft.ByteHexParses | frontend/src/components/MintNFT.tsx:63 | `parseInt` of a byte's two digits, base 16, is that byte |
| MintNft.ChunksOfEncoding | frontend/src/components/MintNFT.tsx:63 | `match(/.{1,2}/g)` splits the encoding back into the per-byte digit pairs |
| MintNft.HexRoundTrip | frontend/src/components/MintNFT.tsx:28-32 | decode(encode(bytes)) = bytes for any non-empty byte string; so 32 bytes give 64 characters, which give the same 32 bytes |
| MintNft.CreateParams | frontend/src/components/MintNFT.tsx:66-79 | the `assetCreate` argument; MintBindsMetadataHash states its fields on every run that reaches the ledger |
| MintNft.Mint | frontend/src/components/MintNFT.tsx:39-82 | the `try` block as a function of its collaborators; MintFollowsProtocol, MintFailsFast, MintCompleted and MintBindsMetadataHash state its properties |
| MintNft.MintFollowsProtocol | frontend/src/components/MintNFT.tsx:39-79 | the calls follow the order pin file, pin JSON, hash, create, and are always a non-empty prefix of it |
| MintNft.MintFailsFast | frontend/src/components/MintNFT.tsx:39-84 | a failed upload stops the run with its own message; success needs all four steps; the outcome of a four-step run is the ledger's |
| MintNft.MintCompleted | frontend/src/components/MintNFT.tsx:57-78 | once both uploads succeed the run makes all four calls and asks the ledger with the digest recovered from its own hex digits |
| MintNft.MintBindsMetadataHash | frontend/src/components/MintNFT.tsx:57-79 | the create request has total 1, decimals 0, every role the sender, not frozen, assetName = name, unitName derived from it, url = pinned metadata URL + "#arc3", metadataHash = SHA-256 of the UTF-8 bytes of `JSON.stringify` of the metadata object that was pinned |
| MintNft.DecimalString | frontend/src/components/MintNFT.tsx:81 | `${result.assetId}`: decimal digits whose value is the id, with no leading zero except for 0 itself |
| MintNft.MintForm.constructor | frontend/src/components/MintNFT.tsx:16-19 | the form starts with 'AlgoNFT', 'My first NFT!', no file, not loading |
| MintNft.MintForm.RunMint | frontend/src/components/MintNFT.tsx:40-78 | the calls it records and the outcome it returns are exactly those of the `Mint` pipeline |
| MintNft.MintForm.OnMint | frontend/src/components/MintNFT.tsx:34-88 | no wallet, then no file: an error and no calls; otherwise exactly the pipeline's calls, one success or error notice, closed on success, `loading` false at the end |
| MintNft.MintForm.SetName | frontend/src/components/MintNFT.tsx:114 | the name is set |
| MintNft.MintForm.SetDescription | frontend/src/components/MintNFT.tsx:128 | the description is set |
| MintNft.MintForm.SetFile | frontend/src/components/MintNFT.tsx:142 | the file is set |
| ScholarshipUtils.Substring | frontend/src/utils/scholarshipUtils.ts:40 | `String.prototype.substring`: both ends clamped to the string, swapped when reversed; EllipseAddress states the results |
| ScholarshipUtils.EllipseAddress | frontend/src/utils/scholarshipUtils.ts:39-41 | for 0 ≤ chars ≤ length: prefix + "..." + suffix, of length 2·chars+3; the degenerate cases as `substring` resolves them |
| ScholarshipUtils.TypeName | frontend/src/components/ScholarshipDashboard.tsx:117 | the string value of a scholarship type, as `${applicationType}` prints it; ApplyGuard's contract and LabelsDistinguishTypes state its use |
| ScholarshipUtils.GetScholarshipLabel | frontend/src/utils/scholarshipUtils.ts:46-53 | each type maps to its label; any other string maps to itself |
| ScholarshipUtils.LabelsDistinguishTypes | frontend/src/utils/scholarshipUtils.ts:47-51 | the labels are pairwise different, and none is a bare type name |
| ScholarshipUtils.SumAmounts | frontend/src/utils/scholarshipUtils.ts:64 | `reduce` over donation amounts from 0, left to right; SumAmountsAppend states its additivity |
| ScholarshipUtils.SumVotes | frontend/src/utils/scholarshipUtils.ts:66 | `reduce` over vote counts from 0, left to right; SumVotesAppend states its additivity |
| ScholarshipUtils.Awarded | frontend/src/utils/scholarshipUtils.ts:62 | a subsequence of the input that holds every awarded application as often as the input does, and nothing else |
| ScholarshipUtils.CalculateStats | frontend/src/utils/scholarshipUtils.ts:58-70 | funds = Σ amounts, applications = count, votes = Σ votes, awards = badges = awarded count ≤ applications |
| ScholarshipUtils.SumAmountsAppend | frontend/src/utils/scholarshipUtils.ts:64 | the donation sum is additive over concatenation |
| ScholarshipUtils.SumVotesAppend | frontend/src/utils/scholarshipUtils.ts:66 | the vote sum is additive over concatenation |
| ScholarshipUtils.AwardedAppend | frontend/src/utils/scholarshipUtils.ts:62 | the awarded filter distributes over concatenation |
| ScholarshipUtils.StatsAreAdditive | frontend/src/utils/scholarshipUtils.ts:58-70 | the statistics of two batches together are the sums of each batch's statistics |
| ScholarshipUtils.SortedByVotes | frontend/src/utils/scholarshipUtils.ts:76 | the order the comparator `b.votes - a.votes` asks for: votes never increase along the list |
| ScholarshipUtils.WithVotes | frontend/src/utils/scholarshipUtils.ts:76 | the applications with exactly a given vote count, in list order: what a stable sort must preserve |
| ScholarshipUtils.InsertByVotes | frontend/src/utils/scholarshipUtils.ts:76 | one longer; the head is the old head unless the new element has strictly more votes |
| ScholarshipUtils.InsertByVotesSorted | frontend/src/utils/scholarshipUtils.ts:76 | inserting into a list sorted by non-increasing votes keeps it sorted |
| ScholarshipUtils.InsertByVotesPermutes | frontend/src/utils/scholarshipUtils.ts:76 | inserting adds exactly the new element and removes none |
| ScholarshipUtils.SortByVotes | frontend/src/utils/scholarshipUtils.ts:75-77 | non-increasing by votes, and a permutation of the input |
| ScholarshipUtils.WithVotesAppend | frontend/src/utils/scholarshipUtils.ts:76 | selecting a vote count distributes over concatenation |
| ScholarshipUtils.WithVotesNone | frontend/src/utils/scholarshipUtils.ts:76 | when every element has strictly fewer votes than the bound, none has exactly that count |
| ScholarshipUtils.InsertByVotesStable | frontend/src/utils/scholarshipUtils.ts:76 | an inserted element goes after every element with the same vote count |
| ScholarshipUtils.SortByVotesStable | frontend/src/utils/scholarshipUtils.ts:75-77 | the sort is stable: applications with equal votes keep their order |
| ScholarshipUtils.IsSubsequence | frontend/src/utils/scholarshipUtils.ts:86 | `filter` keeps the input order: the result is the input with some elements deleted |
| ScholarshipUtils.FilterByType | frontend/src/utils/scholarshipUtils.ts:82-87 | a subsequence of the input that holds every application of that type as often as the input does, and nothing else |
| ScholarshipUtils.FilterByTypeIdempotent | frontend/src/utils/scholarshipUtils.ts:82-87 | filtering twice equals filtering once |
| ScholarshipUtils.FilterByTypePartitions | frontend/src/utils/scholarshipUtils.ts:82-87 | the three filtered lists together are the input, as a multiset |
| ScholarshipUtils.FilterByTypeLengths | frontend/src/utils/scholarshipUtils.ts:82-87 | the three lengths add up to the input's length |
| ScholarshipUtils.IsFundingGoalMet | frontend/src/utils/scholarshipUtils.ts:92-94 | `totalFunds >= goal`; FundingGoalMonotone states its properties |
| ScholarshipUtils.FundingGoalMonotone | frontend/src/utils/scholarshipUtils.ts:92-94 | met at the goal and not below it, and raising funds never un-meets it |
| Common.SumValuesRemove | contracts/smart_contracts/counter/contract.py:84-90 | a map's sum is any entry plus the sum of the rest |
| Common.ValueAtMostSum | contracts/smart_contracts/counter/contract.py:84-90 | no entry exceeds the sum |
| Common.SumValuesUpdate | contracts/smart_contracts/bank/contract.py:64-70 | overwriting an entry changes the sum by the difference |
| AssetLedger.Move | contracts/smart_contracts/identity/contract.py:53-58 | a transfer debits the sender and credits the receiver by the amount; no other balance changes |
| AssetLedger.MoveConservesSupply | contracts/smart_contracts/identity/contract.py:91-97 | a transfer keeps the sum of all balances |
| AssetLedger.Ledger.constructor | contracts/smart_contracts/identity/contract.py:53-58 | the ledger starts with the given balances |
| AssetLedger.Ledger.AssetTransfer | contracts/smart_contracts/identity/contract.py:53-58 | succeeds iff the sender holds the amount; then it moves it; otherwise nothing changes |
| Voting.ScholarshipVoting.constructor | contracts/smart_contracts/counter/contract.py:19-29 | counters and ids 0, both box maps empty, invariant established |
| Voting.ScholarshipVoting.SetIdentityContract | contracts/smart_contracts/counter/contract.py:35-39 | creator only ("Only admin"); changes only its own field |
| Voting.ScholarshipVoting.SetClubMemberAsa | contracts/smart_contracts/counter/contract.py:41-45 | creator only ("Only admin"); changes only its own field |
| Voting.ScholarshipVoting.SubmitApplication | contracts/smart_contracts/counter/contract.py:51-58 | no gate; the count goes up by exactly 1 and the new count is returned; aborts at the 64-bit limit |
| Voting.ScholarshipVoting.MayVote | contracts/smart_contracts/counter/contract.py:71-74 | the club-member gate: open while the asset id is 0, otherwise a balance of at least 1; VoteForApplication's contract states its use |
| Voting.ScholarshipVoting.VoteForApplication | contracts/smart_contracts/counter/contract.py:64-91 | with the gate configured, a balance below 1 aborts; a second vote aborts with "Already voted"; otherwise only this tally (absent = 0), the voter set and the total change, each by one, and the new tally is returned; the invariant is kept |
| Voting.ScholarshipVoting.GetVotesForApplication | contracts/smart_contracts/counter/contract.py:97-100 | 0 for an unseen id, otherwise the tally |
| Voting.ScholarshipVoting.HasVoted | contracts/smart_contracts/counter/contract.py:110-114 | true iff the address has voted |
| Voting.ScholarshipVoting.TalliesWithinTotal | contracts/smart_contracts/counter/contract.py:77-91 | no tally exceeds the total, and the total is the number of voters |
| Pool.ScholarshipPool.constructor | contracts/smart_contracts/bank/contract.py:19-32 | all zero and empty, conservation established |
| Pool.ScholarshipPool.SetGovernanceToken | contracts/smart_contracts/bank/contract.py:38-41 | creator only; changes only its own field |
| Pool.ScholarshipPool.SetIdentityContract | contracts/smart_contracts/bank/contract.py:43-47 | creator only ("Only admin"); changes only its own field |
| Pool.ScholarshipPool.SetStudentIdAsa | contracts/smart_contracts/bank/contract.py:49-53 | creator only ("Only admin"); changes only its own field |
| Pool.ScholarshipPool.Contribute | contracts/smart_contracts/bank/contract.py:59-71 | receiver must be the app and amount > 0; the amount is added to the caller's donation (absent = 0) and to the pool; returns the donor's new total; conservation is kept |
| Pool.ScholarshipPool.ApplyForScholarship | contracts/smart_contracts/bank/contract.py:77-91 | succeeds iff the gate is 0 or the caller's balance is ≥ 1; then it returns 1 |
| Pool.ScholarshipPool.AwardScholarship | contracts/smart_contracts/bank/contract.py:95-115 | creator only, 0 < amount ≤ pool; the amount moves from the pool to the student's awards, so the pool never underflows; conservation is kept |
| Pool.ScholarshipPool.MarkBadgeRecipient | contracts/smart_contracts/bank/contract.py:117-120 | creator only; afterwards `has_badge` is true |
| Pool.ScholarshipPool.GetDonation | contracts/smart_contracts/bank/contract.py:126-129 | 0 for an absent donor, otherwise the recorded total |
| Pool.ScholarshipPool.GetAward | contracts/smart_contracts/bank/contract.py:131-134 | 0 for an absent student, otherwise the recorded total |
| Pool.ScholarshipPool.HasBadge | contracts/smart_contracts/bank/contract.py:140-142 | true iff the student was marked |
| Pool.ScholarshipPool.FundsBoundedByDonations | contracts/smart_contracts/bank/contract.py:59-115 | the pool never exceeds the donations, and no award exceeds what has been paid out |
| Identity.Holds | contracts/smart_contracts/identity/contract.py:121-139 | false for an unconfigured asset (0); otherwise balance ≥ 1 |
| Identity.IdentityTokens.constructor | contracts/smart_contracts/identity/contract.py:18-21 | both ids 0, and the admin is the creator |
| Identity.IdentityTokens.SetStudentIdAsa | contracts/smart_contracts/identity/contract.py:27-31 | admin only; changes only its own field |
| Identity.IdentityTokens.SetClubMemberAsa | contracts/smart_contracts/identity/contract.py:33-37 | admin only; changes only its own field |
| Identity.IdentityTokens.MoveOne | contracts/smart_contracts/identity/contract.py:49-58 | admin, then a configured asset, then a one-unit transfer; any failure leaves the ledger unchanged |
| Identity.IdentityTokens.IssueStudentId | contracts/smart_contracts/identity/contract.py:43-58 | admin and a configured asset; moves exactly one unit from the contract to the student, who then holds the token; the contract's fields are unchanged |
| Identity.IdentityTokens.IssueClubMember | contracts/smart_contracts/identity/contract.py:60-75 | the same rule for the club-member token |
| Identity.IdentityTokens.RevokeStudentId | contracts/smart_contracts/identity/contract.py:81-97 | admin and a configured asset; moves exactly one unit from the student to the admin; a student with one unit then loses the token |
| Identity.IdentityTokens.RevokeClubMember | contracts/smart_contracts/identity/contract.py:99-115 | the same rule for the club-member token |
| Identity.IdentityTokens.HasStudentId | contracts/smart_contracts/identity/contract.py:121-129 | the holding check for the student-ID asset |
| Identity.IdentityTokens.HasClubMember | contracts/smart_contracts/identity/contract.py:131-139 | the holding check for the club-member asset |
| Identity.IssueThenRevoke | contracts/smart_contracts/identity/contract.py:43-115 | issuing and then revoking puts the student back where they started; the unit ends with the admin, not the contract; total supply is unchanged |

## Left out

- `optInToAsset` (frontend/src/utils/assetUtils.ts:80-96) only submits a transaction to the network.
- formatAlgo (frontend/src/utils/scholarshipUtils.ts:31-34): it relies on floating-point division and `toFixed`.
- Rendering: JSX, tabs, modal visibility, snackbar delivery, the wallet hooks and `useEffect` scheduling. The effect is a method that the caller invokes.
- IPFS pinning, `ipfsHttpUrl`, `JSON.stringify`, `TextEncoder`, SHA-256 and `assetCreate` are opaque functions of their input. The pinning helpers' source file is not part of this model.
- MintNft.Mint: only the two pinning calls and `assetCreate` can fail, and their failures are the `Fail` outcomes of those functions. `ipfsHttpUrl`, `JSON.stringify`, `TextEncoder` and SHA-256 are total here. A rejected `crypto.subtle.digest` (frontend/src/components/MintNFT.tsx:29) or a throwing serialisation, which the source would report through its `catch`, is not modelled, so a run whose JSON pin succeeds always reaches the hash step.
- MintNft.MintForm.OnMint: the message of a thrown value that is not an `Error` is not modelled.
- The other frontend files (CreateASA.tsx, Transact.tsx, AdminIdentityTokens.tsx, Home.tsx, config.ts) and the scripts deploy_config.py and diag_token.py. They are wrappers, layout, environment reads or deployment code.
- String lengths count Unicode scalar values. JavaScript counts UTF-16 code units, so `slice(0, 8)` and `substring` differ for names outside the Basic Multilingual Plane.
- ScholarshipUtils.GetScholarshipLabel: keys inherited from `Object.prototype` (such as "constructor") are not modelled. The function is typed for the three literals only.
- The label constants use the emoji code points the source evidently intends; its file text shows them as mis-decoded bytes.
- Pool.ScholarshipPool.AwardScholarship: the inner ALGO payment to the student is not modelled. Its failures are not modelled either: an application balance below the amount or minimum-balance rules.
- Pool.ScholarshipPool.Contribute: the payment's sender and its confirmation in the group are not modelled. The donation is credited to the caller, as in the source.
- AssetLedger.Ledger.AssetTransfer: the ledger's opt-in, freeze and clawback-authority checks are not modelled. Fees and fee pooling (`fee=0`) are not modelled either.
- Concurrency: transactions and mints interleaving. Each ABI call is one atomic step.
- `has_badge` (contracts/smart_contracts/bank/contract.py:142) puts its lookup and its `return` on one line. The model uses the evidently intended two statements.
- `has_voted` (contracts/smart_contracts/counter/contract.py:24, 111) names both a box map and a view. The model calls the box map `voters` and the view `HasVoted`.
- ScholarshipUtils.SumAmounts, ScholarshipUtils.SumVotes, ScholarshipUtils.CalculateStats, ScholarshipUtils.StatsAreAdditive: amounts and vote counts are JavaScript `number`s in the source and whole non-negative numbers here. Fractional amounts, negative values, NaN and floating-point rounding in the `reduce` sums are not modelled, so additivity is proved for exact sums only.
- ScholarshipUtils.IsFundingGoalMet: its arguments are integers here. NaN, for which the source's `>=` is always false, is not modelled.
- Dashboard.ScholarshipDashboard.CheckAccess: whether the check throws is a free input. In the source `checkAccessControl` cannot throw, because `getAssetBalance` (frontend/src/utils/assetUtils.ts:36-51) catches every error, so the model admits an error path that the source never takes.
- Dashboard.ScholarshipDashboard.CheckAccess, Dashboard.ScholarshipDashboard.HandleApply, Dashboard.ScholarshipDashboard.HandleVote, Dashboard.ScholarshipDashboard.HandleDonate, MintNft.MintForm.OnMint: the wallet address is `Option<Address>`. The sources test `!activeAddress` (frontend/src/components/ScholarshipDashboard.tsx:44, 92-134; frontend/src/components/MintNFT.tsx:35), which also treats the empty string as no wallet. Here `Some("")` counts as a connected wallet, so the check, the handlers and the mint run for it instead of reporting the no-wallet message.
- Plain getters (`get_total_applications`, `get_total_votes`, `get_total_funds`, the asset-id getters) are functions without a contract.
