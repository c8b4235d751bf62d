/** Pure list and string helpers of the scholarship frontend
    (frontend/src/utils/scholarshipUtils.ts). */
module ScholarshipUtils {

  datatype ScholarshipType = Emergency | Hackathon | Merit

  /** The type's string literal, as the TypeScript union spells it. */
  function TypeName(t: ScholarshipType): string {
    match t
    case Emergency => "emergency"
    case Hackathon => "hackathon"
    case Merit => "merit"
  }

  datatype DonationRecord = DonationRecord(donor: string, amount: nat, timestamp: nat, txnId: string)

  datatype ScholarshipApplication = ScholarshipApplication(
    studentId: string, name: string, kind: ScholarshipType, ipfsHash: string,
    votes: nat, awarded: bool, awardAmount: nat)

  datatype ScholarshipStats = ScholarshipStats(
    totalFundsRaised: nat, totalApplications: nat, totalVotes: nat,
    awardsDistributed: nat, badgesIssued: nat)

  // ---------------------------------------------------------------------------
  // ellipseAddress

  function Clamp(i: int, len: nat): nat {
    if i < 0 then 0 else if i > len then len else i
  }

  /** JavaScript's `String.prototype.substring`: both ends are clamped to the
      string and swapped when the start lies after the end. */
  function Substring(s: string, start: int, end: int): string {
    var a, b := Clamp(start, |s|), Clamp(end, |s|);
    if a <= b then s[a..b] else s[b..a]
  }

  /** `ellipseAddress(address, chars = 4)`. */
  function EllipseAddress(address: string, chars: int := 4): (r: string)
    ensures 0 <= chars <= |address| ==>
      r == address[..chars] + "..." + address[|address| - chars..] && |r| == 2 * chars + 3
    ensures chars > |address| ==> r == address + "..." + address
    ensures chars < 0 ==> r == "..."
  {
    Substring(address, 0, chars) + "..." + Substring(address, |address| - chars, |address|)
  }

  // ---------------------------------------------------------------------------
  // getScholarshipLabel

  const EmergencyLabel: string := "\U{1F6A8} Emergency Aid"
  const HackathonLabel: string := "\U{1F4BB} Hackathon Grant"
  const MeritLabel: string := "\U{1F393} Merit Scholarship"

  /** `getScholarshipLabel`: a lookup in the three-entry label table, falling
      back to the given string. */
  function GetScholarshipLabel(t: string): (text: string)
    ensures t == "emergency" ==> text == EmergencyLabel
    ensures t == "hackathon" ==> text == HackathonLabel
    ensures t == "merit" ==> text == MeritLabel
    ensures t !in {"emergency", "hackathon", "merit"} ==> text == t
  {
    if t == "emergency" then EmergencyLabel
    else if t == "hackathon" then HackathonLabel
    else if t == "merit" then MeritLabel
    else t
  }

  /** Different scholarship types get different labels, none of them the bare type name. */
  lemma LabelsDistinguishTypes(s: ScholarshipType, t: ScholarshipType)
    ensures GetScholarshipLabel(TypeName(s)) != TypeName(s)
    ensures s != t ==> GetScholarshipLabel(TypeName(s)) != GetScholarshipLabel(TypeName(t))
  {
  }

  // ---------------------------------------------------------------------------
  // calculateStats

  /** `donations.reduce((sum, d) => sum + d.amount, 0)`, folding from the left. */
  function SumAmounts(ds: seq<DonationRecord>): nat {
    if ds == [] then 0 else SumAmounts(ds[..|ds| - 1]) + ds[|ds| - 1].amount
  }

  /** `applications.reduce((sum, a) => sum + a.votes, 0)`. */
  function SumVotes(apps: seq<ScholarshipApplication>): nat {
    if apps == [] then 0 else SumVotes(apps[..|apps| - 1]) + apps[|apps| - 1].votes
  }

  /** `applications.filter(a => a.awarded)`. */
  function Awarded(apps: seq<ScholarshipApplication>): (r: seq<ScholarshipApplication>)
    ensures |r| <= |apps|
    ensures forall a :: a in r <==> a in apps && a.awarded
    ensures forall a :: multiset(r)[a] == if a.awarded then multiset(apps)[a] else 0
    ensures IsSubsequence(r, apps)
  {
    if apps == [] then []
    else
      var rest := Awarded(apps[1..]);
      assert apps == [apps[0]] + apps[1..];
      if apps[0].awarded then
        assert ([apps[0]] + rest)[1..] == rest;
        [apps[0]] + rest
      else
        rest
  }

  function CalculateStats(donations: seq<DonationRecord>, applications: seq<ScholarshipApplication>)
    : (stats: ScholarshipStats)
    ensures stats.totalFundsRaised == SumAmounts(donations)
    ensures stats.totalApplications == |applications|
    ensures stats.totalVotes == SumVotes(applications)
    ensures stats.awardsDistributed == stats.badgesIssued == |Awarded(applications)|
    ensures stats.awardsDistributed <= stats.totalApplications
  {
    var awarded := Awarded(applications);
    ScholarshipStats(SumAmounts(donations), |applications|, SumVotes(applications), |awarded|, |awarded|)
  }

  lemma {:induction false} SumAmountsAppend(a: seq<DonationRecord>, b: seq<DonationRecord>)
    ensures SumAmounts(a + b) == SumAmounts(a) + SumAmounts(b)
    decreases |b|
  {
    if b == [] {
      assert a + b == a;
    } else {
      assert (a + b)[..|a + b| - 1] == a + b[..|b| - 1];
      SumAmountsAppend(a, b[..|b| - 1]);
    }
  }

  lemma {:induction false} SumVotesAppend(a: seq<ScholarshipApplication>, b: seq<ScholarshipApplication>)
    ensures SumVotes(a + b) == SumVotes(a) + SumVotes(b)
    decreases |b|
  {
    if b == [] {
      assert a + b == a;
    } else {
      assert (a + b)[..|a + b| - 1] == a + b[..|b| - 1];
      SumVotesAppend(a, b[..|b| - 1]);
    }
  }

  lemma {:induction false} AwardedAppend(a: seq<ScholarshipApplication>, b: seq<ScholarshipApplication>)
    ensures Awarded(a + b) == Awarded(a) + Awarded(b)
    decreases |a|
  {
    if a == [] {
      assert a + b == b;
    } else {
      assert (a + b)[1..] == a[1..] + b;
      AwardedAppend(a[1..], b);
    }
  }

  /** Statistics are additive: the statistics of two batches of records taken
      together are the component-wise sums of each batch's statistics. */
  lemma StatsAreAdditive(d1: seq<DonationRecord>, d2: seq<DonationRecord>,
                         a1: seq<ScholarshipApplication>, a2: seq<ScholarshipApplication>)
    ensures var s, s1, s2 := CalculateStats(d1 + d2, a1 + a2), CalculateStats(d1, a1), CalculateStats(d2, a2);
      && s.totalFundsRaised == s1.totalFundsRaised + s2.totalFundsRaised
      && s.totalApplications == s1.totalApplications + s2.totalApplications
      && s.totalVotes == s1.totalVotes + s2.totalVotes
      && s.awardsDistributed == s1.awardsDistributed + s2.awardsDistributed
  {
    SumAmountsAppend(d1, d2);
    SumVotesAppend(a1, a2);
    AwardedAppend(a1, a2);
  }

  // ---------------------------------------------------------------------------
  // sortByVotes

  ghost predicate SortedByVotes(s: seq<ScholarshipApplication>) {
    forall i, j :: 0 <= i < j < |s| ==> s[i].votes >= s[j].votes
  }

  /** The applications with exactly `v` votes, in their order. */
  function WithVotes(s: seq<ScholarshipApplication>, v: nat): seq<ScholarshipApplication> {
    if s == [] then [] else (if s[0].votes == v then [s[0]] else []) + WithVotes(s[1..], v)
  }

  /** Inserts `x` after every element with at least as many votes, which keeps
      equal-vote elements in arrival order. */
  function InsertByVotes(x: ScholarshipApplication, s: seq<ScholarshipApplication>)
    : (r: seq<ScholarshipApplication>)
    ensures |r| == |s| + 1
    ensures r[0] == if s != [] && s[0].votes >= x.votes then s[0] else x
  {
    if s == [] then [x]
    else if s[0].votes >= x.votes then [s[0]] + InsertByVotes(x, s[1..])
    else [x] + s
  }

  /** A sorted list stays sorted under a new head with at least as many votes
      as the old head. */
  lemma SortedCons(h: ScholarshipApplication, rest: seq<ScholarshipApplication>)
    requires SortedByVotes(rest)
    requires rest != [] ==> h.votes >= rest[0].votes
    ensures SortedByVotes([h] + rest)
  {
    var r := [h] + rest;
    forall i, j | 0 <= i < j < |r| ensures r[i].votes >= r[j].votes {
      if i == 0 {
        assert r[j] == rest[j - 1];
        assert rest[0].votes >= rest[j - 1].votes || j - 1 == 0;
      } else {
        assert r[i] == rest[i - 1] && r[j] == rest[j - 1];
      }
    }
  }

  lemma SortedTail(s: seq<ScholarshipApplication>)
    requires s != [] && SortedByVotes(s)
    ensures SortedByVotes(s[1..])
  {
    forall i, j | 0 <= i < j < |s[1..]| ensures s[1..][i].votes >= s[1..][j].votes {
      assert s[1..][i] == s[i + 1] && s[1..][j] == s[j + 1];
    }
  }

  /** Inserting into a sorted list keeps it sorted. */
  lemma {:induction false} InsertByVotesSorted(x: ScholarshipApplication, s: seq<ScholarshipApplication>)
    requires SortedByVotes(s)
    ensures SortedByVotes(InsertByVotes(x, s))
    decreases |s|
  {
    if s == [] {
    } else if s[0].votes >= x.votes {
      SortedTail(s);
      InsertByVotesSorted(x, s[1..]);
      if |s| > 1 {
        assert s[0].votes >= s[1].votes;
      }
      SortedCons(s[0], InsertByVotes(x, s[1..]));
    } else {
      SortedCons(x, s);
    }
  }

  /** Inserting adds exactly the new element. */
  lemma {:induction false} InsertByVotesPermutes(x: ScholarshipApplication, s: seq<ScholarshipApplication>)
    ensures multiset(InsertByVotes(x, s)) == multiset(s) + multiset{x}
    decreases |s|
  {
    if s != [] && s[0].votes >= x.votes {
      InsertByVotesPermutes(x, s[1..]);
      assert s == [s[0]] + s[1..];
    }
  }

  /** `[...applications].sort((a, b) => b.votes - a.votes)`: a stable sort by
      non-increasing votes on a copy (sequences are values, so the input is
      never changed). */
  function SortByVotes(apps: seq<ScholarshipApplication>): (r: seq<ScholarshipApplication>)
    ensures SortedByVotes(r)
    ensures multiset(r) == multiset(apps)
    ensures |r| == |apps|
  {
    if apps == [] then []
    else
      var init := apps[..|apps| - 1];
      assert apps == init + [apps[|apps| - 1]];
      var sorted := SortByVotes(init);
      InsertByVotesSorted(apps[|apps| - 1], sorted);
      InsertByVotesPermutes(apps[|apps| - 1], sorted);
      InsertByVotes(apps[|apps| - 1], sorted)
  }

  lemma WithVotesCons(h: ScholarshipApplication, t: seq<ScholarshipApplication>, v: nat)
    ensures WithVotes([h] + t, v) == (if h.votes == v then [h] else []) + WithVotes(t, v)
  {
    assert ([h] + t)[1..] == t;
  }

  lemma {:induction false} WithVotesAppend(a: seq<ScholarshipApplication>, b: seq<ScholarshipApplication>, v: nat)
    ensures WithVotes(a + b, v) == WithVotes(a, v) + WithVotes(b, v)
    decreases |a|
  {
    if a == [] {
      assert a + b == b;
    } else {
      assert a + b == [a[0]] + (a[1..] + b);
      assert a == [a[0]] + a[1..];
      WithVotesCons(a[0], a[1..] + b, v);
      WithVotesCons(a[0], a[1..], v);
      WithVotesAppend(a[1..], b, v);
    }
  }

  lemma {:induction false} WithVotesNone(s: seq<ScholarshipApplication>, v: nat)
    requires forall i :: 0 <= i < |s| ==> s[i].votes < v
    ensures WithVotes(s, v) == []
    decreases |s|
  {
    if s != [] {
      WithVotesNone(s[1..], v);
    }
  }

  /** Below a sorted list's head nothing has more votes than the head. */
  lemma BelowHead(s: seq<ScholarshipApplication>, v: nat)
    requires s != [] && SortedByVotes(s) && s[0].votes < v
    ensures WithVotes(s, v) == []
  {
    forall i | 0 <= i < |s| ensures s[i].votes < v {
      assert s[0].votes >= s[i].votes;
    }
    WithVotesNone(s, v);
  }

  lemma {:induction false} InsertByVotesStable(x: ScholarshipApplication, s: seq<ScholarshipApplication>, v: nat)
    requires SortedByVotes(s)
    ensures WithVotes(InsertByVotes(x, s), v) == WithVotes(s, v) + (if x.votes == v then [x] else [])
    decreases |s|
  {
    if s == [] {
      WithVotesCons(x, [], v);
      assert InsertByVotes(x, s) == [x] + [];
    } else if s[0].votes >= x.votes {
      SortedTail(s);
      InsertByVotesStable(x, s[1..], v);
      StableBehindHead(x, s, v);
    } else {
      StableInFront(x, s, v);
    }
  }

  /** The step of `InsertByVotesStable` where the head stays in front. */
  lemma StableBehindHead(x: ScholarshipApplication, s: seq<ScholarshipApplication>, v: nat)
    requires s != [] && s[0].votes >= x.votes
    requires WithVotes(InsertByVotes(x, s[1..]), v) == WithVotes(s[1..], v) + (if x.votes == v then [x] else [])
    ensures WithVotes(InsertByVotes(x, s), v) == WithVotes(s, v) + (if x.votes == v then [x] else [])
  {
    var rest := InsertByVotes(x, s[1..]);
    assert InsertByVotes(x, s) == [s[0]] + rest;
    WithVotesCons(s[0], rest, v);
    WithVotesCons(s[0], s[1..], v);
    assert s == [s[0]] + s[1..];
  }

  /** The step of `InsertByVotesStable` where the new element goes in front. */
  lemma StableInFront(x: ScholarshipApplication, s: seq<ScholarshipApplication>, v: nat)
    requires s != [] && SortedByVotes(s) && s[0].votes < x.votes
    ensures WithVotes(InsertByVotes(x, s), v) == WithVotes(s, v) + (if x.votes == v then [x] else [])
  {
    assert InsertByVotes(x, s) == [x] + s;
    WithVotesCons(x, s, v);
    if x.votes == v {
      BelowHead(s, v);
    }
  }

  /** The sort is stable: applications with the same vote count keep their
      original relative order. */
  lemma {:induction false} SortByVotesStable(apps: seq<ScholarshipApplication>, v: nat)
    ensures WithVotes(SortByVotes(apps), v) == WithVotes(apps, v)
    decreases |apps|
  {
    if apps != [] {
      var init, last := apps[..|apps| - 1], apps[|apps| - 1];
      var tail: seq<ScholarshipApplication> := if last.votes == v then [last] else [];
      var sorted := SortByVotes(init);
      calc {
        WithVotes(SortByVotes(apps), v);
        WithVotes(InsertByVotes(last, sorted), v);
        { InsertByVotesStable(last, sorted, v); }
        WithVotes(sorted, v) + tail;
        { SortByVotesStable(init, v); }
        WithVotes(init, v) + tail;
        { WithVotesAppend(init, [last], v);
          assert [last][1..] == [];
          assert WithVotes([last], v) == tail + WithVotes([], v); }
        WithVotes(init + [last], v);
        { assert apps == init + [last]; }
        WithVotes(apps, v);
      }
    }
  }

  // ---------------------------------------------------------------------------
  // filterByType

  /** `r` can be obtained from `s` by deleting elements. */
  ghost predicate IsSubsequence<T>(r: seq<T>, s: seq<T>)
    decreases |s|
  {
    r == [] || (s != [] && ((r[0] == s[0] && IsSubsequence(r[1..], s[1..])) || IsSubsequence(r, s[1..])))
  }

  /** `applications.filter(a => a.type === type)`. */
  function FilterByType(apps: seq<ScholarshipApplication>, t: ScholarshipType)
    : (r: seq<ScholarshipApplication>)
    ensures forall a :: a in r <==> a in apps && a.kind == t
    ensures forall a :: multiset(r)[a] == if a.kind == t then multiset(apps)[a] else 0
    ensures IsSubsequence(r, apps)
  {
    if apps == [] then []
    else
      var rest := FilterByType(apps[1..], t);
      assert apps == [apps[0]] + apps[1..];
      if apps[0].kind == t then
        assert ([apps[0]] + rest)[1..] == rest;
        [apps[0]] + rest
      else
        rest
  }

  /** Filtering twice by the same type is filtering once. */
  lemma {:induction false} FilterByTypeIdempotent(apps: seq<ScholarshipApplication>, t: ScholarshipType)
    ensures FilterByType(FilterByType(apps, t), t) == FilterByType(apps, t)
    decreases |apps|
  {
    if apps != [] {
      FilterByTypeIdempotent(apps[1..], t);
      if apps[0].kind == t {
        var r := FilterByType(apps, t);
        assert r[0] == apps[0] && r[1..] == FilterByType(apps[1..], t);
      }
    }
  }

  /** One step of the filter, as an equation. */
  lemma FilterByTypeCons(apps: seq<ScholarshipApplication>, t: ScholarshipType)
    requires apps != []
    ensures FilterByType(apps, t) == (if apps[0].kind == t then [apps[0]] else []) + FilterByType(apps[1..], t)
  {
  }

  /** The three types partition the applications: every application lands in
      exactly one of the three filtered lists. */
  lemma {:induction false} FilterByTypePartitions(apps: seq<ScholarshipApplication>)
    ensures multiset(FilterByType(apps, Emergency)) + multiset(FilterByType(apps, Hackathon))
            + multiset(FilterByType(apps, Merit)) == multiset(apps)
    decreases |apps|
  {
    if apps != [] {
      var a, rest := apps[0], apps[1..];
      var e, h, m := FilterByType(rest, Emergency), FilterByType(rest, Hackathon), FilterByType(rest, Merit);
      FilterByTypePartitions(rest);
      assert multiset(apps) == multiset{a} + multiset(rest) by { assert apps == [a] + rest; }
      FilterByTypeCons(apps, Emergency);
      FilterByTypeCons(apps, Hackathon);
      FilterByTypeCons(apps, Merit);
      PartitionStep(a, multiset(e), multiset(h), multiset(m),
        multiset(FilterByType(apps, Emergency)), multiset(FilterByType(apps, Hackathon)),
        multiset(FilterByType(apps, Merit)));
    }
  }

  /** Adding one application to the input adds it to exactly the list of its type. */
  lemma PartitionStep(a: ScholarshipApplication, e: multiset<ScholarshipApplication>,
                      h: multiset<ScholarshipApplication>, m: multiset<ScholarshipApplication>,
                      e': multiset<ScholarshipApplication>, h': multiset<ScholarshipApplication>,
                      m': multiset<ScholarshipApplication>)
    requires e' == (if a.kind == Emergency then multiset{a} else multiset{}) + e
    requires h' == (if a.kind == Hackathon then multiset{a} else multiset{}) + h
    requires m' == (if a.kind == Merit then multiset{a} else multiset{}) + m
    ensures e' + h' + m' == multiset{a} + (e + h + m)
  {
  }

  /** Consequently the three filtered lists together are as long as the input. */
  lemma FilterByTypeLengths(apps: seq<ScholarshipApplication>)
    ensures |FilterByType(apps, Emergency)| + |FilterByType(apps, Hackathon)|
            + |FilterByType(apps, Merit)| == |apps|
  {
    FilterByTypePartitions(apps);
    assert |multiset(apps)| == |apps|;
  }

  // ---------------------------------------------------------------------------
  // isFundingGoalMet

  function IsFundingGoalMet(totalFunds: int, goal: int): bool {
    totalFunds >= goal
  }

  /** Raising more funds never un-meets a goal, and a goal is met exactly from
      the point where the funds reach it. */
  lemma FundingGoalMonotone(funds: int, more: int, goal: int)
    requires funds <= more
    ensures IsFundingGoalMet(funds, goal) ==> IsFundingGoalMet(more, goal)
    ensures IsFundingGoalMet(goal, goal) && !IsFundingGoalMet(goal - 1, goal)
  {
  }
}
