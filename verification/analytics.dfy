/** `getAnalytics` (src/services/dataService.ts): counts and sums recomputed
    over the current user's full collections on every call. */
module Analytics {
  import opened Wrappers
  import opened Entities
  import opened Seqs
  import opened Records
  import opened DataService
  import Feed

  /** How many of the newest activities the summary carries. */
  const RecentLimit := 10

  const AllLeadStatuses: set<LeadStatus> := {New, Qualified, Contacted, Nurturing, Converted, Lost}

  const AllDealStages: set<DealStage> :=
    {Prospecting, Qualification, Proposal, Negotiation, ClosedWon, ClosedLost}

  /** `leads.filter(l => l.status === st).length`: the number of positions
      holding a lead with that status. */
  function LeadsWithStatus(leads: seq<Lead>, st: LeadStatus): (n: nat)
    ensures n == |set i | 0 <= i < |leads| && leads[i].body.status == st|
    ensures n <= |leads|
  {
    CountIsIndexSetSize(leads, (l: Lead) => l.body.status == st);
    assert IndexSet(leads, (l: Lead) => l.body.status == st)
        == set i | 0 <= i < |leads| && leads[i].body.status == st;
    Count(leads, (l: Lead) => l.body.status == st)
  }

  /** `deals.filter(d => d.stage === st).length`. */
  function DealsInStage(deals: seq<Deal>, st: DealStage): (n: nat)
    ensures n == |set i | 0 <= i < |deals| && deals[i].body.stage == st|
    ensures n <= |deals|
  {
    CountIsIndexSetSize(deals, (d: Deal) => d.body.stage == st);
    assert IndexSet(deals, (d: Deal) => d.body.stage == st)
        == set i | 0 <= i < |deals| && deals[i].body.stage == st;
    Count(deals, (d: Deal) => d.body.stage == st)
  }

  /** The deals not closed either way. */
  predicate IsOpen(d: Deal)
  {
    d.body.stage != ClosedWon && d.body.stage != ClosedLost
  }

  function OpenDeals(deals: seq<Deal>): nat
  {
    Count(deals, (d: Deal) => IsOpen(d))
  }

  lemma LeadsWithStatusSnoc(s: seq<Lead>, x: Lead, st: LeadStatus)
    ensures LeadsWithStatus(s + [x], st) == LeadsWithStatus(s, st) + (if x.body.status == st then 1 else 0)
  {
    FilterSnoc(s, x, (l: Lead) => l.body.status == st);
  }

  lemma DealsInStageSnoc(s: seq<Deal>, x: Deal, st: DealStage)
    ensures DealsInStage(s + [x], st) == DealsInStage(s, st) + (if x.body.stage == st then 1 else 0)
  {
    FilterSnoc(s, x, (d: Deal) => d.body.stage == st);
  }

  lemma OpenDealsSnoc(s: seq<Deal>, x: Deal)
    ensures OpenDeals(s + [x]) == OpenDeals(s) + (if IsOpen(x) then 1 else 0)
  {
    FilterSnoc(s, x, (d: Deal) => IsOpen(d));
  }

  /** Every lead has exactly one of the six statuses, so the per-status
      counts add up to the number of leads. */
  lemma {:induction false} LeadStatusesPartition(leads: seq<Lead>)
    ensures LeadsWithStatus(leads, New) + LeadsWithStatus(leads, Qualified)
          + LeadsWithStatus(leads, Contacted) + LeadsWithStatus(leads, Nurturing)
          + LeadsWithStatus(leads, Converted) + LeadsWithStatus(leads, Lost) == |leads|
    decreases |leads|
  {
    if |leads| > 0 {
      var s := leads[..|leads| - 1];
      var x := leads[|leads| - 1];
      assert leads == s + [x];
      LeadStatusesPartition(s);
      forall st | st in AllLeadStatuses
        ensures LeadsWithStatus(leads, st) == LeadsWithStatus(s, st) + (if x.body.status == st then 1 else 0)
      {
        LeadsWithStatusSnoc(s, x, st);
      }
    }
  }

  /** Every deal is in exactly one of the six stages, so the per-stage
      counts add up to the number of deals. */
  lemma {:induction false} DealStagesPartition(deals: seq<Deal>)
    ensures DealsInStage(deals, Prospecting) + DealsInStage(deals, Qualification)
          + DealsInStage(deals, Proposal) + DealsInStage(deals, Negotiation)
          + DealsInStage(deals, ClosedWon) + DealsInStage(deals, ClosedLost) == |deals|
    decreases |deals|
  {
    if |deals| > 0 {
      var s := deals[..|deals| - 1];
      var x := deals[|deals| - 1];
      assert deals == s + [x];
      DealStagesPartition(s);
      DealsInStageSnoc(s, x, Prospecting);
      DealsInStageSnoc(s, x, Qualification);
      DealsInStageSnoc(s, x, Proposal);
      DealsInStageSnoc(s, x, Negotiation);
      DealsInStageSnoc(s, x, ClosedWon);
      DealsInStageSnoc(s, x, ClosedLost);
    }
  }

  /** The open deals are those in neither closed stage. */
  lemma {:induction false} OpenDealsAreUnclosed(deals: seq<Deal>)
    ensures OpenDeals(deals) == |deals| - DealsInStage(deals, ClosedWon) - DealsInStage(deals, ClosedLost)
    decreases |deals|
  {
    if |deals| > 0 {
      var s := deals[..|deals| - 1];
      var x := deals[|deals| - 1];
      assert deals == s + [x];
      OpenDealsAreUnclosed(s);
      OpenDealsSnoc(s, x);
      DealsInStageSnoc(s, x, ClosedWon);
      DealsInStageSnoc(s, x, ClosedLost);
    }
  }

  /** `deal.value || 0` summed over `deals`. */
  function SumValues(deals: seq<Deal>): int
    decreases |deals|
  {
    if |deals| == 0 then 0
    else SumValues(deals[..|deals| - 1]) + deals[|deals| - 1].body.value.GetOr(0)
  }

  /** The revenue as the service computes it: filter the won deals, then sum. */
  function Revenue(deals: seq<Deal>): int
  {
    SumValues(Filter(deals, (d: Deal) => d.body.stage == ClosedWon))
  }

  /** The revenue as a single pass: each won deal contributes its value, a
      missing value counting as 0; every other deal contributes nothing. */
  function WonValue(deals: seq<Deal>): int
    decreases |deals|
  {
    if |deals| == 0 then 0
    else
      var d := deals[|deals| - 1];
      WonValue(deals[..|deals| - 1]) + (if d.body.stage == ClosedWon then d.body.value.GetOr(0) else 0)
  }

  lemma SumValuesAppend(s: seq<Deal>, t: seq<Deal>)
    ensures SumValues(s + t) == SumValues(s) + SumValues(t)
    decreases |t|
  {
    if |t| > 0 {
      var t' := t[..|t| - 1];
      assert (s + t)[..|s + t| - 1] == s + t';
      SumValuesAppend(s, t');
    } else {
      assert s + t == s;
    }
  }

  /** Both ways of computing the revenue agree on every collection of deals. */
  lemma {:induction false} RevenueIsWonValue(deals: seq<Deal>)
    ensures Revenue(deals) == WonValue(deals)
    decreases |deals|
  {
    if |deals| > 0 {
      var s := deals[..|deals| - 1];
      var x := deals[|deals| - 1];
      assert deals == s + [x];
      RevenueIsWonValue(s);
      FilterSnoc(s, x, (d: Deal) => d.body.stage == ClosedWon);
      var won := Filter(s, (d: Deal) => d.body.stage == ClosedWon);
      SumValuesAppend(won, if x.body.stage == ClosedWon then [x] else []);
      assert SumValues([x]) == x.body.value.GetOr(0) by {
        assert [x][..0] == [];
      }
    }
  }

  /** `Math.round(converted / total * 100)`, and 0 when there are no leads:
      the percentage rounded to the nearest integer, halves rounded up. */
  function ConversionRate(converted: nat, total: nat): (r: int)
    ensures total == 0 ==> r == 0
    ensures total > 0 ==> 2 * total * r - total <= 200 * converted < 2 * total * r + total
    ensures converted <= total ==> 0 <= r <= 100
    ensures 0 < total && converted == 0 ==> r == 0
    ensures 0 < total && converted == total ==> r == 100
  {
    if total == 0 then 0
    else
      var r := (200 * converted + total) / (2 * total);
      RoundedPercent(converted, total, r);
      r
  }

  lemma MulLe(n: int, x: int, y: int)
    requires n > 0 && x <= y
    ensures n * x <= n * y
  {
  }

  /** The bounds of the rounded percentage, argued from the division's remainder. */
  lemma RoundedPercent(converted: nat, total: nat, r: int)
    requires total > 0 && r == (200 * converted + total) / (2 * total)
    ensures 2 * total * r - total <= 200 * converted < 2 * total * r + total
    ensures converted <= total ==> 0 <= r <= 100
    ensures converted == 0 ==> r == 0
    ensures converted == total ==> r == 100
  {
    var n := 2 * total;
    var x := 200 * converted + total;
    var m := x % n;
    assert x == n * r + m && 0 <= m < n;
    if r < 0 {
      MulLe(n, r, -1);
      assert false;
    }
    if converted <= total && r > 100 {
      MulLe(n, 101, r);
      assert false;
    }
    if converted == 0 && r > 0 {
      MulLe(n, 1, r);
      assert false;
    }
    if converted == total && r < 100 {
      MulLe(n, r, 99);
      assert false;
    }
  }

  /** `leadsByStatus`: one count per status, adding up to the number of leads. */
  function StatusCounts(leads: seq<Lead>): (m: map<LeadStatus, nat>)
    ensures m.Keys == AllLeadStatuses
    ensures forall st :: st in m ==> m[st] == LeadsWithStatus(leads, st)
    ensures m[New] + m[Qualified] + m[Contacted] + m[Nurturing] + m[Converted] + m[Lost] == |leads|
  {
    LeadStatusesPartition(leads);
    map st | st in AllLeadStatuses :: LeadsWithStatus(leads, st)
  }

  /** `dealsByStage`: one count per stage, adding up to the number of deals. */
  function StageCounts(deals: seq<Deal>): (m: map<DealStage, nat>)
    ensures m.Keys == AllDealStages
    ensures forall st :: st in m ==> m[st] == DealsInStage(deals, st)
    ensures m[Prospecting] + m[Qualification] + m[Proposal] + m[Negotiation] + m[ClosedWon] + m[ClosedLost] == |deals|
    ensures OpenDeals(deals) == |deals| - m[ClosedWon] - m[ClosedLost]
  {
    DealStagesPartition(deals);
    OpenDealsAreUnclosed(deals);
    map st | st in AllDealStages :: DealsInStage(deals, st)
  }

  /** `activities.slice(0, 10)` of the newest-first activity list. */
  function Recent(activities: seq<Activity>): (r: seq<Activity>)
    ensures |r| <= RecentLimit
    ensures r <= activities
    ensures |r| == if |activities| < RecentLimit then |activities| else RecentLimit
  {
    activities[..Feed.SliceEnd(|activities|, RecentLimit)]
  }

  datatype Summary = Summary(
    totalLeads: nat, totalContacts: nat, totalDeals: nat, openDeals: nat,
    totalRevenue: int, conversionRate: int, recentActivities: seq<Activity>,
    leadsByStatus: map<LeadStatus, nat>, dealsByStage: map<DealStage, nat>)

  /** `getAnalytics()`. The properties and courses it also reads do not
      appear in its result. */
  function GetAnalytics(s: Store): (a: Summary)
    ensures a.totalLeads == |GetLeads(s)| && a.totalContacts == |GetContacts(s)| && a.totalDeals == |GetDeals(s)|
    ensures a.leadsByStatus.Keys == AllLeadStatuses && a.dealsByStage.Keys == AllDealStages
    ensures forall st :: st in a.leadsByStatus ==> a.leadsByStatus[st] == LeadsWithStatus(GetLeads(s), st)
    ensures forall st :: st in a.dealsByStage ==> a.dealsByStage[st] == DealsInStage(GetDeals(s), st)
    ensures a.leadsByStatus[New] + a.leadsByStatus[Qualified] + a.leadsByStatus[Contacted]
          + a.leadsByStatus[Nurturing] + a.leadsByStatus[Converted] + a.leadsByStatus[Lost] == a.totalLeads
    ensures a.dealsByStage[Prospecting] + a.dealsByStage[Qualification] + a.dealsByStage[Proposal]
          + a.dealsByStage[Negotiation] + a.dealsByStage[ClosedWon] + a.dealsByStage[ClosedLost] == a.totalDeals
    ensures a.openDeals == a.totalDeals - a.dealsByStage[ClosedWon] - a.dealsByStage[ClosedLost]
    ensures a.totalRevenue == WonValue(GetDeals(s))
    ensures a.totalLeads == 0 ==> a.conversionRate == 0
    ensures 0 <= a.conversionRate <= 100
    ensures a.totalLeads > 0 ==>
              2 * a.totalLeads * a.conversionRate - a.totalLeads <= 200 * a.leadsByStatus[Converted]
              < 2 * a.totalLeads * a.conversionRate + a.totalLeads
    ensures |a.recentActivities| <= RecentLimit
    ensures a.recentActivities <= GetActivities(s, Feed.DefaultLimit)
    ensures |a.recentActivities| == if |GetActivities(s, Feed.DefaultLimit)| < RecentLimit
                                    then |GetActivities(s, Feed.DefaultLimit)| else RecentLimit
    ensures forall x :: x in a.recentActivities ==> x in s.activities && x.userId == CurrentUserId
  {
    var leads := GetLeads(s);
    var deals := GetDeals(s);
    var activities := GetActivities(s, Feed.DefaultLimit);
    RevenueIsWonValue(deals);
    var byStatus := StatusCounts(leads);
    var recent := Recent(activities);
    assert forall x :: x in recent ==> x in activities;
    Summary(
      |leads|, |GetContacts(s)|, |deals|,
      OpenDeals(deals),
      Revenue(deals),
      ConversionRate(byStatus[Converted], |leads|),
      recent,
      byStatus,
      StageCounts(deals))
  }
}
