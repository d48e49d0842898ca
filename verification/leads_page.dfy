/** The pure parts of the leads page (src/pages/Leads.tsx): the search box's
    filter and the status cards' counts over the page's own lead rows. */
module LeadsPage {
  import opened Entities
  import opened Seqs
  import opened Text

  /** The fields of a listed lead the page's logic reads. */
  datatype LeadRow = LeadRow(name: string, email: string, company: string, status: LeadStatus)

  /** The rows the page lists (`mockLeads`). */
  const MockLeads: seq<LeadRow> := [
    LeadRow("Sarah Johnson", "sarah.johnson@techcorp.com", "TechCorp Solutions", New),
    LeadRow("Michael Chen", "michael.chen@edustart.com", "EduStart Inc", Qualified),
    LeadRow("Emily Rodriguez", "emily.r@realestate.com", "Prime Properties", Contacted),
    LeadRow("David Kim", "david.kim@learningtech.com", "Learning Tech", Nurturing)
  ]

  /** The search rule: the lower-cased term occurs in the lower-cased name,
      email or company. */
  predicate MatchesSearch(lead: LeadRow, term: string)
  {
    var t := Lower(term);
    Occurs(t, Lower(lead.name)) || Occurs(t, Lower(lead.email)) || Occurs(t, Lower(lead.company))
  }

  /** `filteredLeads`: the rows matching the search term, in listed order,
      one per matching position. */
  function FilteredLeads(leads: seq<LeadRow>, term: string): (r: seq<LeadRow>)
    ensures forall l :: l in r <==> l in leads && MatchesSearch(l, term)
    ensures IsSubsequence(r, leads)
    ensures |r| <= |leads|
    ensures |r| == |set i | 0 <= i < |leads| && MatchesSearch(leads[i], term)|
  {
    FilterMembership(leads, (l: LeadRow) => MatchesSearch(l, term));
    FilterIsSubsequence(leads, (l: LeadRow) => MatchesSearch(l, term));
    CountIsIndexSetSize(leads, (l: LeadRow) => MatchesSearch(l, term));
    assert IndexSet(leads, (l: LeadRow) => MatchesSearch(l, term))
        == set i | 0 <= i < |leads| && MatchesSearch(leads[i], term);
    Filter(leads, (l: LeadRow) => MatchesSearch(l, term))
  }

  /** The search rule evaluated with the substring scan. */
  method RowMatches(lead: LeadRow, term: string) returns (b: bool)
    ensures b == MatchesSearch(lead, term)
  {
    var t := Lower(term);
    b := Includes(Lower(lead.name), t);
    if !b {
      b := Includes(Lower(lead.email), t);
    }
    if !b {
      b := Includes(Lower(lead.company), t);
    }
  }

  /** The filter as a loop over the rows, keeping each one that matches. */
  method SearchLeads(leads: seq<LeadRow>, term: string) returns (r: seq<LeadRow>)
    ensures r == FilteredLeads(leads, term)
  {
    r := [];
    var i := 0;
    while i < |leads|
      invariant 0 <= i <= |leads|
      invariant r == Filter(leads[..i], (l: LeadRow) => MatchesSearch(l, term))
    {
      var b := RowMatches(leads[i], term);
      FilterSnoc(leads[..i], leads[i], (l: LeadRow) => MatchesSearch(l, term));
      assert leads[..i + 1] == leads[..i] + [leads[i]];
      if b {
        r := r + [leads[i]];
      }
      i := i + 1;
    }
    assert leads[..i] == leads;
  }

  /** An empty search box lists every lead. */
  lemma EmptySearchKeepsAll(leads: seq<LeadRow>)
    ensures FilteredLeads(leads, "") == leads
  {
    forall i | 0 <= i < |leads|
      ensures MatchesSearch(leads[i], "")
    {
      EmptyOccurs(Lower(leads[i].name));
    }
    FilterKeepsAllIff(leads, (l: LeadRow) => MatchesSearch(l, ""));
  }

  /** Two terms that lower-case alike select the same leads. */
  lemma SearchDependsOnLowerCase(leads: seq<LeadRow>, term: string, term': string)
    requires Lower(term) == Lower(term')
    ensures FilteredLeads(leads, term) == FilteredLeads(leads, term')
  {
    FilterCongruent(leads, (l: LeadRow) => MatchesSearch(l, term), (l: LeadRow) => MatchesSearch(l, term'));
  }

  /** Typing the term in capitals, or in lower case, lists the same leads. */
  lemma SearchIgnoresCase(leads: seq<LeadRow>, term: string)
    ensures FilteredLeads(leads, Upper(term)) == FilteredLeads(leads, term)
    ensures FilteredLeads(leads, Lower(term)) == FilteredLeads(leads, term)
  {
    LowerForgetsCase(term);
    SearchDependsOnLowerCase(leads, Upper(term), term);
    SearchDependsOnLowerCase(leads, Lower(term), term);
  }

  /** A status card: `leads.filter(l => l.status === st).length`, the number
      of positions holding a lead with that status, never more than the total. */
  function StatusCard(leads: seq<LeadRow>, st: LeadStatus): (n: nat)
    ensures n == |set i | 0 <= i < |leads| && leads[i].status == st|
    ensures n <= |leads|
  {
    CountIsIndexSetSize(leads, (l: LeadRow) => l.status == st);
    assert IndexSet(leads, (l: LeadRow) => l.status == st)
        == set i | 0 <= i < |leads| && leads[i].status == st;
    Count(leads, (l: LeadRow) => l.status == st)
  }

  /** The "New Leads" and "Qualified" cards together never count more than
      the total card. */
  lemma CardsWithinTotal(leads: seq<LeadRow>)
    ensures StatusCard(leads, New) + StatusCard(leads, Qualified) <= |leads|
  {
    CountDisjoint(leads, (l: LeadRow) => l.status == New, (l: LeadRow) => l.status == Qualified);
  }

  /** The cards as the page first shows them: four leads, one new, one qualified. */
  lemma MockCards()
    ensures |MockLeads| == 4
    ensures StatusCard(MockLeads, New) == 1
    ensures StatusCard(MockLeads, Qualified) == 1
  {
    assert (set i | 0 <= i < |MockLeads| && MockLeads[i].status == New) == {0};
    assert (set i | 0 <= i < |MockLeads| && MockLeads[i].status == Qualified) == {1};
  }
}
