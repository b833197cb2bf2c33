/** The org service keeps exactly what the chart needs: whatever rows the board lists form a forest. */
module OrgChartOfCompany {
  import Forest
  import OrgRules
  import OrgChart

  /** The board lists some of the rows, each at most once, with their manager pointers. */
  ghost predicate Lists(t: Forest.Table, listing: seq<OrgChart.Agent>) {
    && OrgChart.DistinctIds(listing)
    && forall a :: a in listing ==> a.id in t && a.reportsTo == t[a.id].reportsTo
  }

  lemma CompanyListingIsForest(s: OrgRules.OrgState, ops: seq<OrgRules.Op>, listing: seq<OrgChart.Agent>)
    requires s == OrgRules.Run(OrgRules.EMPTY, ops) && "" !in s.agents
    requires Lists(s.agents, listing)
    ensures OrgChart.IsForest(listing)
  {
    OrgRules.EmptyInv();
    OrgRules.RunKeepsOrg(OrgRules.EMPTY, ops);
    var rank := Forest.AcyclicIsRanked(s.agents);
    Forest.RankedIsAcyclic(OrgChart.Links(listing), rank);
  }
}
