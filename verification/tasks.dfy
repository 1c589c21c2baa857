/** The periodic jobs: the enforcement sweep that pauses campaigns outside
    their dayparting window or at their budget, and the two reset jobs. The
    wall-clock time the sweep reads is its `hour` parameter. */
module Tasks {
  import opened Models
  import opened Services

  /** The sweep's decision for one campaign: outside its window it is paused
      whatever it has spent; inside, the inclusive budget check decides. */
  function SweepCampaign(c: Campaign, b: Brand, hour: Hour): (r: Campaign)
    ensures r.isActive <==>
      c.isActive && IsWithinDayparting(c, hour) && c.dailySpend < b.dailyBudget && c.monthlySpend < b.monthlyBudget
    ensures r == c.(isActive := r.isActive)
  {
    if IsWithinDayparting(c, hour) then EnforceBudget(c, b) else c.(isActive := false)
  }

  /** One pass of the sweep over every campaign. Only active flags change, and
      only from active to paused. */
  function EnforceCampaignStatus(st: Store, hour: Hour): (r: Store)
    requires Valid(st)
    ensures r.brands == st.brands && r.logs == st.logs
    ensures r.campaigns.Keys == st.campaigns.Keys
    ensures forall id | id in r.campaigns ::
      r.campaigns[id] == st.campaigns[id].(isActive := r.campaigns[id].isActive)
    ensures forall id | id in r.campaigns ::
      var c := st.campaigns[id];
      var b := st.brands[c.brand];
      r.campaigns[id].isActive <==>
        c.isActive && IsWithinDayparting(c, hour) && c.dailySpend < b.dailyBudget && c.monthlySpend < b.monthlyBudget
    ensures Valid(r)
  {
    st.(campaigns := map id | id in st.campaigns :: SweepCampaign(st.campaigns[id], st.brands[st.campaigns[id].brand], hour))
  }

  /** The sweep as the job runs it: campaigns are visited one at a time in
      `order`, the order the store yields its rows, and each is saved on its
      own. No campaign's update reads another's, so every order gives the same
      store, and so does meeting a campaign twice. */
  method EnforceCampaignStatusLoop(st: Store, hour: Hour, order: seq<CampaignId>) returns (r: Store)
    requires Valid(st)
    requires forall id | id in st.campaigns :: id in order
    requires forall i | 0 <= i < |order| :: order[i] in st.campaigns
    ensures r == EnforceCampaignStatus(st, hour)
  {
    var cs := st.campaigns;
    var i := 0;
    while i < |order|
      invariant i <= |order|
      invariant cs.Keys == st.campaigns.Keys
      invariant forall id | id in cs ::
        cs[id] == if id in order[..i] then SweepCampaign(st.campaigns[id], st.brands[st.campaigns[id].brand], hour)
                  else st.campaigns[id]
    {
      var id := order[i];
      var c := cs[id];
      var b := st.brands[c.brand];
      if IsWithinDayparting(c, hour) {
        cs := cs[id := EnforceBudget(c, b)];
      } else {
        cs := cs[id := c.(isActive := false)];
      }
      assert order[..i + 1] == order[..i] + [id];
      i := i + 1;
    }
    assert order[..i] == order;
    r := st.(campaigns := cs);
    var swept := EnforceCampaignStatus(st, hour);
    assert forall id | id in cs :: cs[id] == swept.campaigns[id];
    assert r.campaigns == swept.campaigns;
  }

  /** Outside its window a campaign is paused even when under budget. */
  lemma SweepPausesOutsideWindow(st: Store, hour: Hour, id: CampaignId)
    requires Valid(st) && id in st.campaigns
    requires !IsWithinDayparting(st.campaigns[id], hour)
    ensures !EnforceCampaignStatus(st, hour).campaigns[id].isActive
  {
  }

  /** Inside its window a campaign gets exactly the budget check. */
  lemma SweepInsideWindowIsBudgetCheck(st: Store, hour: Hour, id: CampaignId)
    requires Valid(st) && id in st.campaigns
    requires IsWithinDayparting(st.campaigns[id], hour)
    ensures EnforceCampaignStatus(st, hour).campaigns[id]
         == EnforceBudget(st.campaigns[id], st.brands[st.campaigns[id].brand])
  {
  }

  /** A second sweep at the same hour changes nothing. */
  lemma SweepIdempotent(st: Store, hour: Hour)
    requires Valid(st)
    ensures EnforceCampaignStatus(EnforceCampaignStatus(st, hour), hour) == EnforceCampaignStatus(st, hour)
  {
    var once := EnforceCampaignStatus(st, hour);
    var twice := EnforceCampaignStatus(once, hour);
    assert twice.campaigns == once.campaigns;
  }

  /** What a sweep right after a daily reset leaves running: exactly the
      campaigns inside their window at that hour whose monthly total is under
      its limit, provided the brand's daily limit is positive. */
  lemma ResetThenSweep(st: Store, hour: Hour, id: CampaignId)
    requires Valid(st) && id in st.campaigns
    ensures
      var c := st.campaigns[id];
      var b := st.brands[c.brand];
      EnforceCampaignStatus(ResetDailyBudgets(st), hour).campaigns[id].isActive <==>
        IsWithinDayparting(c, hour) && 0 < b.dailyBudget && c.monthlySpend < b.monthlyBudget
  {
  }

  /** The daily reset job: exactly the daily reset of the services. */
  function ResetDaily(st: Store): (r: Store)
    ensures r == ResetDailyBudgets(st)
    ensures forall id | id in r.campaigns :: r.campaigns[id].dailySpend == 0 && r.campaigns[id].isActive
  {
    ResetDailyBudgets(st)
  }

  /** The monthly reset job: exactly the monthly reset of the services. */
  function ResetMonthly(st: Store): (r: Store)
    ensures r == ResetMonthlyBudgets(st)
    ensures forall id | id in r.campaigns :: r.campaigns[id].monthlySpend == 0
  {
    ResetMonthlyBudgets(st)
  }
}
