/** The spend-accounting engine: the dayparting check, the inclusive budget
    check used by the sweep, the two counter resets, and the transactional
    spend logger with its strict budget check. */
module Services {
  import opened Models

  /* ---------------- Dayparting ---------------- */

  /** Whether `hour` falls inside the campaign's allowed window. A campaign
      without a schedule may run at any hour. */
  function IsWithinDayparting(c: Campaign, hour: Hour): (r: bool)
    ensures c.schedule.None? ==> r
    ensures c.schedule.Some? ==> (r <==> hour in Range(c.schedule.value.startHour, c.schedule.value.endHour))
  {
    match c.schedule
    case None => true
    case Some(s) => s.startHour <= hour < s.endHour
  }

  /** The hours of the day at which the campaign may run. */
  function AllowedHours(c: Campaign): set<Hour> {
    set h: Hour | 0 <= h < 24 && IsWithinDayparting(c, h)
  }

  /** The integers of `[lo, hi)`, and how many there are. */
  function Range(lo: int, hi: int): (r: set<int>)
    ensures forall x :: x in r <==> lo <= x < hi
    ensures lo <= hi ==> |r| == hi - lo
    decreases hi - lo
  {
    if hi <= lo then {} else Range(lo, hi - 1) + {hi - 1}
  }

  /** Without a schedule a campaign is inside its window at every hour. */
  lemma NoScheduleAlwaysWithin(c: Campaign)
    requires c.schedule.None?
    ensures forall h: Hour :: IsWithinDayparting(c, h)
  {
  }

  /** A window whose end does not exceed its start (an attempt at a window
      across midnight) is never open. */
  lemma InvertedWindowNeverWithin(c: Campaign)
    requires c.schedule.Some? && c.schedule.value.endHour <= c.schedule.value.startHour
    ensures forall h: Hour :: !IsWithinDayparting(c, h)
  {
  }

  /** Hours of 24 and more, which the store accepts, do no harm: an end of
      24 or more acts as 24, and a start of 24 or more never opens. */
  lemma OutOfDayHours(c: Campaign, hour: Hour)
    requires c.schedule.Some?
    ensures c.schedule.value.endHour >= 24 ==>
      IsWithinDayparting(c, hour) == IsWithinDayparting(c.(schedule := Some(c.schedule.value.(endHour := 24))), hour)
    ensures c.schedule.value.startHour >= 24 ==> !IsWithinDayparting(c, hour)
  {
  }

  /** Once a schedule is attached it alone decides the dayparting check, and
      it cannot be replaced by attaching another. */
  lemma AttachedScheduleGovernsDayparting(st: Store, id: CampaignId, s: DaypartingSchedule, t: DaypartingSchedule, hour: Hour)
    requires id in st.campaigns && st.campaigns[id].schedule.None?
    ensures
      var r := AttachSchedule(st, id, s).store;
      && (IsWithinDayparting(r.campaigns[id], hour) <==> s.startHour <= hour < s.endHour)
      && AttachSchedule(r, id, t) == Outcome(r, Some(ScheduleExists))
  {
  }

  /** With a schedule, the allowed hours form the interval
      `[start, min(end, 24))`. */
  lemma AllowedHoursOfWindow(c: Campaign, lo: int, hi: int)
    requires c.schedule.Some? && lo == c.schedule.value.startHour
    requires hi == if c.schedule.value.endHour < 24 then c.schedule.value.endHour else 24
    ensures AllowedHours(c) == Range(lo, hi)
  {
    forall h | h in Range(lo, hi)
      ensures h in AllowedHours(c)
    {
      assert 0 <= h < 24;
      assert IsWithinDayparting(c, h);
    }
  }

  /** The number of hours a day a campaign may run: all 24 without a
      schedule, otherwise the part of `[start, end)` that lies in `[0, 24)`,
      which is empty for an inverted window and for a start past 23. */
  lemma AllowedHoursCount(c: Campaign)
    ensures c.schedule.None? ==> |AllowedHours(c)| == 24
    ensures c.schedule.Some? ==>
      var s := c.schedule.value;
      var hi := if s.endHour < 24 then s.endHour else 24;
      |AllowedHours(c)| == if hi <= s.startHour then 0 else hi - s.startHour
  {
    match c.schedule
    case None =>
      assert AllowedHours(c) == Range(0, 24);
    case Some(s) =>
      var hi := if s.endHour < 24 then s.endHour else 24;
      AllowedHoursOfWindow(c, s.startHour, hi);
      if hi <= s.startHour {
        assert Range(s.startHour, hi) == {};
      }
  }

  /* ---------------- Budget checks ---------------- */

  /** The sweep's check: a total at or above its limit counts as spent. */
  predicate AtOrOverBudget(c: Campaign, b: Brand) {
    c.dailySpend >= b.dailyBudget || c.monthlySpend >= b.monthlyBudget
  }

  /** The spend logger's check: only a total strictly above its limit counts. */
  predicate ExceedsBudget(c: Campaign, b: Brand) {
    c.dailySpend > b.dailyBudget || c.monthlySpend > b.monthlyBudget
  }

  /** Pauses a campaign that has used up either budget of its brand; never
      reactivates one and touches nothing but the active flag. */
  function EnforceBudget(c: Campaign, b: Brand): (r: Campaign)
    ensures r.isActive <==> c.isActive && c.dailySpend < b.dailyBudget && c.monthlySpend < b.monthlyBudget
    ensures r == c.(isActive := r.isActive)
  {
    if AtOrOverBudget(c, b) then c.(isActive := false) else c
  }

  /** Checking the budget a second time changes nothing. */
  lemma EnforceBudgetIdempotent(c: Campaign, b: Brand)
    ensures EnforceBudget(EnforceBudget(c, b), b) == EnforceBudget(c, b)
  {
  }

  /* ---------------- Resets ---------------- */

  /** Zeroes every campaign's daily total and reactivates every campaign,
      whatever paused it; monthly totals, brands and the ledger are untouched. */
  function ResetDailyBudgets(st: Store): (r: Store)
    ensures r.brands == st.brands && r.logs == st.logs
    ensures r.campaigns.Keys == st.campaigns.Keys
    ensures forall id | id in r.campaigns ::
      && r.campaigns[id].dailySpend == 0
      && r.campaigns[id].isActive
      && r.campaigns[id].monthlySpend == st.campaigns[id].monthlySpend
      && r.campaigns[id].brand == st.campaigns[id].brand
      && r.campaigns[id].schedule == st.campaigns[id].schedule
    ensures Valid(st) ==> Valid(r)
  {
    st.(campaigns := map id | id in st.campaigns :: st.campaigns[id].(dailySpend := 0, isActive := true))
  }

  /** Zeroes every campaign's monthly total; daily totals, active flags,
      brands and the ledger are untouched. */
  function ResetMonthlyBudgets(st: Store): (r: Store)
    ensures r.brands == st.brands && r.logs == st.logs
    ensures r.campaigns.Keys == st.campaigns.Keys
    ensures forall id | id in r.campaigns ::
      && r.campaigns[id].monthlySpend == 0
      && r.campaigns[id].dailySpend == st.campaigns[id].dailySpend
      && r.campaigns[id].isActive == st.campaigns[id].isActive
      && r.campaigns[id].brand == st.campaigns[id].brand
      && r.campaigns[id].schedule == st.campaigns[id].schedule
    ensures Valid(st) ==> Valid(r)
  {
    st.(campaigns := map id | id in st.campaigns :: st.campaigns[id].(monthlySpend := 0))
  }

  lemma ResetDailyIdempotent(st: Store)
    ensures ResetDailyBudgets(ResetDailyBudgets(st)) == ResetDailyBudgets(st)
  {
  }

  lemma ResetMonthlyIdempotent(st: Store)
    ensures ResetMonthlyBudgets(ResetMonthlyBudgets(st)) == ResetMonthlyBudgets(st)
  {
  }

  /** The two resets touch different columns, so their order does not matter. */
  lemma ResetsCommute(st: Store)
    ensures ResetDailyBudgets(ResetMonthlyBudgets(st)) == ResetMonthlyBudgets(ResetDailyBudgets(st))
  {
  }

  /* ---------------- Spend logging ---------------- */

  /** Records a spend of `amount` for campaign `id` as one transaction. A
      missing or paused campaign aborts it with the store unchanged; otherwise
      one ledger entry is appended, both totals grow by `amount`, and the
      campaign is paused when a new total strictly exceeds its brand's limit.
      The amount itself is not checked here. */
  function LogSpend(st: Store, id: CampaignId, amount: Cents): (r: Outcome)
    requires Valid(st)
    ensures id !in st.campaigns ==> r == Outcome(st, Some(CampaignNotFound))
    ensures id in st.campaigns && !st.campaigns[id].isActive ==> r == Outcome(st, Some(InactiveCampaign))
    ensures id in st.campaigns && st.campaigns[id].isActive ==>
      var c := st.campaigns[id];
      var b := st.brands[c.brand];
      && r.error.None?
      && r.store.brands == st.brands
      && r.store.logs == st.logs + [SpendLog(id, amount)]
      && r.store.campaigns.Keys == st.campaigns.Keys
      && (forall k | k in st.campaigns && k != id :: r.store.campaigns[k] == st.campaigns[k])
      && r.store.campaigns[id].dailySpend == c.dailySpend + amount
      && r.store.campaigns[id].monthlySpend == c.monthlySpend + amount
      && r.store.campaigns[id].brand == c.brand
      && r.store.campaigns[id].schedule == c.schedule
      && (r.store.campaigns[id].isActive <==>
            r.store.campaigns[id].dailySpend <= b.dailyBudget
            && r.store.campaigns[id].monthlySpend <= b.monthlyBudget)
    ensures Valid(r.store)
  {
    if id !in st.campaigns then Outcome(st, Some(CampaignNotFound))
    else
      var c := st.campaigns[id];
      if !c.isActive then Outcome(st, Some(InactiveCampaign))
      else
        var spent := c.(dailySpend := c.dailySpend + amount, monthlySpend := c.monthlySpend + amount);
        var updated := if ExceedsBudget(spent, st.brands[c.brand]) then spent.(isActive := false) else spent;
        Outcome(st.(campaigns := st.campaigns[id := updated], logs := st.logs + [SpendLog(id, amount)]), None)
  }

  /** A successful spend adds exactly one entry, carrying the amount, to the
      campaign's own ledger, raises its ledger total by the amount, and leaves
      every other campaign's ledger as it was. */
  lemma LogSpendLedger(st: Store, id: CampaignId, amount: Cents, other: CampaignId)
    requires Valid(st) && id in st.campaigns && st.campaigns[id].isActive
    ensures LogsFor(LogSpend(st, id, amount).store.logs, id) == LogsFor(st.logs, id) + [SpendLog(id, amount)]
    ensures SumFor(LogSpend(st, id, amount).store.logs, id) == SumFor(st.logs, id) + amount
    ensures other != id ==> LogsFor(LogSpend(st, id, amount).store.logs, other) == LogsFor(st.logs, other)
  {
  }

  /** The two budget checks disagree exactly at the limit: a spend that brings
      a total level with its limit leaves the campaign active, and the sweep's
      check then pauses it. */
  lemma LogSpendThenEnforce(st: Store, id: CampaignId, amount: Cents)
    requires Valid(st) && id in st.campaigns
    requires LogSpend(st, id, amount).error.None?
    requires LogSpend(st, id, amount).store.campaigns[id].isActive
    ensures
      var c := LogSpend(st, id, amount).store.campaigns[id];
      var b := st.brands[c.brand];
      !EnforceBudget(c, b).isActive <==> c.dailySpend == b.dailyBudget || c.monthlySpend == b.monthlyBudget
  {
  }

  /** One concrete instance of that disagreement: a daily limit of 50.00,
      10.00 already spent, and a spend of 40.00. */
  lemma SpendToExactLimitStaysActive()
    ensures
      var st := Store(map[1 := Brand(5000, 100000)], map[7 := Campaign(1, true, 1000, 1000, None)], []);
      var r := LogSpend(st, 7, 4000);
      && r.error.None?
      && r.store.campaigns[7].isActive
      && !EnforceBudget(r.store.campaigns[7], st.brands[1]).isActive
  {
  }

  /** After a daily reset no spend is refused for a paused campaign. */
  lemma ResetDailyAdmitsSpend(st: Store, id: CampaignId, amount: Cents)
    requires Valid(st) && id in st.campaigns
    ensures LogSpend(ResetDailyBudgets(st), id, amount).error.None?
  {
  }

  /** A freshly created campaign runs at every hour and takes its first
      spend, which becomes both of its totals. */
  lemma NewCampaignAcceptsSpend(st: Store, id: CampaignId, brand: BrandId, amount: Cents, hour: Hour)
    requires Valid(st) && id !in st.campaigns && brand in st.brands
    ensures
      var created := CreateCampaign(st, id, brand).store;
      var r := LogSpend(created, id, amount);
      && IsWithinDayparting(created.campaigns[id], hour)
      && r.error.None?
      && r.store.campaigns[id].dailySpend == amount
      && r.store.campaigns[id].monthlySpend == amount
  {
  }
}
