/** The accounting invariant of the ledger: between resets of a total, spends
    raise it by exactly the amounts of the ledger entries written for it,
    whatever sweeps and resets of the other total happen in between, so each
    total is the sum of the entries logged since its own last reset. */
module Ledger {
  import opened Models
  import opened Services
  import opened Tasks

  /** One event the engine serves: a spend request, or a run of one of the
      three periodic jobs. */
  datatype Step =
    | Spend(campaign: CampaignId, amount: Cents)
    | Sweep(hour: Hour)
    | DailyReset
    | MonthlyReset

  /** Serves one event; a refused spend rolls back, so the store is unchanged. */
  function Apply(st: Store, s: Step): (r: Store)
    requires Valid(st)
    ensures Valid(r)
    ensures r.brands == st.brands
    ensures r.campaigns.Keys == st.campaigns.Keys
    ensures |st.logs| <= |r.logs| && r.logs[..|st.logs|] == st.logs
  {
    match s
    case Spend(id, amount) => LogSpend(st, id, amount).store
    case Sweep(hour) => EnforceCampaignStatus(st, hour)
    case DailyReset => ResetDaily(st)
    case MonthlyReset => ResetMonthly(st)
  }

  /** Serves events one after another, in any interleaving. */
  function Run(st: Store, steps: seq<Step>): (r: Store)
    requires Valid(st)
    ensures Valid(r)
    ensures r.brands == st.brands
    ensures r.campaigns.Keys == st.campaigns.Keys
    ensures |st.logs| <= |r.logs| && r.logs[..|st.logs|] == st.logs
    decreases |steps|
  {
    if |steps| == 0 then st
    else Run(Apply(st, steps[0]), steps[1..])
  }

  /** One event moves a total by exactly the sum of the ledger entries it
      appends for the campaign, unless it is that total's reset. */
  lemma ApplyMatchesLedger(st: Store, s: Step, id: CampaignId)
    requires Valid(st) && id in st.campaigns
    ensures
      var r := Apply(st, s);
      && (!s.DailyReset? ==>
            r.campaigns[id].dailySpend == st.campaigns[id].dailySpend + SumFor(r.logs[|st.logs|..], id))
      && (!s.MonthlyReset? ==>
            r.campaigns[id].monthlySpend == st.campaigns[id].monthlySpend + SumFor(r.logs[|st.logs|..], id))
  {
  }

  predicate NoDailyReset(steps: seq<Step>) {
    forall i | 0 <= i < |steps| :: !steps[i].DailyReset?
  }

  predicate NoMonthlyReset(steps: seq<Step>) {
    forall i | 0 <= i < |steps| :: !steps[i].MonthlyReset?
  }

  /** The entries a run appends are those of its first event followed by
      those of the rest of the run. */
  lemma SplitAppended(st: Store, steps: seq<Step>, id: CampaignId)
    requires Valid(st) && |steps| > 0
    ensures
      var st1 := Apply(st, steps[0]);
      var r := Run(st, steps);
      SumFor(r.logs[|st.logs|..], id) == SumFor(st1.logs[|st.logs|..], id) + SumFor(r.logs[|st1.logs|..], id)
  {
    var st1 := Apply(st, steps[0]);
    var r := Run(st, steps);
    assert r == Run(st1, steps[1..]);
    assert r.logs[|st.logs|..] == st1.logs[|st.logs|..] + r.logs[|st1.logs|..];
    SumForConcat(st1.logs[|st.logs|..], r.logs[|st1.logs|..], id);
  }

  /** Over any run of events without a daily reset, whatever sweeps and
      monthly resets it holds, the daily total moves by exactly the sum of the
      ledger entries appended for the campaign. */
  lemma {:induction false} RunMatchesDailyLedger(st: Store, steps: seq<Step>, id: CampaignId)
    requires Valid(st) && id in st.campaigns && NoDailyReset(steps)
    ensures
      var r := Run(st, steps);
      r.campaigns[id].dailySpend == st.campaigns[id].dailySpend + SumFor(r.logs[|st.logs|..], id)
    decreases |steps|
  {
    var r := Run(st, steps);
    if |steps| == 0 {
      assert r.logs[|st.logs|..] == [];
    } else {
      var st1 := Apply(st, steps[0]);
      assert r == Run(st1, steps[1..]);
      assert !steps[0].DailyReset?;
      ApplyMatchesLedger(st, steps[0], id);
      assert NoDailyReset(steps[1..]) by {
        assert forall i | 0 <= i < |steps| - 1 :: steps[1..][i] == steps[i + 1];
      }
      RunMatchesDailyLedger(st1, steps[1..], id);
      SplitAppended(st, steps, id);
    }
  }

  /** Over any run of events without a monthly reset, whatever sweeps and
      daily resets it holds, the monthly total moves by exactly the sum of the
      ledger entries appended for the campaign. */
  lemma {:induction false} RunMatchesMonthlyLedger(st: Store, steps: seq<Step>, id: CampaignId)
    requires Valid(st) && id in st.campaigns && NoMonthlyReset(steps)
    ensures
      var r := Run(st, steps);
      r.campaigns[id].monthlySpend == st.campaigns[id].monthlySpend + SumFor(r.logs[|st.logs|..], id)
    decreases |steps|
  {
    var r := Run(st, steps);
    if |steps| == 0 {
      assert r.logs[|st.logs|..] == [];
    } else {
      var st1 := Apply(st, steps[0]);
      assert r == Run(st1, steps[1..]);
      assert !steps[0].MonthlyReset?;
      ApplyMatchesLedger(st, steps[0], id);
      assert NoMonthlyReset(steps[1..]) by {
        assert forall i | 0 <= i < |steps| - 1 :: steps[1..][i] == steps[i + 1];
      }
      RunMatchesMonthlyLedger(st1, steps[1..], id);
      SplitAppended(st, steps, id);
    }
  }

  /** After a daily reset, until the next one, a campaign's daily total is the
      sum of the ledger entries logged for it since the reset, whatever sweeps
      and monthly resets run in between. */
  lemma DailyTotalIsLedgerSinceReset(st: Store, steps: seq<Step>, id: CampaignId)
    requires Valid(st) && id in st.campaigns && NoDailyReset(steps)
    ensures
      var r := Run(ResetDaily(st), steps);
      r.campaigns[id].dailySpend == SumFor(r.logs[|st.logs|..], id)
  {
    RunMatchesDailyLedger(ResetDaily(st), steps, id);
  }

  /** After a monthly reset, until the next one, a campaign's monthly total is
      the sum of the ledger entries logged for it since the reset, whatever
      sweeps and daily resets run in between. */
  lemma MonthlyTotalIsLedgerSinceReset(st: Store, steps: seq<Step>, id: CampaignId)
    requires Valid(st) && id in st.campaigns && NoMonthlyReset(steps)
    ensures
      var r := Run(ResetMonthly(st), steps);
      r.campaigns[id].monthlySpend == SumFor(r.logs[|st.logs|..], id)
  {
    RunMatchesMonthlyLedger(ResetMonthly(st), steps, id);
  }
}
