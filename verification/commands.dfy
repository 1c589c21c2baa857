/** The operator's spend-logging command, reduced to the one check it adds
    before calling the spend logger: the amount must be positive. */
module Commands {
  import opened Models
  import opened Services

  /** Refuses a non-positive amount before any transaction starts, then
      records the spend. Amounts are whole cents, so every accepted spend
      strictly raises both totals of its campaign; every refusal leaves the
      store as it was. */
  function LogSpendCommand(st: Store, id: CampaignId, amount: Cents): (r: Outcome)
    requires Valid(st)
    ensures amount <= 0 ==> r == Outcome(st, Some(InvalidAmount))
    ensures amount > 0 ==> r == LogSpend(st, id, amount)
    ensures r.error.Some? ==> r.store == st
    ensures r.error.None? ==>
      && id in st.campaigns
      && r.store.campaigns[id].dailySpend > st.campaigns[id].dailySpend
      && r.store.campaigns[id].monthlySpend > st.campaigns[id].monthlySpend
    ensures Valid(r.store)
  {
    if amount <= 0 then Outcome(st, Some(InvalidAmount))
    else LogSpend(st, id, amount)
  }
}
