/** The records of the budget engine: brands with their limits, campaigns with
    their running spend totals and optional dayparting window, and the
    append-only spend ledger, together with the relational store that holds
    them. Money is kept as a whole number of cents: every amount in the store is
    a decimal with exactly two places, so cents represent it without rounding. */
module Models {

  datatype Option<+T> = None | Some(value: T)

  /** A two-decimal-place amount, in cents. The store does not forbid
      negative values, so neither does the model. */
  type Cents = int

  /** A dayparting hour column: the store insists only that it is not
      negative; its upper bound depends on the database, and nothing checks
      that it is below 24. */
  type HourColumn = nat

  /** The hour component of a wall-clock time. */
  type Hour = h: int | 0 <= h < 24

  type BrandId = int
  type CampaignId = int

  datatype Brand = Brand(dailyBudget: Cents, monthlyBudget: Cents)

  /** Allowed hours `[startHour, endHour)`; nothing checks that the window is
      non-empty or lies within a day. */
  datatype DaypartingSchedule = DaypartingSchedule(startHour: HourColumn, endHour: HourColumn)

  /** A campaign row; its dayparting schedule, a separate one-to-one row in the
      store, is folded in as an optional field. */
  datatype Campaign = Campaign(
    brand: BrandId,
    isActive: bool,
    dailySpend: Cents,
    monthlySpend: Cents,
    schedule: Option<DaypartingSchedule>)

  /** One ledger entry; the server-assigned timestamp is not modelled. */
  datatype SpendLog = SpendLog(campaign: CampaignId, amount: Cents)

  datatype Store = Store(
    brands: map<BrandId, Brand>,
    campaigns: map<CampaignId, Campaign>,
    logs: seq<SpendLog>)

  datatype Error =
    | CampaignNotFound   // the campaign lookup raises DoesNotExist
    | BrandNotFound      // the brand foreign key is violated
    | InactiveCampaign   // spend refused for a paused campaign
    | InvalidAmount      // a spend amount that is not positive
    | ScheduleExists     // the one-to-one schedule relation is violated

  /** The result of one transaction: on an error the store is the one the
      transaction started from. */
  datatype Outcome = Outcome(store: Store, error: Option<Error>)

  /** Referential integrity: every campaign's brand and every ledger entry's
      campaign exist, so every ledger entry leads, through its campaign, to a
      brand and its limits. */
  predicate Valid(st: Store)
    ensures Valid(st) ==>
      forall i | 0 <= i < |st.logs| :: st.logs[i].campaign in st.campaigns
        && st.campaigns[st.logs[i].campaign].brand in st.brands
  {
    && (forall id | id in st.campaigns :: st.campaigns[id].brand in st.brands)
    && (forall i | 0 <= i < |st.logs| :: st.logs[i].campaign in st.campaigns)
  }

  /** Inserts a campaign row for `brand` under the fresh key `id`, with every
      other column at its default. */
  function CreateCampaign(st: Store, id: CampaignId, brand: BrandId): (r: Outcome)
    requires id !in st.campaigns
    ensures brand !in st.brands ==> r == Outcome(st, Some(BrandNotFound))
    ensures brand in st.brands ==>
      && r.error.None?
      && r.store.brands == st.brands
      && r.store.logs == st.logs
      && r.store.campaigns.Keys == st.campaigns.Keys + {id}
      && (forall k | k in st.campaigns :: r.store.campaigns[k] == st.campaigns[k])
      && r.store.campaigns[id].brand == brand
      && r.store.campaigns[id].isActive
      && r.store.campaigns[id].dailySpend == 0
      && r.store.campaigns[id].monthlySpend == 0
      && r.store.campaigns[id].schedule.None?
    ensures Valid(st) ==> Valid(r.store)
  {
    if brand !in st.brands then Outcome(st, Some(BrandNotFound))
    else Outcome(st.(campaigns := st.campaigns[id := Campaign(brand, true, 0, 0, None)]), None)
  }

  /** Inserts the dayparting schedule row of campaign `id`. The relation is
      one-to-one, so a second schedule for the same campaign is refused. */
  function AttachSchedule(st: Store, id: CampaignId, s: DaypartingSchedule): (r: Outcome)
    ensures id !in st.campaigns ==> r == Outcome(st, Some(CampaignNotFound))
    ensures id in st.campaigns && st.campaigns[id].schedule.Some? ==>
      r == Outcome(st, Some(ScheduleExists))
    ensures id in st.campaigns && st.campaigns[id].schedule.None? ==>
      && r.error.None?
      && r.store.brands == st.brands
      && r.store.logs == st.logs
      && r.store.campaigns.Keys == st.campaigns.Keys
      && (forall k | k in st.campaigns && k != id :: r.store.campaigns[k] == st.campaigns[k])
      && r.store.campaigns[id] == st.campaigns[id].(schedule := Some(s))
    ensures Valid(st) ==> Valid(r.store)
  {
    if id !in st.campaigns then Outcome(st, Some(CampaignNotFound))
    else if st.campaigns[id].schedule.Some? then Outcome(st, Some(ScheduleExists))
    else Outcome(st.(campaigns := st.campaigns[id := st.campaigns[id].(schedule := Some(s))]), None)
  }

  /** The ledger entries of one campaign, in insertion order. */
  function LogsFor(logs: seq<SpendLog>, id: CampaignId): (r: seq<SpendLog>)
    ensures forall e :: e in r <==> e in logs && e.campaign == id
  {
    if |logs| == 0 then []
    else if logs[|logs| - 1].campaign == id then LogsFor(logs[..|logs| - 1], id) + [logs[|logs| - 1]]
    else LogsFor(logs[..|logs| - 1], id)
  }

  /** The total amount of one campaign's ledger entries. */
  function SumFor(logs: seq<SpendLog>, id: CampaignId): Cents
  {
    if |logs| == 0 then 0
    else
      var last := logs[|logs| - 1];
      SumFor(logs[..|logs| - 1], id) + (if last.campaign == id then last.amount else 0)
  }

  /** Appending an entry of campaign `id` adds exactly that entry to its
      ledger, and appending an entry of another campaign leaves it alone. */
  lemma LogsForAppend(logs: seq<SpendLog>, e: SpendLog, id: CampaignId)
    ensures LogsFor(logs + [e], id) == if e.campaign == id then LogsFor(logs, id) + [e] else LogsFor(logs, id)
    ensures SumFor(logs + [e], id) == SumFor(logs, id) + (if e.campaign == id then e.amount else 0)
  {
  }

  /** The ledger total distributes over concatenation. */
  lemma {:induction false} SumForConcat(a: seq<SpendLog>, b: seq<SpendLog>, id: CampaignId)
    ensures SumFor(a + b, id) == SumFor(a, id) + SumFor(b, id)
    decreases |b|
  {
    if |b| == 0 {
      assert a + b == a;
    } else {
      var b' := b[..|b| - 1];
      var e := b[|b| - 1];
      assert a + b == (a + b') + [e];
      assert b == b' + [e];
      LogsForAppend(a + b', e, id);
      LogsForAppend(b', e, id);
      SumForConcat(a, b', id);
    }
  }
}
