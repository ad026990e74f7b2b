/**
 * Daily metric sync: for every campaign linked to the ads platform, each reported day replaces
 * the campaign-level row of that day (delete on the exact key, then insert). A campaign whose
 * insights cannot be fetched is skipped and the others are still processed.
 */
module MetaMetrics {
  import opened Common
  import opened Tables
  import opened Store
  import opened MetaApi

  // ---------------------------------------------------------------------------------------
  // Conversions
  // ---------------------------------------------------------------------------------------

  /** The three action types that count as a lead conversion. */
  predicate IsLeadAction(t: string) {
    t == "lead" || t == "offsite_conversion.fb_pixel_lead" || t == "onsite_conversion.lead_grouped"
  }

  /** A day's conversions: the values of its lead actions, added up. */
  function Conversions(actions: seq<Action>): int {
    if actions == [] then 0
    else
      var last := actions[|actions| - 1];
      Conversions(actions[..|actions| - 1]) + (if IsLeadAction(last.actionType) then last.value else 0)
  }

  /** The lead actions of a day, in order. */
  function LeadActions(actions: seq<Action>): seq<Action> {
    if actions == [] then []
    else
      var last := actions[|actions| - 1];
      LeadActions(actions[..|actions| - 1]) + (if IsLeadAction(last.actionType) then [last] else [])
  }

  /** The values of all the actions, added up. */
  function Total(actions: seq<Action>): int {
    if actions == [] then 0 else Total(actions[..|actions| - 1]) + actions[|actions| - 1].value
  }

  lemma {:induction false} TotalAppend(a: seq<Action>, b: seq<Action>)
    ensures Total(a + b) == Total(a) + Total(b)
  {
    if b != [] {
      assert (a + b)[..|a + b| - 1] == a + b[..|b| - 1];
      TotalAppend(a, b[..|b| - 1]);
    } else {
      assert a + b == a;
    }
  }

  /** Conversions are exactly the total of the lead actions: every other action is ignored. */
  lemma {:induction false} ConversionsAreLeadTotal(actions: seq<Action>)
    ensures Conversions(actions) == Total(LeadActions(actions))
  {
    if actions != [] {
      var init := actions[..|actions| - 1];
      var last := actions[|actions| - 1];
      ConversionsAreLeadTotal(init);
      if IsLeadAction(last.actionType) {
        assert LeadActions(actions) == LeadActions(init) + [last];
        TotalAppend(LeadActions(init), [last]);
        assert [last][..0] == [];
      } else {
        assert LeadActions(actions) == LeadActions(init) + [];
        assert LeadActions(init) + [] == LeadActions(init);
      }
    }
  }

  /** Conversions add up across a split of the action list. */
  lemma {:induction false} ConversionsAppend(a: seq<Action>, b: seq<Action>)
    ensures Conversions(a + b) == Conversions(a) + Conversions(b)
  {
    if b != [] {
      assert (a + b)[..|a + b| - 1] == a + b[..|b| - 1];
      ConversionsAppend(a, b[..|b| - 1]);
    } else {
      assert a + b == a;
    }
  }

  /** The conversions loop over a day's actions. */
  method CountConversions(actions: seq<Action>) returns (n: int)
    ensures n == Conversions(actions)
  {
    n := 0;
    var i := 0;
    while i < |actions|
      invariant 0 <= i <= |actions|
      invariant n == Conversions(actions[..i])
    {
      assert actions[..i + 1][..i] == actions[..i];
      if IsLeadAction(actions[i].actionType) {
        n := n + actions[i].value;
      }
      i := i + 1;
    }
    assert actions[..i] == actions;
  }

  // ---------------------------------------------------------------------------------------
  // Replacing a day
  // ---------------------------------------------------------------------------------------

  /** The campaign-level row of a day: ad set and ad both NULL. */
  function DayKey(campaign: int, date: string): Metric -> bool {
    (m: Metric) => m.campaignId == campaign && m.date == date && m.adSetId.None? && m.adId.None?
  }

  /** A row broken down to an ad set or an ad. */
  predicate IsBreakdown(m: Metric) {
    m.adSetId.Some? || m.adId.Some?
  }

  /** The row a reported day becomes. */
  function DayMetric(campaign: int, date: string, d: InsightDay): Metric {
    Metric(campaign, None, None, date, DecimalOf(d.spend), d.impressions, d.clicks,
      Conversions(d.actions), DecimalOf(d.ctr), DecimalOf(d.cpc), DecimalOf(d.cpm))
  }

  /** The date a reported day is filed under: the first ten characters of its start. */
  function DateOfDay(d: InsightDay): string {
    Prefix(d.dateStart, 10)
  }

  /** Delete the rows on the exact key, then insert the new one. */
  function ReplaceDay(t: Table<Metric>, campaign: int, date: string, m: Metric): (u: Table<Metric>)
    ensures WellFormed(t) ==> WellFormed(u)
  {
    Insert(DeleteWhere(t, DayKey(campaign, date)), m)
  }

  /** The days of one campaign, applied in the order reported; a day without a date is skipped. */
  function DaysRun(t: Table<Metric>, campaign: int, days: seq<InsightDay>): (u: Table<Metric>)
    ensures WellFormed(t) ==> WellFormed(u)
  {
    if days == [] then t
    else
      var t0 := DaysRun(t, campaign, days[..|days| - 1]);
      var d := days[|days| - 1];
      if DateOfDay(d) == [] then t0 else ReplaceDay(t0, campaign, DateOfDay(d), DayMetric(campaign, DateOfDay(d), d))
  }

  /** How many of the days carry a date (the ones the sync writes and counts). */
  function DaysCount(days: seq<InsightDay>): nat {
    if days == [] then 0
    else DaysCount(days[..|days| - 1]) + (if DateOfDay(days[|days| - 1]) == [] then 0 else 1)
  }

  /** The insights the sync obtains for a campaign row: None when it is skipped or its fetch fails. */
  function InsightsOf(g: Graph, c: Row<Campaign>): Option<seq<InsightDay>> {
    if c.val.metaId.None? || c.val.metaId.value == [] then None
    else match AllPages(g.insights(c.val.metaId.value))
      case HttpFailure => None
      case Fetched(days) => Some(days)
  }

  /** The whole metric sync over the campaign rows, in table order. */
  function MetricsRun(g: Graph, t: Table<Metric>, camps: seq<Row<Campaign>>): (u: Table<Metric>)
    ensures WellFormed(t) ==> WellFormed(u)
  {
    if camps == [] then t
    else
      var t0 := MetricsRun(g, t, camps[..|camps| - 1]);
      var c := camps[|camps| - 1];
      match InsightsOf(g, c)
      case None => t0
      case Some(days) => DaysRun(t0, c.id, days)
  }

  /** What the metric sync returns: the number of day rows written. */
  function MetricsCount(g: Graph, camps: seq<Row<Campaign>>): nat {
    if camps == [] then 0
    else
      var c := camps[|camps| - 1];
      MetricsCount(g, camps[..|camps| - 1]) + (match InsightsOf(g, c) case None => 0 case Some(days) => DaysCount(days))
  }

  lemma MetricsRunStep(g: Graph, t: Table<Metric>, camps: seq<Row<Campaign>>, i: int)
    requires 0 <= i < |camps|
    ensures MetricsRun(g, t, camps[..i + 1])
         == match InsightsOf(g, camps[i])
            case None => MetricsRun(g, t, camps[..i])
            case Some(days) => DaysRun(MetricsRun(g, t, camps[..i]), camps[i].id, days)
    ensures MetricsCount(g, camps[..i + 1])
         == MetricsCount(g, camps[..i]) + match InsightsOf(g, camps[i]) case None => 0 case Some(days) => DaysCount(days)
  {
    assert camps[..i + 1][..i] == camps[..i];
  }

  // ---------------------------------------------------------------------------------------
  // Properties
  // ---------------------------------------------------------------------------------------

  /** Replacing a day leaves exactly one row on its key and every other key's count as it was. */
  lemma ReplaceDayCount(t: Table<Metric>, c: int, d: string, m: Metric, c': int, d': string)
    requires DayKey(c, d)(m)
    ensures Count(ReplaceDay(t, c, d, m).rows, DayKey(c', d')) == if c == c' && d == d' then 1 else Count(t.rows, DayKey(c', d'))
  {
    var q := Not(DayKey(c, d));
    var kept := Select(t.rows, q);
    assert ReplaceDay(t, c, d, m).rows == kept + [Row(t.next, m)];
    CountAppend(kept, Row(t.next, m), DayKey(c', d'));
    if c == c' && d == d' {
      CountSelectDrops(t.rows, q, DayKey(c', d'));
    } else {
      CountSelectKeeps(t.rows, q, DayKey(c', d'));
    }
  }

  /** Some day of the listing is filed under date d. */
  ghost predicate HasDate(days: seq<InsightDay>, d: string) {
    exists j | 0 <= j < |days| :: DateOfDay(days[j]) == d
  }

  /** The days of campaign c write the row of (c', d'). */
  ghost predicate Touched(c: int, days: seq<InsightDay>, c': int, d': string) {
    c == c' && d' != [] && HasDate(days, d')
  }

  lemma HasDateSnoc(days: seq<InsightDay>, d: string)
    requires days != []
    ensures HasDate(days, d) <==> HasDate(days[..|days| - 1], d) || DateOfDay(days[|days| - 1]) == d
  {
    var init := days[..|days| - 1];
    if HasDate(init, d) {
      var j :| 0 <= j < |init| && DateOfDay(init[j]) == d;
      assert days[j] == init[j];
    }
    if HasDate(days, d) && DateOfDay(days[|days| - 1]) != d {
      var j :| 0 <= j < |days| && DateOfDay(days[j]) == d;
      assert init[j] == days[j];
    }
  }

  lemma {:induction false} DaysRunCount(t: Table<Metric>, c: int, days: seq<InsightDay>, c': int, d': string)
    ensures Count(DaysRun(t, c, days).rows, DayKey(c', d')) == if Touched(c, days, c', d') then 1 else Count(t.rows, DayKey(c', d'))
  {
    if days != [] {
      var init := days[..|days| - 1];
      var d := days[|days| - 1];
      var t0 := DaysRun(t, c, init);
      DaysRunCount(t, c, init, c', d');
      HasDateSnoc(days, d');
      if DateOfDay(d) != [] {
        ReplaceDayCount(t0, c, DateOfDay(d), DayMetric(c, DateOfDay(d), d), c', d');
      }
    }
  }

  /** Campaign row c was processed and its days wrote the row of (c', d'). */
  ghost predicate CampaignTouched(g: Graph, c: Row<Campaign>, c': int, d': string) {
    InsightsOf(g, c).Some? && Touched(c.id, InsightsOf(g, c).value, c', d')
  }

  /** Some campaign of the sync wrote the row of (c', d'). */
  ghost predicate TouchedBy(g: Graph, camps: seq<Row<Campaign>>, c': int, d': string) {
    exists k | 0 <= k < |camps| :: CampaignTouched(g, camps[k], c', d')
  }

  lemma TouchedBySnoc(g: Graph, camps: seq<Row<Campaign>>, c': int, d': string)
    requires camps != []
    ensures TouchedBy(g, camps, c', d') <==> TouchedBy(g, camps[..|camps| - 1], c', d') || CampaignTouched(g, camps[|camps| - 1], c', d')
  {
    var init := camps[..|camps| - 1];
    if TouchedBy(g, init, c', d') {
      var k :| 0 <= k < |init| && CampaignTouched(g, init[k], c', d');
      assert camps[k] == init[k];
    }
    if TouchedBy(g, camps, c', d') && !CampaignTouched(g, camps[|camps| - 1], c', d') {
      var k :| 0 <= k < |camps| && CampaignTouched(g, camps[k], c', d');
      assert init[k] == camps[k];
    }
  }

  /**
   * After the metric sync, every (campaign, date) some fetched day was filed under has exactly
   * one campaign-level row, and every other key has as many as before.
   */
  lemma {:induction false} MetricsRunCount(g: Graph, t: Table<Metric>, camps: seq<Row<Campaign>>, c': int, d': string)
    ensures Count(MetricsRun(g, t, camps).rows, DayKey(c', d')) == if TouchedBy(g, camps, c', d') then 1 else Count(t.rows, DayKey(c', d'))
  {
    if camps != [] {
      var init := camps[..|camps| - 1];
      var c := camps[|camps| - 1];
      var t0 := MetricsRun(g, t, init);
      MetricsRunCount(g, t, init, c', d');
      TouchedBySnoc(g, camps, c', d');
      if InsightsOf(g, c).Some? {
        DaysRunCount(t0, c.id, InsightsOf(g, c).value, c', d');
      }
    }
  }

  /** The last reported day filed under date d: the one whose figures the row of d ends up with. */
  ghost function LastDay(days: seq<InsightDay>, d: string): (r: Option<InsightDay>)
    ensures r.Some? ==> DateOfDay(r.value) == d
  {
    if days == [] then None
    else if DateOfDay(days[|days| - 1]) == d then Some(days[|days| - 1])
    else LastDay(days[..|days| - 1], d)
  }

  /** A campaign-level row of campaign c on a date its days were filed under. */
  ghost predicate WrittenBy(c: int, days: seq<InsightDay>, m: Metric) {
    !IsBreakdown(m) && Touched(c, days, m.campaignId, m.date)
  }

  /**
   * Replacing a day leaves the new metric as the only content on its key, and every row on
   * another key is kept, with nothing else added.
   */
  lemma ReplaceDayRows(t: Table<Metric>, c: int, d: string, m: Metric)
    requires DayKey(c, d)(m)
    ensures forall r :: r in ReplaceDay(t, c, d, m).rows && DayKey(c, d)(r.val) ==> r.val == m
    ensures forall r: Row<Metric> :: !DayKey(c, d)(r.val) ==> (r in ReplaceDay(t, c, d, m).rows <==> r in t.rows)
  {
    var kept := Select(t.rows, Not(DayKey(c, d)));
    var u := ReplaceDay(t, c, d, m);
    assert u.rows == kept + [Row(t.next, m)];
    forall r | r in u.rows && r != Row(t.next, m) ensures r in t.rows && !DayKey(c, d)(r.val) {
      var i :| 0 <= i < |u.rows| && u.rows[i] == r;
      assert kept[i] == r;
    }
    forall r | r in t.rows && !DayKey(c, d)(r.val) ensures r in u.rows {
      var i :| 0 <= i < |t.rows| && t.rows[i] == r;
      assert r in kept;
    }
  }

  /**
   * After a campaign's days, each campaign-level row on a date the days were filed under
   * carries the figures of the last day reported for that date; every other row is kept, and
   * no other row is added.
   */
  lemma {:induction false} DaysRunRows(t: Table<Metric>, c: int, days: seq<InsightDay>)
    ensures forall r :: r in DaysRun(t, c, days).rows && WrittenBy(c, days, r.val) ==>
      LastDay(days, r.val.date).Some? && r.val == DayMetric(c, r.val.date, LastDay(days, r.val.date).value)
    ensures forall r: Row<Metric> :: !WrittenBy(c, days, r.val) ==> (r in DaysRun(t, c, days).rows <==> r in t.rows)
  {
    if days != [] {
      var init := days[..|days| - 1];
      var d := days[|days| - 1];
      var t0 := DaysRun(t, c, init);
      var u := DaysRun(t, c, days);
      DaysRunRows(t, c, init);
      forall m: Metric ensures WrittenBy(c, days, m) <==> WrittenBy(c, init, m) || (!IsBreakdown(m) && m.campaignId == c && m.date != [] && m.date == DateOfDay(d)) {
        HasDateSnoc(days, m.date);
      }
      if DateOfDay(d) == [] {
        assert u == t0;
      } else {
        var dd := DateOfDay(d);
        var md := DayMetric(c, dd, d);
        ReplaceDayRows(t0, c, dd, md);
        forall r | r in u.rows && WrittenBy(c, days, r.val)
          ensures LastDay(days, r.val.date).Some? && r.val == DayMetric(c, r.val.date, LastDay(days, r.val.date).value)
        {
          if r.val.date == dd {
            assert DayKey(c, dd)(r.val);
          } else {
            assert !DayKey(c, dd)(r.val);
            assert r in t0.rows && WrittenBy(c, init, r.val);
          }
        }
        forall r: Row<Metric> | !WrittenBy(c, days, r.val) ensures r in u.rows <==> r in t.rows {
          assert !DayKey(c, dd)(r.val);
        }
      }
    }
  }

  /**
   * The last day filed under d' by the last campaign row that wrote (c', d'): the figures the
   * row of (c', d') ends up with.
   */
  ghost function LastReport(g: Graph, camps: seq<Row<Campaign>>, c': int, d': string): Option<InsightDay> {
    if camps == [] then None
    else
      var c := camps[|camps| - 1];
      if CampaignTouched(g, c, c', d') then LastDay(InsightsOf(g, c).value, d')
      else LastReport(g, camps[..|camps| - 1], c', d')
  }

  /** A campaign-level row on a (campaign, date) some campaign of the sync wrote. */
  ghost predicate Written(g: Graph, camps: seq<Row<Campaign>>, m: Metric) {
    !IsBreakdown(m) && TouchedBy(g, camps, m.campaignId, m.date)
  }

  /**
   * After the metric sync, each campaign-level row on a written (campaign, date) carries the
   * figures of the last report for that date; every other row, campaign-level or not, is kept,
   * and no other row is added.
   */
  lemma {:induction false} MetricsRunRows(g: Graph, t: Table<Metric>, camps: seq<Row<Campaign>>)
    ensures forall r :: r in MetricsRun(g, t, camps).rows && Written(g, camps, r.val) ==>
      var last := LastReport(g, camps, r.val.campaignId, r.val.date);
      last.Some? && r.val == DayMetric(r.val.campaignId, r.val.date, last.value)
    ensures forall r: Row<Metric> :: !Written(g, camps, r.val) ==> (r in MetricsRun(g, t, camps).rows <==> r in t.rows)
  {
    if camps != [] {
      var init := camps[..|camps| - 1];
      var c := camps[|camps| - 1];
      var t0 := MetricsRun(g, t, init);
      var u := MetricsRun(g, t, camps);
      MetricsRunRows(g, t, init);
      forall m: Metric ensures Written(g, camps, m) <==> Written(g, init, m) || (!IsBreakdown(m) && CampaignTouched(g, c, m.campaignId, m.date)) {
        TouchedBySnoc(g, camps, m.campaignId, m.date);
      }
      match InsightsOf(g, c) {
        case None =>
          assert u == t0;
        case Some(days) =>
          DaysRunRows(t0, c.id, days);
          forall r | r in u.rows && Written(g, camps, r.val)
            ensures var last := LastReport(g, camps, r.val.campaignId, r.val.date);
              last.Some? && r.val == DayMetric(r.val.campaignId, r.val.date, last.value)
          {
            if !WrittenBy(c.id, days, r.val) {
              assert r in t0.rows && Written(g, init, r.val);
            }
          }
      }
    }
  }

  /** Rows broken down to an ad set or ad are never touched by the day replacement. */
  lemma {:induction false} DaysRunKeepsBreakdown(t: Table<Metric>, c: int, days: seq<InsightDay>)
    ensures forall i :: 0 <= i < |t.rows| && IsBreakdown(t.rows[i].val) ==> t.rows[i] in DaysRun(t, c, days).rows
  {
    if days != [] {
      var init := days[..|days| - 1];
      var d := days[|days| - 1];
      var t0 := DaysRun(t, c, init);
      DaysRunKeepsBreakdown(t, c, init);
      if DateOfDay(d) != [] {
        forall i | 0 <= i < |t.rows| && IsBreakdown(t.rows[i].val)
          ensures t.rows[i] in DaysRun(t, c, days).rows
        {
          var del := DeleteWhere(t0, DayKey(c, DateOfDay(d)));
          var k :| 0 <= k < |t0.rows| && t0.rows[k] == t.rows[i];
          assert t0.rows[k] in del.rows;
        }
      }
    }
  }

  /**
   * The metric sync keeps every ad-set or ad breakdown row: only campaign-level rows are
   * replaced.
   */
  lemma {:induction false} MetricsRunKeepsBreakdown(g: Graph, t: Table<Metric>, camps: seq<Row<Campaign>>)
    ensures forall i :: 0 <= i < |t.rows| && IsBreakdown(t.rows[i].val) ==> t.rows[i] in MetricsRun(g, t, camps).rows
  {
    if camps != [] {
      var init := camps[..|camps| - 1];
      var c := camps[|camps| - 1];
      var t0 := MetricsRun(g, t, init);
      MetricsRunKeepsBreakdown(g, t, init);
      if InsightsOf(g, c).Some? {
        DaysRunKeepsBreakdown(t0, c.id, InsightsOf(g, c).value);
        forall i | 0 <= i < |t.rows| && IsBreakdown(t.rows[i].val)
          ensures t.rows[i] in MetricsRun(g, t, camps).rows
        {
          var k :| 0 <= k < |t0.rows| && t0.rows[k] == t.rows[i];
        }
      }
    }
  }

  lemma {:induction false} MetricsRunAppend(g: Graph, t: Table<Metric>, a: seq<Row<Campaign>>, b: seq<Row<Campaign>>)
    ensures MetricsRun(g, t, a + b) == MetricsRun(g, MetricsRun(g, t, a), b)
    ensures MetricsCount(g, a + b) == MetricsCount(g, a) + MetricsCount(g, b)
  {
    if b == [] {
      assert a + b == a;
    } else {
      assert (a + b)[..|a + b| - 1] == a + b[..|b| - 1];
      MetricsRunAppend(g, t, a, b[..|b| - 1]);
    }
  }

  /**
   * A campaign that is skipped or whose insights fetch fails contributes nothing, and the sync
   * carries on with the campaigns after it exactly as if it were not there.
   */
  lemma MetricsSkipsFailed(g: Graph, t: Table<Metric>, a: seq<Row<Campaign>>, c: Row<Campaign>, b: seq<Row<Campaign>>)
    requires InsightsOf(g, c).None?
    ensures MetricsRun(g, t, a + [c] + b) == MetricsRun(g, t, a + b)
    ensures MetricsCount(g, a + [c] + b) == MetricsCount(g, a + b)
  {
    MetricsRunAppend(g, t, a + [c], b);
    MetricsRunAppend(g, t, a, [c]);
    MetricsRunAppend(g, t, a, b);
    assert [c][..0] == [];
  }

  // ---------------------------------------------------------------------------------------
  // The sync as the code runs it
  // ---------------------------------------------------------------------------------------

  /** The loop over one campaign's reported days: replace each dated day, count the writes. */
  method WriteDays(db: Database, campaign: int, days: seq<InsightDay>) returns (written: nat)
    modifies db`metrics
    ensures db.metrics == DaysRun(old(db.metrics), campaign, days)
    ensures written == DaysCount(days)
  {
    written := 0;
    var j := 0;
    while j < |days|
      invariant 0 <= j <= |days|
      invariant db.metrics == DaysRun(old(db.metrics), campaign, days[..j])
      invariant written == DaysCount(days[..j])
    {
      assert days[..j + 1][..j] == days[..j];
      var day := days[j];
      var date := Prefix(day.dateStart, 10);
      if date != [] {
        var conversions := CountConversions(day.actions);
        var row := Metric(campaign, None, None, date, DecimalOf(day.spend), day.impressions, day.clicks,
          conversions, DecimalOf(day.ctr), DecimalOf(day.cpc), DecimalOf(day.cpm));
        assert row == DayMetric(campaign, date, day);
        db.metrics := DeleteWhere(db.metrics, DayKey(campaign, date));
        db.metrics := Insert(db.metrics, row);
        written := written + 1;
      }
      j := j + 1;
    }
    assert days[..j] == days;
  }

  /**
   * `sync_metrics`: the campaign rows are read once, and the number of day rows written is
   * returned. The reporting window is part of the remote answer.
   */
  method SyncMetrics(g: Graph, db: Database) returns (synced: nat)
    modifies db`metrics
    ensures db.metrics == MetricsRun(g, old(db.metrics), db.campaigns.rows)
    ensures synced == MetricsCount(g, db.campaigns.rows)
    ensures WellFormed(old(db.metrics)) ==> WellFormed(db.metrics)
  {
    var camps := db.campaigns.rows;
    synced := 0;
    var i := 0;
    while i < |camps|
      invariant 0 <= i <= |camps|
      invariant db.metrics == MetricsRun(g, old(db.metrics), camps[..i])
      invariant synced == MetricsCount(g, camps[..i])
    {
      MetricsRunStep(g, old(db.metrics), camps, i);
      var camp := camps[i];
      if camp.val.metaId.Some? && camp.val.metaId.value != [] {
        var fetched := GetAllPages(g.insights(camp.val.metaId.value));
        if fetched.Fetched? {
          var written := WriteDays(db, camp.id, fetched.items);
          synced := synced + written;
        }
      }
      i := i + 1;
    }
    assert camps[..i] == camps;
  }
}
