/**
 * The local database the dashboard and the sync tools share: one record type per table the
 * reconciliation code touches, and the database itself as an object whose tables the sync
 * operations replace one write at a time.
 */
module Store {
  import opened Common
  import opened Tables

  /** Campaign, ad-set and ad status: the schema's closed list. */
  datatype Status = Active | Paused | Completed

  /** Lead pipeline stage, in pipeline order. */
  datatype Stage = New | Contacted | Qualified | Enrolled

  /** Competitor post format. */
  datatype ContentType = Image | Carousel | Reel | Video | Story

  /** A budget the ads platform reports in minor units, stored as `float(raw) / 100`; the arithmetic is not modelled. */
  datatype Money = MajorUnitsOf(raw: string)

  /** A decimal the ads platform reports as text, stored as `float(text)`; the conversion is not modelled. */
  datatype Decimal = DecimalOf(text: string)

  /** A post's engagement estimate: the literal 0 for a profile without followers, else (likes + comments) / followers rounded to four places. */
  datatype Engagement = NoFollowers | Ratio(interactions: int, followers: int)

  /** `ad_campaigns`: metaId is null for campaigns entered by hand. */
  datatype Campaign = Campaign(
    metaId: Option<string>, name: string, objective: Option<string>, status: Status,
    dailyBudget: Option<Money>, lifetimeBudget: Option<Money>,
    startDate: Option<string>, endDate: Option<string>, notes: Option<string>)

  /** `ad_sets`, owned by a campaign row. */
  datatype AdSet = AdSet(campaignId: int, metaId: Option<string>, name: string, status: Status, targeting: Option<string>)

  /** `ads`, owned by an ad-set row. */
  datatype Ad = Ad(adSetId: int, metaId: Option<string>, name: string, status: Status, creative: Option<string>)

  /** `ad_metrics`: one day of a campaign, optionally broken down to an ad set or an ad. */
  datatype Metric = Metric(
    campaignId: int, adSetId: Option<int>, adId: Option<int>, date: string,
    spend: Decimal, impressions: int, clicks: int, conversions: int,
    ctr: Decimal, cpc: Decimal, cpm: Decimal)

  /** `leads`. */
  datatype Lead = Lead(
    name: string, email: Option<string>, phone: Option<string>, source: string,
    campaignName: Option<string>, adName: Option<string>, formName: Option<string>,
    stage: Stage, notes: Option<string>)

  /** `lead_activity`: one entry of a lead's audit trail. */
  datatype Activity = Activity(leadId: int, action: string, details: string)

  /** `competitors`: handle is UNIQUE. */
  datatype Competitor = Competitor(name: string, handle: string, platform: string, profileUrl: Option<string>, notes: Option<string>)

  /** `competitor_snapshots`: UNIQUE(competitor, date). */
  datatype Snapshot = Snapshot(
    competitorId: int, date: string, followers: Option<int>, following: Option<int>,
    totalPosts: Option<int>, bio: Option<string>)

  /** `competitor_posts`. */
  datatype CompetitorPost = CompetitorPost(
    competitorId: int, url: string, postedAt: string, contentType: ContentType,
    captionSnippet: Option<string>, likes: int, comments: int, engagement: Option<Engagement>,
    theme: Option<string>, notes: Option<string>, notable: bool)

  /** No two competitors share a handle. */
  ghost predicate HandlesUnique(t: Table<Competitor>) {
    forall i, j :: 0 <= i < j < |t.rows| ==> t.rows[i].val.handle != t.rows[j].val.handle
  }

  /** No two snapshots share (competitor, date). */
  ghost predicate SnapshotKeysUnique(t: Table<Snapshot>) {
    forall i, j :: 0 <= i < j < |t.rows| ==>
      t.rows[i].val.competitorId != t.rows[j].val.competitorId || t.rows[i].val.date != t.rows[j].val.date
  }

  /** Every activity row points at a lead key already handed out. */
  ghost predicate LeadTablesValid(leads: Table<Lead>, activities: Table<Activity>) {
    && WellFormed(leads) && WellFormed(activities)
    && (forall i :: 0 <= i < |activities.rows| ==> activities.rows[i].val.leadId < leads.next)
  }

  /** The competitor tables with the schema's UNIQUE constraints. */
  ghost predicate CompetitorTablesValid(competitors: Table<Competitor>, snapshots: Table<Snapshot>, posts: Table<CompetitorPost>) {
    && WellFormed(competitors) && WellFormed(snapshots) && WellFormed(posts)
    && HandlesUnique(competitors)
    && SnapshotKeysUnique(snapshots)
  }

  /** The database file: every table the reconciliation code reads or writes. */
  class Database {
    var campaigns: Table<Campaign>
    var adSets: Table<AdSet>
    var ads: Table<Ad>
    var metrics: Table<Metric>
    var leads: Table<Lead>
    var activities: Table<Activity>
    var competitors: Table<Competitor>
    var snapshots: Table<Snapshot>
    var posts: Table<CompetitorPost>

    /**
     * Keys are handed out by AUTOINCREMENT, activity rows point at lead keys already handed out,
     * and the UNIQUE constraints of the schema hold.
     */
    ghost predicate Valid()
      reads this
    {
      && WellFormed(campaigns) && WellFormed(adSets) && WellFormed(ads) && WellFormed(metrics)
      && LeadTablesValid(leads, activities)
      && CompetitorTablesValid(competitors, snapshots, posts)
    }

    /** A freshly initialised database: every table empty. */
    constructor ()
      ensures Valid()
      ensures campaigns.rows == [] && adSets.rows == [] && ads.rows == [] && metrics.rows == []
      ensures leads.rows == [] && activities.rows == []
      ensures competitors.rows == [] && snapshots.rows == [] && posts.rows == []
    {
      campaigns, adSets, ads, metrics := Empty(), Empty(), Empty(), Empty();
      leads, activities := Empty(), Empty();
      competitors, snapshots, posts := Empty(), Empty(), Empty();
      new;
      assert LeadTablesValid(leads, activities);
      assert CompetitorTablesValid(competitors, snapshots, posts);
    }
  }
}
