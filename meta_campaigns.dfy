/**
 * Campaign, ad-set and ad reconciliation: the remote campaign tree of an ad account is walked
 * depth first, and every record is upserted into its local table by its platform id. An HTTP
 * error anywhere below the top listing propagates and ends the sync, leaving the writes made
 * so far (every statement commits on its own).
 */
module MetaCampaigns {
  import opened Common
  import opened Tables
  import opened Store
  import opened MetaApi

  // ---------------------------------------------------------------------------------------
  // Field conversions
  // ---------------------------------------------------------------------------------------

  /** `value[:10] or None`: the date part of a timestamp, None when there is none. */
  function DateOf(s: string): (r: Option<string>)
    ensures r.None? <==> s == []
    ensures r.Some? ==> |r.value| <= 10 && StartsWith(s, r.value)
  {
    var d := Prefix(s, 10);
    if d == [] then None else Some(d)
  }

  /** A budget is stored (in major units) only when the platform reports one. */
  function BudgetOf(raw: string): (r: Option<Money>)
    ensures r.None? <==> raw == []
    ensures r.Some? ==> r.value.raw == raw
  {
    if raw == [] then None else Some(MajorUnitsOf(raw))
  }

  /** The targeting summary: the rendering cut to 500 characters, None when there is no targeting. */
  function TargetingSummary(t: Option<string>): (r: Option<string>)
    ensures r.None? <==> t.None?
    ensures r.Some? ==> |r.value| <= 500 && StartsWith(t.value, r.value)
    ensures r.Some? && |t.value| <= 500 ==> r.value == t.value
  {
    if t.None? then None else Some(Prefix(t.value, 500))
  }

  /**
   * The creative summary: the creative's title, or its body when the title is empty, cut to
   * 200 characters; None when both are empty.
   */
  function CreativeSummary(title: string, body: string): (r: Option<string>)
    ensures r.None? <==> title == [] && body == []
    ensures r.Some? ==> 0 < |r.value| <= 200
    ensures r.Some? && title != [] ==> StartsWith(title, r.value)
    ensures r.Some? && title == [] ==> StartsWith(body, r.value)
  {
    var s := if title != [] then title else body;
    if s == [] then None else Some(Prefix(s, 200))
  }

  // ---------------------------------------------------------------------------------------
  // How each level reconciles
  // ---------------------------------------------------------------------------------------

  /** The local row a newly seen campaign becomes. */
  function NewCampaign(x: RemoteCampaign): Campaign {
    Campaign(Some(x.id), x.name, x.objective, MapStatus(x.status), BudgetOf(x.dailyBudget),
      BudgetOf(x.lifetimeBudget), DateOf(x.startTime), DateOf(x.stopTime), None)
  }

  /** An update overwrites every synced column and keeps the notes entered locally. */
  function RefreshCampaign(r: Campaign, x: RemoteCampaign): Campaign {
    r.(name := x.name, objective := x.objective, status := MapStatus(x.status),
       dailyBudget := BudgetOf(x.dailyBudget), lifetimeBudget := BudgetOf(x.lifetimeBudget),
       startDate := DateOf(x.startTime), endDate := DateOf(x.stopTime))
  }

  function CampaignSync(): Keyed<Campaign, RemoteCampaign> {
    Keyed((r: Campaign) => r.metaId, (x: RemoteCampaign) => x.id, NewCampaign, RefreshCampaign)
  }

  /** A new ad set is filed under the local campaign found for its parent. */
  function NewAdSet(parent: int, x: RemoteAdSet): AdSet {
    AdSet(parent, Some(x.id), x.name, MapStatus(x.status), TargetingSummary(x.targeting))
  }

  /** An update leaves `campaign_id` as it was. */
  function RefreshAdSet(r: AdSet, x: RemoteAdSet): AdSet {
    r.(name := x.name, status := MapStatus(x.status), targeting := TargetingSummary(x.targeting))
  }

  function AdSetSync(parent: int): Keyed<AdSet, RemoteAdSet> {
    Keyed((r: AdSet) => r.metaId, (x: RemoteAdSet) => x.id,
      (x: RemoteAdSet) => NewAdSet(parent, x), RefreshAdSet)
  }

  function NewAd(parent: int, x: RemoteAd): Ad {
    Ad(parent, Some(x.id), x.name, MapStatus(x.status), CreativeSummary(x.title, x.body))
  }

  /** An update leaves `ad_set_id` as it was. */
  function RefreshAd(r: Ad, x: RemoteAd): Ad {
    r.(name := x.name, status := MapStatus(x.status), creative := CreativeSummary(x.title, x.body))
  }

  function AdSync(parent: int): Keyed<Ad, RemoteAd> {
    Keyed((r: Ad) => r.metaId, (x: RemoteAd) => x.id, (x: RemoteAd) => NewAd(parent, x), RefreshAd)
  }

  /** All three reconciliations obey the upsert laws, so each is idempotent and keeps ids unique. */
  lemma SyncsLawful(parent: int)
    ensures Lawful(CampaignSync()) && Lawful(AdSetSync(parent)) && Lawful(AdSync(parent))
  {
  }

  /** `WHERE meta_campaign_id = ?` */
  function CampaignWithMetaId(id: string): Campaign -> bool {
    (c: Campaign) => c.metaId == Some(id)
  }

  /** `WHERE meta_adset_id = ?` */
  function AdSetWithMetaId(id: string): AdSet -> bool {
    (a: AdSet) => a.metaId == Some(id)
  }

  // ---------------------------------------------------------------------------------------
  // The sync as a function of the remote data and the three tables
  // ---------------------------------------------------------------------------------------

  /** The three tables the campaign sync writes. */
  datatype AdState = AdState(campaigns: Table<Campaign>, adSets: Table<AdSet>, ads: Table<Ad>)

  /** The tables after a sync, and whether it returned normally (false: an HTTP error propagated). */
  datatype Run = Run(st: AdState, ok: bool)

  ghost predicate StateWellFormed(s: AdState) {
    WellFormed(s.campaigns) && WellFormed(s.adSets) && WellFormed(s.ads)
  }

  /** Ads of one ad set: fetched first, then written only if the ad set has a local row. */
  function AdsSync(g: Graph, s: AdState, adSet: string): (r: Run)
    ensures r.st.campaigns == s.campaigns && r.st.adSets == s.adSets
    ensures StateWellFormed(s) ==> StateWellFormed(r.st)
  {
    match AllPages(g.ads(adSet))
    case HttpFailure => Run(s, false)
    case Fetched(xs) =>
      match FirstId(s.adSets.rows, AdSetWithMetaId(adSet))
      case None => Run(s, true)
      case Some(p) =>
        UpsertAllWellFormed(s.ads, xs, AdSync(p));
        Run(s.(ads := UpsertAll(s.ads, xs, AdSync(p))), true)
  }

  /** The ad-set loop: upsert one ad set, sync its ads, stop at the first error. */
  function AdSetsLoop(g: Graph, s: AdState, xs: seq<RemoteAdSet>, parent: int): (r: Run)
    ensures r.st.campaigns == s.campaigns
    ensures StateWellFormed(s) ==> StateWellFormed(r.st)
    decreases |xs|
  {
    if xs == [] then Run(s, true)
    else
      var s1 := s.(adSets := Upsert(s.adSets, xs[0], AdSetSync(parent)));
      var r1 := AdsSync(g, s1, xs[0].id);
      if !r1.ok then r1 else AdSetsLoop(g, r1.st, xs[1..], parent)
  }

  /** Ad sets of one campaign: fetched first, then written only if the campaign has a local row. */
  function AdSetsSync(g: Graph, s: AdState, campaign: string): (r: Run)
    ensures r.st.campaigns == s.campaigns
    ensures StateWellFormed(s) ==> StateWellFormed(r.st)
  {
    match AllPages(g.adSets(campaign))
    case HttpFailure => Run(s, false)
    case Fetched(xs) =>
      match FirstId(s.campaigns.rows, CampaignWithMetaId(campaign))
      case None => Run(s, true)
      case Some(p) => AdSetsLoop(g, s, xs, p)
  }

  /** The campaign loop: upsert one campaign, sync its ad sets, stop at the first error. */
  function CampaignsLoop(g: Graph, s: AdState, xs: seq<RemoteCampaign>): (r: Run)
    ensures StateWellFormed(s) ==> StateWellFormed(r.st)
    decreases |xs|
  {
    if xs == [] then Run(s, true)
    else
      var s1 := s.(campaigns := Upsert(s.campaigns, xs[0], CampaignSync()));
      var r1 := AdSetsSync(g, s1, xs[0].id);
      if !r1.ok then r1 else CampaignsLoop(g, r1.st, xs[1..])
  }

  /** The whole campaign sync of the configured ad account. */
  function CampaignsSync(g: Graph, c: Config, s: AdState): (r: Run)
    ensures StateWellFormed(s) ==> StateWellFormed(r.st)
  {
    match AllPages(g.campaigns(c.adAccountId))
    case HttpFailure => Run(s, false)
    case Fetched(xs) => CampaignsLoop(g, s, xs)
  }

  // ---------------------------------------------------------------------------------------
  // Properties
  // ---------------------------------------------------------------------------------------

  /** Upserting the first record, then the rest, is upserting them all. */
  lemma UpsertFront<R, X>(t: Table<R>, xs: seq<X>, k: Keyed<R, X>)
    requires xs != []
    ensures UpsertAll(Upsert(t, xs[0], k), xs[1..], k) == UpsertAll(t, xs, k)
  {
    UpsertAllAppend(t, [xs[0]], xs[1..], k);
    assert [xs[0]][..0] == [];
    assert [xs[0]] + xs[1..] == xs;
  }

  /**
   * A campaign loop that completes leaves the campaign table exactly as upserting the listed
   * campaigns one after another would: the ad-set and ad syncs in between never touch it, and
   * if no two campaign rows shared a platform id before, none do after.
   */
  lemma {:induction false} CampaignsLoopUpserts(g: Graph, s: AdState, xs: seq<RemoteCampaign>)
    requires CampaignsLoop(g, s, xs).ok
    ensures CampaignsLoop(g, s, xs).st.campaigns == UpsertAll(s.campaigns, xs, CampaignSync())
    decreases |xs|
  {
    if xs != [] {
      var s1 := s.(campaigns := Upsert(s.campaigns, xs[0], CampaignSync()));
      var r1 := AdSetsSync(g, s1, xs[0].id);
      CampaignsLoopUpserts(g, r1.st, xs[1..]);
      UpsertFront(s.campaigns, xs, CampaignSync());
    }
  }

  /**
   * A sync that completes returns with every listed campaign present exactly once more than
   * none: the campaign table is the upsert of the listing, each listed id has a row, and ids
   * unique before stay unique.
   */
  lemma CampaignsSyncUpserts(g: Graph, c: Config, s: AdState)
    requires CampaignsSync(g, c, s).ok
    ensures AllPages(g.campaigns(c.adAccountId)).Fetched?
    ensures var xs := AllPages(g.campaigns(c.adAccountId)).items;
      && CampaignsSync(g, c, s).st.campaigns == UpsertAll(s.campaigns, xs, CampaignSync())
      && Covers(CampaignsSync(g, c, s).st.campaigns, xs, CampaignSync())
      && (KeysUnique(s.campaigns, CampaignSync().key) ==> KeysUnique(CampaignsSync(g, c, s).st.campaigns, CampaignSync().key))
  {
    var xs := AllPages(g.campaigns(c.adAccountId)).items;
    SyncsLawful(0);
    CampaignsLoopUpserts(g, s, xs);
    UpsertAllCovers(s.campaigns, xs, CampaignSync());
    if KeysUnique(s.campaigns, CampaignSync().key) {
      UpsertAllUnique(s.campaigns, xs, CampaignSync());
    }
  }

  /**
   * Rerunning a completed campaign sync against the same remote data completes too, and
   * changes nothing: no campaign, ad-set or ad row changes and none is added.
   */
  lemma CampaignsSyncIdempotent(g: Graph, c: Config, s: AdState)
    requires CampaignsSync(g, c, s).ok
    ensures CampaignsSync(g, c, CampaignsSync(g, c, s).st).ok
    ensures CampaignsSync(g, c, CampaignsSync(g, c, s).st).st == CampaignsSync(g, c, s).st
  {
    var xs := AllPages(g.campaigns(c.adAccountId)).items;
    var s1 := CampaignsSync(g, c, s).st;
    var s2 := CampaignsSync(g, c, s1).st;
    CampaignsSyncUpserts(g, c, s);
    CampaignsLoopOk(g, s, xs);
    CampaignsLoopOk(g, s1, xs);
    CampaignsSyncUpserts(g, c, s1);
    SyncsLawful(0);
    UpsertAllIdempotent(s.campaigns, xs, CampaignSync());
    assert s2.campaigns == s1.campaigns;
    FiledSyncs(0);
    var sets := AdSetsFiled(g, s1.campaigns, xs);
    CampaignsLoopFiled(g, s, xs, s1.campaigns, s1.adSets);
    CampaignsLoopFiled(g, s1, xs, s1.campaigns, s2.adSets);
    UpsertAllIdempotent(s.adSets, sets, AdSetSyncFiled());
    assert s2.adSets == s1.adSets;
    UpsertAllIdempotent(s.ads, AdsFiled(g, s1.adSets, sets), AdSyncFiled());
  }

  /** A completed ad-set loop leaves the ad-set table as the upsert of the listed ad sets. */
  lemma {:induction false} AdSetsLoopUpserts(g: Graph, s: AdState, xs: seq<RemoteAdSet>, parent: int)
    requires AdSetsLoop(g, s, xs, parent).ok
    ensures AdSetsLoop(g, s, xs, parent).st.adSets == UpsertAll(s.adSets, xs, AdSetSync(parent))
    decreases |xs|
  {
    if xs != [] {
      var s1 := s.(adSets := Upsert(s.adSets, xs[0], AdSetSync(parent)));
      var r1 := AdsSync(g, s1, xs[0].id);
      AdSetsLoopUpserts(g, r1.st, xs[1..], parent);
      UpsertFront(s.adSets, xs, AdSetSync(parent));
    }
  }

  /**
   * Ad sets keep the campaign they were first filed under: an update never changes
   * `campaign_id`, and every inserted ad set belongs to the parent found for the listing.
   */
  lemma {:induction false} AdSetsKeepParent(t: Table<AdSet>, xs: seq<RemoteAdSet>, parent: int)
    ensures var u := UpsertAll(t, xs, AdSetSync(parent));
      && |t.rows| <= |u.rows|
      && (forall i :: 0 <= i < |t.rows| ==> u.rows[i].val.campaignId == t.rows[i].val.campaignId)
      && (forall i :: |t.rows| <= i < |u.rows| ==> u.rows[i].val.campaignId == parent)
  {
    if xs != [] {
      var u0 := UpsertAll(t, xs[..|xs| - 1], AdSetSync(parent));
      AdSetsKeepParent(t, xs[..|xs| - 1], parent);
      UpsertAdSetKeepsParent(u0, xs[|xs| - 1], parent);
    }
  }

  /** One ad set reconciled: existing rows keep their campaign, an inserted one gets the parent. */
  lemma UpsertAdSetKeepsParent(t: Table<AdSet>, x: RemoteAdSet, parent: int)
    ensures var u := Upsert(t, x, AdSetSync(parent));
      && |t.rows| <= |u.rows|
      && (forall i :: 0 <= i < |t.rows| ==> u.rows[i].val.campaignId == t.rows[i].val.campaignId)
      && (forall i :: |t.rows| <= i < |u.rows| ==> u.rows[i].val.campaignId == parent)
  {
    var k := AdSetSync(parent);
    if !HasKey(t, k.key, x.id) {
      assert Upsert(t, x, k).rows == t.rows + [Row(t.next, NewAdSet(parent, x))];
    } else {
      var u := UpdateWhere(t, r => k.key(r) == Some(k.xkey(x)), r => k.apply(r, x));
      assert Upsert(t, x, k) == u;
      forall i | 0 <= i < |t.rows| ensures u.rows[i].val.campaignId == t.rows[i].val.campaignId {
        if t.rows[i].val.metaId == Some(x.id) {
          assert u.rows[i].val == RefreshAdSet(t.rows[i].val, x);
        }
      }
    }
  }

  /**
   * Without a local row for the parent nothing is written: an ad-set listing whose campaign is
   * unknown and an ad listing whose ad set is unknown leave all three tables as they were.
   */
  lemma OrphansWriteNothing(g: Graph, s: AdState, campaign: string, adSet: string)
    ensures !Exists(s.campaigns.rows, CampaignWithMetaId(campaign)) ==> AdSetsSync(g, s, campaign).st == s
    ensures !Exists(s.adSets.rows, AdSetWithMetaId(adSet)) ==> AdsSync(g, s, adSet).st == s
  {
  }

  // ---------------------------------------------------------------------------------------
  // The whole tree as three flat upsert sequences
  // ---------------------------------------------------------------------------------------

  /** A record as the sync files it: the local key of the parent it was listed under, and the record. */
  datatype Filed<X> = Filed(parent: int, rec: X)

  function FileUnder<X>(p: int): X -> Filed<X> {
    (x: X) => Filed(p, x)
  }

  /** The ad-set reconciliation with the parent carried by each record instead of fixed. */
  function AdSetSyncFiled(): Keyed<AdSet, Filed<RemoteAdSet>> {
    Keyed((r: AdSet) => r.metaId, (f: Filed<RemoteAdSet>) => f.rec.id,
      (f: Filed<RemoteAdSet>) => NewAdSet(f.parent, f.rec), (r: AdSet, f: Filed<RemoteAdSet>) => RefreshAdSet(r, f.rec))
  }

  /** The ad reconciliation with the parent carried by each record instead of fixed. */
  function AdSyncFiled(): Keyed<Ad, Filed<RemoteAd>> {
    Keyed((r: Ad) => r.metaId, (f: Filed<RemoteAd>) => f.rec.id,
      (f: Filed<RemoteAd>) => NewAd(f.parent, f.rec), (r: Ad, f: Filed<RemoteAd>) => RefreshAd(r, f.rec))
  }

  /** Filing every record under p reconciles as the sync under the fixed parent p does. */
  lemma FiledSyncs(p: int)
    ensures Lawful(AdSetSyncFiled()) && Lawful(AdSyncFiled())
    ensures SameSync(AdSetSync(p), AdSetSyncFiled(), FileUnder(p))
    ensures SameSync(AdSync(p), AdSyncFiled(), FileUnder(p))
  {
  }

  /** The ad sets listed under a campaign, filed under the campaign's key in C. */
  function AdSetsOf(g: Graph, C: Table<Campaign>, campaign: string): seq<Filed<RemoteAdSet>> {
    match AllPages(g.adSets(campaign))
    case HttpFailure => []
    case Fetched(ys) =>
      match FirstId(C.rows, CampaignWithMetaId(campaign))
      case None => []
      case Some(p) => MapRecords(FileUnder(p), ys)
  }

  /** The ads listed under an ad set, filed under the ad set's key in A. */
  function AdsOf(g: Graph, A: Table<AdSet>, adSet: string): seq<Filed<RemoteAd>> {
    match AllPages(g.ads(adSet))
    case HttpFailure => []
    case Fetched(zs) =>
      match FirstId(A.rows, AdSetWithMetaId(adSet))
      case None => []
      case Some(p) => MapRecords(FileUnder(p), zs)
  }

  /** Every ad set the campaign loop over xs upserts, in order, filed under its campaign's key in C. */
  function AdSetsFiled(g: Graph, C: Table<Campaign>, xs: seq<RemoteCampaign>): seq<Filed<RemoteAdSet>>
    decreases |xs|
  {
    if xs == [] then [] else AdSetsOf(g, C, xs[0].id) + AdSetsFiled(g, C, xs[1..])
  }

  /** Every ad the syncs of the ad sets ys upsert, in order, filed under its ad set's key in A. */
  function AdsFiled(g: Graph, A: Table<AdSet>, ys: seq<Filed<RemoteAdSet>>): seq<Filed<RemoteAd>>
    decreases |ys|
  {
    if ys == [] then [] else AdsOf(g, A, ys[0].rec.id) + AdsFiled(g, A, ys[1..])
  }

  lemma {:induction false} AdsFiledAppend(g: Graph, A: Table<AdSet>, a: seq<Filed<RemoteAdSet>>, b: seq<Filed<RemoteAdSet>>)
    ensures AdsFiled(g, A, a + b) == AdsFiled(g, A, a) + AdsFiled(g, A, b)
    decreases |a|
  {
    if a == [] {
      assert a + b == b;
    } else {
      assert (a + b)[0] == a[0] && (a + b)[1..] == a[1..] + b;
      AdsFiledAppend(g, A, a[1..], b);
    }
  }

  /** Every campaign key found in t is found, the same, in u. */
  ghost predicate CampaignsAgree(t: Table<Campaign>, u: Table<Campaign>) {
    forall c :: FirstId(t.rows, CampaignWithMetaId(c)).Some? ==>
      FirstId(u.rows, CampaignWithMetaId(c)) == FirstId(t.rows, CampaignWithMetaId(c))
  }

  /** Every ad-set key found in t is found, the same, in u. */
  ghost predicate AdSetsAgree(t: Table<AdSet>, u: Table<AdSet>) {
    forall a :: FirstId(t.rows, AdSetWithMetaId(a)).Some? ==>
      FirstId(u.rows, AdSetWithMetaId(a)) == FirstId(t.rows, AdSetWithMetaId(a))
  }

  /** Upserting campaigns never changes which row a campaign id already leads to. */
  lemma CampaignsAgreeUpsert(t: Table<Campaign>, xs: seq<RemoteCampaign>)
    ensures CampaignsAgree(t, UpsertAll(t, xs, CampaignSync()))
  {
    var u := UpsertAll(t, xs, CampaignSync());
    SyncsLawful(0);
    UpsertAllKeepsRows(t, xs, CampaignSync());
    forall c | FirstId(t.rows, CampaignWithMetaId(c)).Some?
      ensures FirstId(u.rows, CampaignWithMetaId(c)) == FirstId(t.rows, CampaignWithMetaId(c))
    {
      FirstIdKept(t.rows, u.rows, CampaignWithMetaId(c));
    }
  }

  /** Upserting ad sets, under whatever parents, never changes which row an ad-set id already leads to. */
  lemma AdSetsAgreeUpsert<X(!new)>(t: Table<AdSet>, xs: seq<X>, k: Keyed<AdSet, X>)
    requires Lawful(k) && forall r :: k.key(r) == r.metaId
    ensures AdSetsAgree(t, UpsertAll(t, xs, k))
  {
    var u := UpsertAll(t, xs, k);
    UpsertAllKeepsRows(t, xs, k);
    forall a | FirstId(t.rows, AdSetWithMetaId(a)).Some?
      ensures FirstId(u.rows, AdSetWithMetaId(a)) == FirstId(t.rows, AdSetWithMetaId(a))
    {
      FirstIdKept(t.rows, u.rows, AdSetWithMetaId(a));
    }
  }

  /** The ad set just upserted is found by its id. */
  lemma AdSetFound(t: Table<AdSet>, y: RemoteAdSet, p: int)
    ensures FirstId(Upsert(t, y, AdSetSync(p)).rows, AdSetWithMetaId(y.id)).Some?
  {
    var u := Upsert(t, y, AdSetSync(p));
    SyncsLawful(p);
    UpsertFinds(t, y, AdSetSync(p));
    var i :| 0 <= i < |u.rows| && u.rows[i].val.metaId == Some(y.id);
    assert AdSetWithMetaId(y.id)(u.rows[i].val);
  }

  /** The campaign just upserted is found by its id. */
  lemma CampaignFound(t: Table<Campaign>, x: RemoteCampaign)
    ensures FirstId(Upsert(t, x, CampaignSync()).rows, CampaignWithMetaId(x.id)).Some?
  {
    var u := Upsert(t, x, CampaignSync());
    SyncsLawful(0);
    UpsertFinds(t, x, CampaignSync());
    var i :| 0 <= i < |u.rows| && u.rows[i].val.metaId == Some(x.id);
    assert CampaignWithMetaId(x.id)(u.rows[i].val);
  }

  /** The ads of one ad set, as a flat upsert sequence, when the ad set is found as in A. */
  lemma AdsSyncFiled(g: Graph, s: AdState, adSet: string, A: Table<AdSet>)
    requires FirstId(s.adSets.rows, AdSetWithMetaId(adSet)) == FirstId(A.rows, AdSetWithMetaId(adSet))
    ensures AdsSync(g, s, adSet).st.ads == UpsertAll(s.ads, AdsOf(g, A, adSet), AdSyncFiled())
  {
    match AllPages(g.ads(adSet)) {
      case HttpFailure =>
      case Fetched(zs) =>
        match FirstId(s.adSets.rows, AdSetWithMetaId(adSet)) {
          case None =>
          case Some(p) =>
            FiledSyncs(p);
            UpsertAllSame(s.ads, zs, AdSync(p), AdSyncFiled(), FileUnder(p));
        }
    }
  }

  /**
   * The ads written by a completed ad-set loop, as a flat upsert sequence: each ad filed under
   * the key its ad set has in A, which the loop's final ad-set table agrees with.
   */
  lemma {:induction false} AdSetsLoopFiled(g: Graph, s: AdState, ys: seq<RemoteAdSet>, p: int, A: Table<AdSet>)
    requires AdSetsLoop(g, s, ys, p).ok
    requires AdSetsAgree(AdSetsLoop(g, s, ys, p).st.adSets, A)
    ensures AdSetsLoop(g, s, ys, p).st.ads == UpsertAll(s.ads, AdsFiled(g, A, MapRecords(FileUnder(p), ys)), AdSyncFiled())
    decreases |ys|
  {
    if ys != [] {
      var k := AdSetSync(p);
      var s1 := s.(adSets := Upsert(s.adSets, ys[0], k));
      var r1 := AdsSync(g, s1, ys[0].id);
      var rest := ys[1..];
      assert AdSetsLoop(g, s, ys, p) == AdSetsLoop(g, r1.st, rest, p);
      AdSetsLoopFiled(g, r1.st, rest, p, A);
      FirstAdSetAgrees(g, s, ys, p, A);
      AdsSyncFiled(g, s1, ys[0].id, A);
      var fs := MapRecords(FileUnder(p), ys);
      assert fs[0].rec == ys[0] && fs[1..] == MapRecords(FileUnder(p), rest);
      UpsertAllAppend(s.ads, AdsOf(g, A, ys[0].id), AdsFiled(g, A, MapRecords(FileUnder(p), rest)), AdSyncFiled());
    }
  }

  /** The ad set a loop upserts first is found in A as right after its upsert. */
  lemma FirstAdSetAgrees(g: Graph, s: AdState, ys: seq<RemoteAdSet>, p: int, A: Table<AdSet>)
    requires ys != [] && AdSetsLoop(g, s, ys, p).ok
    requires AdSetsAgree(AdSetsLoop(g, s, ys, p).st.adSets, A)
    ensures var t1 := Upsert(s.adSets, ys[0], AdSetSync(p));
      FirstId(t1.rows, AdSetWithMetaId(ys[0].id)) == FirstId(A.rows, AdSetWithMetaId(ys[0].id))
  {
    var k := AdSetSync(p);
    var s1 := s.(adSets := Upsert(s.adSets, ys[0], k));
    var r1 := AdsSync(g, s1, ys[0].id);
    assert AdSetsLoop(g, s, ys, p) == AdSetsLoop(g, r1.st, ys[1..], p);
    SyncsLawful(p);
    AdSetsLoopUpserts(g, r1.st, ys[1..], p);
    AdSetsAgreeUpsert(s1.adSets, ys[1..], k);
    AdSetFound(s.adSets, ys[0], p);
  }

  /** One campaign's ad sets and ads, as flat upsert sequences. */
  lemma AdSetsSyncFiled(g: Graph, s: AdState, campaign: string, C: Table<Campaign>, A: Table<AdSet>)
    requires AdSetsSync(g, s, campaign).ok
    requires FirstId(s.campaigns.rows, CampaignWithMetaId(campaign)) == FirstId(C.rows, CampaignWithMetaId(campaign))
    requires AdSetsAgree(AdSetsSync(g, s, campaign).st.adSets, A)
    ensures AdSetsSync(g, s, campaign).st.adSets == UpsertAll(s.adSets, AdSetsOf(g, C, campaign), AdSetSyncFiled())
    ensures AdSetsSync(g, s, campaign).st.ads == UpsertAll(s.ads, AdsFiled(g, A, AdSetsOf(g, C, campaign)), AdSyncFiled())
  {
    match AllPages(g.adSets(campaign)) {
      case HttpFailure =>
      case Fetched(ys) =>
        match FirstId(s.campaigns.rows, CampaignWithMetaId(campaign)) {
          case None =>
          case Some(p) =>
            AdSetsLoopUpserts(g, s, ys, p);
            FiledSyncs(p);
            UpsertAllSame(s.adSets, ys, AdSetSync(p), AdSetSyncFiled(), FileUnder(p));
            AdSetsLoopFiled(g, s, ys, p, A);
        }
    }
  }

  /**
   * A completed campaign loop writes the ad-set and ad tables as two flat upsert sequences:
   * every ad set filed under its campaign's key in C, every ad under its ad set's key in A,
   * where C and A agree with the loop's final campaign and ad-set tables.
   */
  lemma {:induction false} CampaignsLoopFiled(g: Graph, s: AdState, xs: seq<RemoteCampaign>, C: Table<Campaign>, A: Table<AdSet>)
    requires CampaignsLoop(g, s, xs).ok
    requires CampaignsAgree(CampaignsLoop(g, s, xs).st.campaigns, C)
    requires AdSetsAgree(CampaignsLoop(g, s, xs).st.adSets, A)
    ensures CampaignsLoop(g, s, xs).st.adSets == UpsertAll(s.adSets, AdSetsFiled(g, C, xs), AdSetSyncFiled())
    ensures CampaignsLoop(g, s, xs).st.ads == UpsertAll(s.ads, AdsFiled(g, A, AdSetsFiled(g, C, xs)), AdSyncFiled())
    decreases |xs|
  {
    if xs != [] {
      var s1 := s.(campaigns := Upsert(s.campaigns, xs[0], CampaignSync()));
      var r1 := AdSetsSync(g, s1, xs[0].id);
      var rest := xs[1..];
      var fin := CampaignsLoop(g, s, xs).st;
      assert CampaignsLoop(g, s, xs) == CampaignsLoop(g, r1.st, rest);
      CampaignsLoopFiled(g, r1.st, rest, C, A);
      CampaignFound(s.campaigns, xs[0]);
      CampaignsLoopUpserts(g, r1.st, rest);
      CampaignsAgreeUpsert(s1.campaigns, rest);
      FiledSyncs(0);
      AdSetsAgreeUpsert(r1.st.adSets, AdSetsFiled(g, C, rest), AdSetSyncFiled());
      AgreeTrans(r1.st.adSets, fin.adSets, A);
      AdSetsSyncFiled(g, s1, xs[0].id, C, A);
      var here := AdSetsOf(g, C, xs[0].id);
      var later := AdSetsFiled(g, C, rest);
      UpsertAllAppend(s.adSets, here, later, AdSetSyncFiled());
      AdsFiledAppend(g, A, here, later);
      UpsertAllAppend(s.ads, AdsFiled(g, A, here), AdsFiled(g, A, later), AdSyncFiled());
    }
  }

  /** Every ad listing of the ad sets ys can be fetched. */
  predicate AdsFetched(g: Graph, ys: seq<RemoteAdSet>) {
    forall i :: 0 <= i < |ys| ==> AllPages(g.ads(ys[i].id)).Fetched?
  }

  /** The ad-set listing of a campaign, and every ad listing below it, can be fetched. */
  predicate ListingFetched(g: Graph, campaign: string) {
    match AllPages(g.adSets(campaign))
    case HttpFailure => false
    case Fetched(ys) => AdsFetched(g, ys)
  }

  /** Every listing below the campaigns xs can be fetched. */
  predicate TreeFetched(g: Graph, xs: seq<RemoteCampaign>) {
    forall i :: 0 <= i < |xs| ==> ListingFetched(g, xs[i].id)
  }

  lemma TreeFetchedFront(g: Graph, xs: seq<RemoteCampaign>)
    requires xs != []
    ensures TreeFetched(g, xs) <==> ListingFetched(g, xs[0].id) && TreeFetched(g, xs[1..])
  {
    if ListingFetched(g, xs[0].id) && TreeFetched(g, xs[1..]) {
      forall i | 0 < i < |xs| ensures ListingFetched(g, xs[i].id) {
        assert xs[i] == xs[1..][i - 1];
      }
    }
  }

  /** An ad-set loop completes exactly when every ad listing below it can be fetched, whatever the tables hold. */
  lemma {:induction false} AdSetsLoopOk(g: Graph, s: AdState, ys: seq<RemoteAdSet>, p: int)
    ensures AdSetsLoop(g, s, ys, p).ok <==> AdsFetched(g, ys)
    decreases |ys|
  {
    if ys != [] {
      var s1 := s.(adSets := Upsert(s.adSets, ys[0], AdSetSync(p)));
      var r1 := AdsSync(g, s1, ys[0].id);
      AdSetsLoopOk(g, r1.st, ys[1..], p);
      assert AdsFetched(g, ys) <==> AllPages(g.ads(ys[0].id)).Fetched? && AdsFetched(g, ys[1..]) by {
        if AllPages(g.ads(ys[0].id)).Fetched? && AdsFetched(g, ys[1..]) {
          forall i | 0 < i < |ys| ensures AllPages(g.ads(ys[i].id)).Fetched? {
            assert ys[i] == ys[1..][i - 1];
          }
        }
      }
    }
  }

  /** With the campaign found, its ad-set sync completes exactly when every listing below it can be fetched. */
  lemma AdSetsSyncOk(g: Graph, s: AdState, campaign: string)
    requires FirstId(s.campaigns.rows, CampaignWithMetaId(campaign)).Some?
    ensures AdSetsSync(g, s, campaign).ok <==> ListingFetched(g, campaign)
  {
    match AllPages(g.adSets(campaign)) {
      case HttpFailure =>
      case Fetched(ys) =>
        AdSetsLoopOk(g, s, ys, FirstId(s.campaigns.rows, CampaignWithMetaId(campaign)).value);
    }
  }

  /**
   * A campaign loop completes exactly when every listing below the campaigns can be fetched,
   * whatever the tables hold: each campaign is upserted before its ad sets are looked up, and
   * each ad set before its ads, so no listing below is ever skipped for a missing parent.
   */
  lemma {:induction false} CampaignsLoopOk(g: Graph, s: AdState, xs: seq<RemoteCampaign>)
    ensures CampaignsLoop(g, s, xs).ok <==> TreeFetched(g, xs)
    decreases |xs|
  {
    if xs != [] {
      var s1 := s.(campaigns := Upsert(s.campaigns, xs[0], CampaignSync()));
      var r1 := AdSetsSync(g, s1, xs[0].id);
      CampaignsLoopOk(g, r1.st, xs[1..]);
      CampaignFound(s.campaigns, xs[0]);
      AdSetsSyncOk(g, s1, xs[0].id);
      TreeFetchedFront(g, xs);
    }
  }

  lemma AgreeTrans(t: Table<AdSet>, u: Table<AdSet>, w: Table<AdSet>)
    requires AdSetsAgree(t, u) && AdSetsAgree(u, w)
    ensures AdSetsAgree(t, w)
  {
  }

  // ---------------------------------------------------------------------------------------
  // The sync as the code runs it
  // ---------------------------------------------------------------------------------------

  function StateOf(db: Database): AdState
    reads db
  {
    AdState(db.campaigns, db.adSets, db.ads)
  }

  /** `_sync_ads`: returns false when an HTTP error propagates. */
  method SyncAds(g: Graph, db: Database, adSet: string) returns (ok: bool)
    modifies db`ads
    ensures Run(StateOf(db), ok) == AdsSync(g, old(StateOf(db)), adSet)
  {
    var fetched := GetAllPages(g.ads(adSet));
    if fetched.HttpFailure? {
      return false;
    }
    var ads := fetched.items;
    var parent := FirstId(db.adSets.rows, AdSetWithMetaId(adSet));
    if parent.None? {
      return true;
    }
    var i := 0;
    while i < |ads|
      invariant 0 <= i <= |ads|
      invariant db.ads == UpsertAll(old(db.ads), ads[..i], AdSync(parent.value))
    {
      UpsertAllStep(old(db.ads), ads, i, AdSync(parent.value));
      db.ads := Upsert(db.ads, ads[i], AdSync(parent.value));
      i := i + 1;
    }
    assert ads[..i] == ads;
    return true;
  }

  /** `_sync_ad_sets`: returns false when an HTTP error propagates. */
  method SyncAdSets(g: Graph, db: Database, campaign: string) returns (ok: bool)
    modifies db`adSets, db`ads
    ensures Run(StateOf(db), ok) == AdSetsSync(g, old(StateOf(db)), campaign)
  {
    var fetched := GetAllPages(g.adSets(campaign));
    if fetched.HttpFailure? {
      return false;
    }
    var sets := fetched.items;
    var parent := FirstId(db.campaigns.rows, CampaignWithMetaId(campaign));
    if parent.None? {
      return true;
    }
    var i := 0;
    while i < |sets|
      invariant 0 <= i <= |sets|
      invariant AdSetsLoop(g, StateOf(db), sets[i..], parent.value) == AdSetsSync(g, old(StateOf(db)), campaign)
    {
      AdSetsLoopStep(g, StateOf(db), sets, i, parent.value);
      ghost var s1 := StateOf(db).(adSets := Upsert(db.adSets, sets[i], AdSetSync(parent.value)));
      db.adSets := Upsert(db.adSets, sets[i], AdSetSync(parent.value));
      assert StateOf(db) == s1;
      ok := SyncAds(g, db, sets[i].id);
      if !ok {
        return;
      }
      i := i + 1;
    }
    return true;
  }

  /** One ad set of the loop: upsert it, then sync its ads, stopping on an error. */
  lemma AdSetsLoopStep(g: Graph, s: AdState, xs: seq<RemoteAdSet>, i: int, parent: int)
    requires 0 <= i < |xs|
    ensures var s1 := s.(adSets := Upsert(s.adSets, xs[i], AdSetSync(parent)));
      var r1 := AdsSync(g, s1, xs[i].id);
      AdSetsLoop(g, s, xs[i..], parent) == if !r1.ok then r1 else AdSetsLoop(g, r1.st, xs[i + 1..], parent)
  {
    assert xs[i..][1..] == xs[i + 1..];
  }

  /** One campaign of the loop: upsert it, then sync its ad sets, stopping on an error. */
  lemma CampaignsLoopStep(g: Graph, s: AdState, xs: seq<RemoteCampaign>, i: int)
    requires 0 <= i < |xs|
    ensures var s1 := s.(campaigns := Upsert(s.campaigns, xs[i], CampaignSync()));
      var r1 := AdSetsSync(g, s1, xs[i].id);
      CampaignsLoop(g, s, xs[i..]) == if !r1.ok then r1 else CampaignsLoop(g, r1.st, xs[i + 1..])
  {
    assert xs[i..][1..] == xs[i + 1..];
  }

  /** The campaign loop of `sync_campaigns`: upsert each campaign, then its ad sets. */
  method SyncCampaignList(g: Graph, camps: seq<RemoteCampaign>, db: Database) returns (ok: bool, count: nat)
    modifies db`campaigns, db`adSets, db`ads
    ensures Run(StateOf(db), ok) == CampaignsLoop(g, old(StateOf(db)), camps)
    ensures ok ==> count == |camps|
  {
    ghost var goal := CampaignsLoop(g, StateOf(db), camps);
    assert camps[0..] == camps;
    count := 0;
    var i := 0;
    while i < |camps|
      invariant 0 <= i <= |camps| && count == i
      invariant CampaignsLoop(g, StateOf(db), camps[i..]) == goal
    {
      CampaignsLoopStep(g, StateOf(db), camps, i);
      ghost var s1 := StateOf(db).(campaigns := Upsert(db.campaigns, camps[i], CampaignSync()));
      db.campaigns := Upsert(db.campaigns, camps[i], CampaignSync());
      assert StateOf(db) == s1;
      count := count + 1;
      ok := SyncAdSets(g, db, camps[i].id);
      if !ok {
        return;
      }
      i := i + 1;
    }
    assert camps[i..] == [];
    ok := true;
  }

  /**
   * `sync_campaigns`: the number of listed campaigns, or None when an HTTP error propagated
   * out of the sync.
   */
  method SyncCampaigns(g: Graph, c: Config, db: Database) returns (synced: Option<nat>)
    requires StateWellFormed(StateOf(db))
    modifies db`campaigns, db`adSets, db`ads
    ensures StateWellFormed(StateOf(db))
    ensures StateOf(db) == CampaignsSync(g, c, old(StateOf(db))).st
    ensures synced.Some? <==> CampaignsSync(g, c, old(StateOf(db))).ok
    ensures synced.Some? ==> synced.value == |AllPages(g.campaigns(c.adAccountId)).items|
  {
    var fetched := GetAllPages(g.campaigns(c.adAccountId));
    if fetched.HttpFailure? {
      return None;
    }
    var ok, count := SyncCampaignList(g, fetched.items, db);
    if !ok {
      return None;
    }
    return Some(count);
  }
}
